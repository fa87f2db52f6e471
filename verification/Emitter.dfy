/** The batch emitter: a generator that hands out one packed batch per call. */
module Emitter {
  import opened Common
  import opened Frames
  import opened Packing

  // A scan: one row of frames per position, all rows equally long and not empty.
  ghost predicate IsScan(frames: seq<seq<Array>>, rows: nat, columns: nat, perPosition: nat) {
    && |frames| == rows * columns && perPosition >= 1
    && (forall p :: 0 <= p < |frames| ==> |frames[p]| == perPosition)
  }

  function RowBytes(row: seq<Array>): nat {
    if row == [] then 0 else RowBytes(row[..|row| - 1]) + |row[|row| - 1].bytes|
  }

  function Sizes(frames: seq<seq<Array>>): (sizes: seq<nat>)
    ensures |sizes| == |frames| && forall p :: 0 <= p < |frames| ==> sizes[p] == RowBytes(frames[p])
  {
    seq(|frames|, p requires 0 <= p < |frames| => RowBytes(frames[p]))
  }

  function RowParts(p: nat, row: seq<Array>): seq<Item> {
    seq(|row|, j requires 0 <= j < |row| => Item(p, row[j]))
  }

  // The frames of positions `lo` up to `hi`, position by position.
  function SpanParts(frames: seq<seq<Array>>, lo: nat, hi: nat): seq<Item>
    requires lo <= hi <= |frames|
  {
    if lo == hi then [] else SpanParts(frames, lo, hi - 1) + RowParts(hi - 1, frames[hi - 1])
  }

  // Headers never state an element type; the default is a 32-bit unsigned integer.
  function HeaderOf(part: Item, scanNumber: int, rows: nat, columns: nat): FrameHeader
    requires columns > 0
  {
    var (row, x) := Unravel(part.pos, columns);
    FrameHeader(scanNumber, columns, rows, x, row, |part.arr.bytes|, UInt32)
  }

  function HeadersOf(parts: seq<Item>, scanNumber: int, rows: nat, columns: nat): (hs: seq<FrameHeader>)
    requires parts != [] ==> columns > 0
    ensures |hs| == |parts| && forall i :: 0 <= i < |hs| ==> hs[i] == HeaderOf(parts[i], scanNumber, rows, columns)
  {
    seq(|parts|, i requires 0 <= i < |parts| => HeaderOf(parts[i], scanNumber, rows, columns))
  }

  function DataOf(parts: seq<Item>): Bytes {
    if parts == [] then [] else DataOf(parts[..|parts| - 1]) + parts[|parts| - 1].arr.bytes
  }

  lemma {:induction false} DataConcat(a: seq<Item>, b: seq<Item>)
    ensures DataOf(a + b) == DataOf(a) + DataOf(b)
  {
    if b == [] {
      assert a + b == a;
    } else {
      assert (a + b)[..|a + b| - 1] == a + b[..|b| - 1];
      DataConcat(a, b[..|b| - 1]);
    }
  }

  lemma {:induction false} HeadersMeasureData(parts: seq<Item>, scanNumber: int, rows: nat, columns: nat)
    requires columns > 0
    ensures TotalSize(HeadersOf(parts, scanNumber, rows, columns)) == |DataOf(parts)|
  {
    if parts != [] {
      var front := parts[..|parts| - 1];
      HeadersMeasureData(front, scanNumber, rows, columns);
      OffsetPrefix(HeadersOf(front, scanNumber, rows, columns), HeadersOf(parts, scanNumber, rows, columns), |front|);
    }
  }

  lemma {:induction false} SpanPartCount(frames: seq<seq<Array>>, rows: nat, columns: nat, perPosition: nat, lo: nat,
                                         hi: nat)
    requires IsScan(frames, rows, columns, perPosition) && lo <= hi <= |frames|
    ensures |SpanParts(frames, lo, hi)| == (hi - lo) * perPosition
  {
    if lo < hi {
      SpanPartCount(frames, rows, columns, perPosition, lo, hi - 1);
      assert (hi - lo) * perPosition == (hi - 1 - lo) * perPosition + perPosition;
    }
  }

  // Where the j-th frame of position p comes among the frames of positions `lo` up to `hi`.
  lemma {:induction false} PartAt(frames: seq<seq<Array>>, rows: nat, columns: nat, n: nat, lo: nat, hi: nat, p: nat,
                                  j: nat)
    requires IsScan(frames, rows, columns, n) && lo <= p < hi <= |frames| && j < n
    ensures 0 <= (p - lo) * n + j < |SpanParts(frames, lo, hi)|
    ensures SpanParts(frames, lo, hi)[(p - lo) * n + j] == Item(p, frames[p][j])
  {
    var rest, row := SpanParts(frames, lo, hi - 1), RowParts(hi - 1, frames[hi - 1]);
    SpanPartCount(frames, rows, columns, n, lo, hi - 1);
    assert SpanParts(frames, lo, hi) == rest + row;
    if p < hi - 1 {
      PartAt(frames, rows, columns, n, lo, hi - 1, p, j);
      assert (rest + row)[(p - lo) * n + j] == rest[(p - lo) * n + j];
    } else {
      assert (rest + row)[|rest| + j] == row[j];
    }
  }

  lemma UnravelInside(p: nat, rows: nat, columns: nat)
    requires p < rows * columns
    ensures columns > 0 && Unravel(p, columns).0 < rows && Unravel(p, columns).1 < columns
  {
    ProductPositive(rows, columns);
    FlatUnravel(p, columns);
    FactorBelow(Unravel(p, columns).0, rows, columns);
  }

  lemma FactorBelow(a: nat, b: nat, c: nat)
    requires a * c < b * c
    ensures a < b
  {
  }

  datatype Exhausted = Exhausted

  class BatchEmitter {
    const frames: seq<seq<Array>>
    const scanNumber: int
    const rows: nat
    const columns: nat
    const limit: nat  // batch size in bytes
    const framesPerPosition: nat
    const positionBytes: seq<nat>
    const totalBatches: nat
    const totalFramesExpected: nat
    var nextPosition: nat
    var batchIndex: nat
    var framesEmitted: nat
    var messagesEmitted: nat
    var finished: bool

    ghost predicate Valid()
      reads this
    {
      && IsScan(frames, rows, columns, framesPerPosition)
      && positionBytes == Sizes(frames)
      && totalBatches == Announced(positionBytes, limit)
      && totalFramesExpected == |frames| * framesPerPosition
      && nextPosition <= |frames|
      && batchIndex == messagesEmitted <= |Spans()|
      && Spans()[messagesEmitted..] == Cuts(positionBytes, limit, nextPosition)
      && framesEmitted == nextPosition * framesPerPosition
      && (finished ==> nextPosition == |frames|)
    }

    // All the batches there are to emit.
    ghost function Spans(): seq<Span> {
      Cuts(positionBytes, limit, 0)
    }

    // The k-th message: everything about its positions, with the totals announced in advance.
    ghost function Message(k: nat): Batch
      requires IsScan(frames, rows, columns, framesPerPosition) && positionBytes == Sizes(frames) && k < |Spans()|
    {
      CutsPartition(positionBytes, limit, 0);
      PartitionAt(Spans(), 0, |frames|, k);
      var parts := SpanParts(frames, Spans()[k].lo, Spans()[k].hi);
      Packed(parts, k)
    }

    function Packed(parts: seq<Item>, k: nat): Batch
      requires parts != [] ==> columns > 0
    {
      Batch(BatchHeader(scanNumber, HeadersOf(parts, scanNumber, rows, columns), |DataOf(parts)|,
                        Some(totalBatches), Some(totalFramesExpected), Some(k)),
            DataOf(parts))
    }

    // A header that gives the scan's number and shape, one position's row and column, and a frame's size in bytes.
    ghost predicate Labels(h: FrameHeader, p: nat, bytes: nat) {
      && h.scanNumber == scanNumber && h.rows == rows && h.columns == columns
      && h.row < rows && h.x < columns && h.row * columns + h.x == p
      && h.dataSize == bytes && h.dtype == UInt32
    }

    // The header of the k-th message, field by field: totals, and a label for every frame of its positions, in order.
    ghost predicate Describes(h: BatchHeader, k: nat)
      requires k < |Spans()|
    {
      var s := Spans()[k];
      && h.scanNumber == scanNumber && h.batchIndex == Some(k)
      && h.totalBatches == Some(totalBatches) && h.totalFrames == Some(|frames| * framesPerPosition)
      && s.lo < s.hi <= |frames| && |h.headers| == (s.hi - s.lo) * framesPerPosition
      && forall p: nat, j: nat {:trigger LabelledAt(h.headers, s.lo, p, j)} ::
           s.lo <= p < s.hi && j < |frames[p]| ==> LabelledAt(h.headers, s.lo, p, j)
    }

    // The label of the j-th frame of position p, in a batch that begins with position `lo`.
    ghost predicate LabelledAt(hs: seq<FrameHeader>, lo: nat, p: nat, j: nat)
      requires p < |frames| && j < |frames[p]|
    {
      var i := (p - lo) * framesPerPosition + j;
      0 <= i < |hs| && Labels(hs[i], p, |frames[p][j].bytes|)
    }

    lemma LabelAt(hs: seq<FrameHeader>, s: Span, p: nat, j: nat)
      requires IsScan(frames, rows, columns, framesPerPosition) && s.lo <= p < s.hi <= |frames| && j < framesPerPosition
      requires columns > 0 && hs == HeadersOf(SpanParts(frames, s.lo, s.hi), scanNumber, rows, columns)
      ensures LabelledAt(hs, s.lo, p, j)
    {
      PartAt(frames, rows, columns, framesPerPosition, s.lo, s.hi, p, j);
      UnravelInside(p, rows, columns);
      FlatUnravel(p, columns);
    }

    // So the k-th message is described, whatever was emitted before.
    lemma MessageDescribed(k: nat, h: BatchHeader)
      requires IsScan(frames, rows, columns, framesPerPosition) && positionBytes == Sizes(frames) && k < |Spans()|
      requires totalFramesExpected == |frames| * framesPerPosition && h == Message(k).header
      ensures Describes(h, k)
    {
      CutsPartition(positionBytes, limit, 0);
      PartitionAt(Spans(), 0, |frames|, k);
      var s := Spans()[k];
      SpanPartCount(frames, rows, columns, framesPerPosition, s.lo, s.hi);
      ProductPositive(rows, columns);
      forall p: nat, j: nat | s.lo <= p < s.hi && j < |frames[p]| ensures LabelledAt(h.headers, s.lo, p, j) {
        LabelAt(h.headers, s, p, j);
      }
    }

    constructor (frames: seq<seq<Array>>, scanNumber: int, rows: nat, columns: nat, limit: nat)
      requires IsScan(frames, rows, columns, if frames == [] then 1 else |frames[0]|)
      ensures Valid() && messagesEmitted == 0 && !finished
      ensures this.frames == frames && this.scanNumber == scanNumber && this.rows == rows && this.columns == columns
      ensures this.limit == limit
    {
      var perPosition := if frames == [] then 1 else |frames[0]|;
      var bytes := MeasurePositions(frames);
      var count := CountBatches(bytes, limit);
      this.frames, this.scanNumber, this.rows, this.columns, this.limit := frames, scanNumber, rows, columns, limit;
      this.framesPerPosition, this.positionBytes := perPosition, bytes;
      this.totalBatches, this.totalFramesExpected := count, |frames| * perPosition;
      nextPosition, batchIndex, framesEmitted, messagesEmitted, finished := 0, 0, 0, 0, false;
    }

    // Hands out the next batch; after the last one it reports exhaustion, and from then on nothing else.
    method GetNextBatchMessage() returns (r: Result<Batch, Exhausted>)
      requires Valid()
      modifies this
      ensures Valid()
      ensures r.Success? <==> old(messagesEmitted) < |Spans()|
      ensures r.Success? ==> r.value == Message(old(messagesEmitted)) && ValidHeader(r.value.header)
      ensures r.Success? ==> Describes(r.value.header, old(messagesEmitted))
      ensures r.Success? ==>
                messagesEmitted == old(messagesEmitted) + 1
                && framesEmitted == old(framesEmitted) + |r.value.header.headers|
      ensures r.Failure? ==> finished && messagesEmitted == old(messagesEmitted) && framesEmitted == totalFramesExpected
    {
      if finished {
        return Failure(Exhausted);
      }
      var hi, parts := FillBatch(nextPosition);
      if parts == [] {
        finished := true;
        return Failure(Exhausted);
      }
      PartsInside(frames, rows, columns, framesPerPosition, nextPosition, hi);
      var batch := Packed(parts, batchIndex);
      HeadersMeasureData(parts, scanNumber, rows, columns);
      NextSpan(positionBytes, limit, nextPosition, hi, messagesEmitted);
      MessageDescribed(messagesEmitted, batch.header);
      Advance(hi, |batch.header.headers|);
      return Success(batch);
    }

    // Counts the batch just made.
    method Advance(hi: nat, frameCount: nat)
      requires Valid() && !finished && messagesEmitted < |Spans()| && hi <= |frames|
      requires Spans()[messagesEmitted + 1..] == Cuts(positionBytes, limit, hi)
      requires framesEmitted + frameCount == hi * framesPerPosition
      modifies this`framesEmitted, this`messagesEmitted, this`batchIndex, this`nextPosition
      ensures Valid()
      ensures messagesEmitted == old(messagesEmitted) + 1 && framesEmitted == old(framesEmitted) + frameCount
    {
      framesEmitted := framesEmitted + frameCount;
      messagesEmitted := messagesEmitted + 1;
      batchIndex := batchIndex + 1;
      nextPosition := hi;
    }

    // Takes whole positions until the next one would close the batch.
    method FillBatch(lo: nat) returns (hi: nat, parts: seq<Item>)
      requires positionBytes == Sizes(frames) && lo <= |frames|
      ensures lo <= hi <= |frames| && hi == End(positionBytes, limit, lo, 0)
      ensures parts == SpanParts(frames, lo, hi)
    {
      hi, parts := lo, [];
      var bytes: nat := 0;
      while hi < |frames| && !(bytes > 0 && bytes + positionBytes[hi] >= limit)
        invariant lo <= hi <= |frames|
        invariant parts == SpanParts(frames, lo, hi) && bytes == Sum(positionBytes, lo, hi)
        invariant End(positionBytes, limit, lo, 0) == End(positionBytes, limit, hi, bytes)
      {
        assert !Closes(bytes, positionBytes[hi], limit);
        var row, added := TakePosition(hi, frames[hi]);
        NextPosition(frames, positionBytes, limit, lo, hi, parts, bytes, row, added);
        parts := parts + row;
        bytes := bytes + added;
        hi := hi + 1;
      }
    }
  }

  // The batch that starts at the next position is the next of the split.
  lemma NextSpan(sizes: seq<nat>, limit: nat, lo: nat, hi: nat, k: nat)
    requires lo < |sizes| && hi == End(sizes, limit, lo, 0) && k <= |Cuts(sizes, limit, 0)|
    requires Cuts(sizes, limit, 0)[k..] == Cuts(sizes, limit, lo)
    ensures k < |Cuts(sizes, limit, 0)| && Cuts(sizes, limit, 0)[k] == Span(lo, hi)
    ensures Cuts(sizes, limit, 0)[k + 1..] == Cuts(sizes, limit, hi)
  {
    var spans := Cuts(sizes, limit, 0);
    assert |spans[k..]| > 0 && spans[k] == spans[k..][0];
    assert spans[k..][1..] == spans[k + 1..];
  }

  // Taking one position more, when it does not close the batch.
  lemma NextPosition(frames: seq<seq<Array>>, sizes: seq<nat>, limit: nat, lo: nat, hi: nat, parts: seq<Item>,
                     bytes: nat, row: seq<Item>, added: nat)
    requires sizes == Sizes(frames) && lo <= hi < |frames| && !Closes(bytes, sizes[hi], limit)
    requires parts == SpanParts(frames, lo, hi) && bytes == Sum(sizes, lo, hi)
    requires row == RowParts(hi, frames[hi]) && added == RowBytes(frames[hi])
    ensures parts + row == SpanParts(frames, lo, hi + 1) && bytes + added == Sum(sizes, lo, hi + 1)
    ensures End(sizes, limit, hi, bytes) == End(sizes, limit, hi + 1, bytes + added)
  {
  }

  method TakePosition(p: nat, row: seq<Array>) returns (parts: seq<Item>, bytes: nat)
    ensures parts == RowParts(p, row) && bytes == RowBytes(row)
  {
    parts, bytes := [], 0;
    for j := 0 to |row|
      invariant parts == RowParts(p, row[..j]) && bytes == RowBytes(row[..j])
    {
      assert row[..j + 1][..j] == row[..j];
      parts := parts + [Item(p, row[j])];
      bytes := bytes + |row[j].bytes|;
    }
    assert row[..|row|] == row;
  }

  method MeasurePositions(frames: seq<seq<Array>>) returns (sizes: seq<nat>)
    ensures sizes == Sizes(frames)
  {
    sizes := [];
    for p := 0 to |frames|
      invariant sizes == Sizes(frames[..p])
    {
      var parts, bytes := TakePosition(p, frames[p]);
      sizes := sizes + [bytes];
    }
    assert frames[..|frames|] == frames;
  }

  lemma PartsInside(frames: seq<seq<Array>>, rows: nat, columns: nat, perPosition: nat, lo: nat, hi: nat)
    requires IsScan(frames, rows, columns, perPosition) && lo < hi <= |frames|
    ensures columns > 0
    ensures |SpanParts(frames, lo, hi)| == (hi - lo) * perPosition > 0
    ensures hi * perPosition == lo * perPosition + |SpanParts(frames, lo, hi)|
  {
    SpanPartCount(frames, rows, columns, perPosition, lo, hi);
    ProductPositive(rows, columns);
    DifferenceTimes(lo, hi, perPosition);
  }

  lemma ProductPositive(a: nat, b: nat)
    requires a * b > 0
    ensures b > 0
  {
  }

  lemma DifferenceTimes(lo: nat, hi: nat, n: nat)
    requires lo < hi && n > 0
    ensures (hi - lo) * n > 0 && hi * n == lo * n + (hi - lo) * n
  {
  }
}
