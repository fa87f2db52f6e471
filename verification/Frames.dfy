/** Frames, headers and batches as they travel between the emitter and the accumulator. */
module Frames {
  import opened Common

  newtype Byte = x: int | 0 <= x < 256

  type Bytes = seq<Byte>

  datatype Dtype = UInt8 | UInt16 | UInt32 | Int32 | Float32 | Float64

  function ItemSize(d: Dtype): (n: nat)
    ensures n > 0
  {
    match d
    case UInt8 => 1
    case UInt16 => 2
    case UInt32 | Int32 | Float32 => 4
    case Float64 => 8
  }

  // A one-dimensional array: an element type and its raw memory.
  datatype Array = Array(dtype: Dtype, bytes: Bytes) {
    // Memory always holds whole items.
    predicate Valid() {
      |bytes| % ItemSize(dtype) == 0
    }
  }

  // So many bytes make up whole items of the type.
  predicate WholeBytes(d: Dtype, n: nat) {
    match d
    case UInt8 => true
    case UInt16 => n % 2 == 0
    case UInt32 | Int32 | Float32 => n % 4 == 0
    case Float64 => n % 8 == 0
  }

  lemma WholeBytesIff(a: Array)
    ensures a.Valid() <==> WholeBytes(a.dtype, |a.bytes|)
  {
  }

  datatype FrameHeader = FrameHeader(
    scanNumber: int,
    columns: nat,  // positions per row of the scan
    rows: nat,
    x: nat,        // position within the row
    row: nat,
    dataSize: nat,
    dtype: Dtype
  ) {
    function Flat(): nat {
      row * columns + x
    }
  }

  datatype BatchHeader = BatchHeader(
    scanNumber: int,
    headers: seq<FrameHeader>,
    batchSize: nat,
    totalBatches: Option<nat>,
    totalFrames: Option<nat>,
    batchIndex: Option<nat>
  )

  datatype Batch = Batch(header: BatchHeader, data: Bytes)

  datatype HeaderError = NoHeaders | MixedScans | SizeMismatch

  // Where the i-th frame's bytes begin: the sizes of the frames before it, added up.
  function Offset(headers: seq<FrameHeader>, i: nat): nat
    requires i <= |headers|
  {
    if i == 0 then 0 else Offset(headers, i - 1) + headers[i - 1].dataSize
  }

  function TotalSize(headers: seq<FrameHeader>): nat {
    Offset(headers, |headers|)
  }

  lemma {:induction false} OffsetMonotone(headers: seq<FrameHeader>, i: nat, j: nat)
    requires i <= j <= |headers|
    ensures Offset(headers, i) <= Offset(headers, j)
  {
    if i < j {
      OffsetMonotone(headers, i, j - 1);
    }
  }

  lemma {:induction false} OffsetPrefix(a: seq<FrameHeader>, b: seq<FrameHeader>, i: nat)
    requires i <= |a| <= |b| && b[..|a|] == a
    ensures Offset(a, i) == Offset(b, i)
  {
    if i > 0 {
      OffsetPrefix(a, b, i - 1);
      assert b[i - 1] == b[..|a|][i - 1];
    }
  }

  // The checks a batch header makes of itself when it is built or decoded.
  predicate ValidHeader(h: BatchHeader) {
    h.headers != [] && OneScan(h.headers) && TotalSize(h.headers) == h.batchSize
  }

  predicate OneScan(headers: seq<FrameHeader>) {
    forall i :: 0 <= i < |headers| ==> headers[i].scanNumber == headers[0].scanNumber
  }

  method CheckHeader(h: BatchHeader) returns (r: Result<BatchHeader, HeaderError>)
    ensures r.Success? <==> ValidHeader(h)
    ensures r.Success? ==> r.value == h
    ensures r == Failure(NoHeaders) <==> h.headers == []
    ensures r == Failure(MixedScans)
       <==> exists i, j :: 0 <= i < j < |h.headers| && h.headers[i].scanNumber != h.headers[j].scanNumber
    ensures r == Failure(SizeMismatch) <==> h.headers != [] && OneScan(h.headers) && TotalSize(h.headers) != h.batchSize
  {
    if h.headers == [] {
      return Failure(NoHeaders);
    }
    if !OneScan(h.headers) {
      return Failure(MixedScans);
    }
    var total := 0;
    for i := 0 to |h.headers|
      invariant total == Offset(h.headers, i)
    {
      total := total + h.headers[i].dataSize;
    }
    if total != h.batchSize {
      return Failure(SizeMismatch);
    }
    return Success(h);
  }

  // ----- Scan positions -----

  // Row and column of the i-th position of a scan with `columns` positions per row.
  function Unravel(i: nat, columns: nat): (nat, nat)
    requires columns > 0
  {
    (i / columns, i % columns)
  }

  lemma FlatUnravel(i: nat, columns: nat)
    requires columns > 0
    ensures Unravel(i, columns).0 * columns + Unravel(i, columns).1 == i
  {
  }

  // ----- Two ways to cut a batch into arrays -----

  // An array and the flat scan position it belongs to.
  datatype Item = Item(pos: nat, arr: Array)

  // All sizes together account for every byte.
  predicate Measured(b: Batch) {
    TotalSize(b.header.headers) == |b.data|
  }

  // The buffer holds the first k frames.
  predicate Holds(b: Batch, k: nat)
    requires k <= |b.header.headers|
  {
    Offset(b.header.headers, k) <= |b.data|
  }

  lemma HoldsEarlier(b: Batch, i: nat, k: nat)
    requires i <= k <= |b.header.headers| && Holds(b, k)
    ensures Holds(b, i)
  {
    OffsetMonotone(b.header.headers, i, k);
  }

  // A frame's slice of the buffer.
  function Slice(b: Batch, i: nat): Bytes
    requires i < |b.header.headers| && Holds(b, i + 1)
  {
    b.data[Offset(b.header.headers, i)..Offset(b.header.headers, i + 1)]
  }

  // The frame's own slice, read with the frame's own element type.
  function OwnItem(b: Batch, i: nat): Item
    requires i < |b.header.headers| && Holds(b, i + 1)
  {
    Item(b.header.headers[i].Flat(), Array(b.header.headers[i].dtype, Slice(b, i)))
  }

  // As many whole items of the first frame's element type as fit the frame's slice.
  function CommonItem(b: Batch, i: nat): Item
    requires i < |b.header.headers| && Holds(b, i + 1)
  {
    Item(b.header.headers[i].Flat(), WholeItems(b.header.headers[0].dtype, Slice(b, i)))
  }

  function WholeItems(d: Dtype, bytes: Bytes): (a: Array)
    ensures a.Valid() && a.dtype == d && a.bytes <= bytes && |bytes| - ItemSize(d) < |a.bytes|
  {
    var n := |bytes| / ItemSize(d) * ItemSize(d);
    WholeMultiple(|bytes|, d);
    Array(d, bytes[..n])
  }

  lemma MultipleOf2(n: nat)
    ensures n / 2 * 2 <= n < n / 2 * 2 + 2 && n / 2 * 2 % 2 == 0
  {
  }

  lemma MultipleOf4(n: nat)
    ensures n / 4 * 4 <= n < n / 4 * 4 + 4 && n / 4 * 4 % 4 == 0
  {
  }

  lemma MultipleOf8(n: nat)
    ensures n / 8 * 8 <= n < n / 8 * 8 + 8 && n / 8 * 8 % 8 == 0
  {
  }

  // The bytes of as many whole items as fit n bytes.
  lemma WholeMultiple(n: nat, d: Dtype)
    ensures n - ItemSize(d) < n / ItemSize(d) * ItemSize(d) <= n && n / ItemSize(d) * ItemSize(d) % ItemSize(d) == 0
  {
    MultipleOf2(n);
    MultipleOf4(n);
    MultipleOf8(n);
    assert ItemSize(d) == 1 || ItemSize(d) == 2 || ItemSize(d) == 4 || ItemSize(d) == 8;
  }

  // The first k frames, each read on its own.
  function OwnItems(b: Batch, k: nat): (items: seq<Item>)
    requires k <= |b.header.headers| && Holds(b, k)
  {
    if k == 0 then [] else
    HoldsEarlier(b, k - 1, k);
    OwnItems(b, k - 1) + [OwnItem(b, k - 1)]
  }

  // The first k frames, all read with one element type.
  function CommonItems(b: Batch, k: nat): (items: seq<Item>)
    requires k <= |b.header.headers| && Holds(b, k)
  {
    if k == 0 then [] else
    HoldsEarlier(b, k - 1, k);
    CommonItems(b, k - 1) + [CommonItem(b, k - 1)]
  }

  lemma CommonItemsNext(b: Batch, k: nat)
    requires 0 < k <= |b.header.headers| && Holds(b, k)
    ensures Holds(b, k - 1) && CommonItems(b, k) == CommonItems(b, k - 1) + [CommonItem(b, k - 1)]
  {
    HoldsEarlier(b, k - 1, k);
  }

  lemma {:induction false} OwnItemAt(b: Batch, k: nat, i: nat)
    requires i < k <= |b.header.headers| && Holds(b, k)
    ensures |OwnItems(b, k)| == k && Holds(b, i + 1) && OwnItems(b, k)[i] == OwnItem(b, i)
  {
    HoldsEarlier(b, k - 1, k);
    HoldsEarlier(b, i + 1, k);
    if k > 1 {
      OwnItemAt(b, k - 1, if i < k - 1 then i else 0);
    }
  }

  lemma {:induction false} CommonItemAt(b: Batch, k: nat, i: nat)
    requires i < k <= |b.header.headers| && Holds(b, k)
    ensures |CommonItems(b, k)| == k && Holds(b, i + 1) && CommonItems(b, k)[i] == CommonItem(b, i)
  {
    HoldsEarlier(b, k - 1, k);
    HoldsEarlier(b, i + 1, k);
    if k > 1 {
      CommonItemAt(b, k - 1, if i < k - 1 then i else 0);
    }
  }

  // The frame has the first frame's element type and no fraction of an item.
  predicate Regular(b: Batch, i: nat)
    requires i < |b.header.headers|
  {
    var h := b.header.headers[i];
    h.dtype == b.header.headers[0].dtype && h.dataSize % ItemSize(h.dtype) == 0
  }

  predicate Uniform(b: Batch) {
    forall i :: 0 <= i < |b.header.headers| ==> Regular(b, i)
  }

  predicate OwnReadable(b: Batch)
    requires Holds(b, |b.header.headers|)
  {
    forall i :: 0 <= i < |b.header.headers| ==> b.header.headers[i].dataSize % ItemSize(b.header.headers[i].dtype) == 0
  }

  lemma ReadAlikeIff(b: Batch, i: nat)
    requires i < |b.header.headers| && Holds(b, i + 1)
    ensures Regular(b, i) <==> OwnItem(b, i).arr.Valid() && OwnItem(b, i) == CommonItem(b, i)
    ensures OwnItem(b, i).arr.Valid() <==> b.header.headers[i].dataSize % ItemSize(b.header.headers[i].dtype) == 0
  {
  }

  // Reading frame by frame works and agrees with reading the batch as one buffer exactly for uniform batches.
  lemma ReadingsAgreeIff(b: Batch)
    requires Measured(b)
    ensures var n := |b.header.headers|;
            Uniform(b) <==> OwnReadable(b) && OwnItems(b, n) == CommonItems(b, n)
  {
    var n := |b.header.headers|;
    if Uniform(b) {
      UniformReadings(b, n);
      forall i | 0 <= i < n ensures b.header.headers[i].dataSize % ItemSize(b.header.headers[i].dtype) == 0 {
        assert Regular(b, i);
      }
    }
    if OwnReadable(b) && OwnItems(b, n) == CommonItems(b, n) {
      forall i | 0 <= i < n ensures Regular(b, i) {
        OwnItemAt(b, n, i);
        CommonItemAt(b, n, i);
        ReadAlikeIff(b, i);
      }
    }
  }

  lemma {:induction false} UniformReadings(b: Batch, k: nat)
    requires k <= |b.header.headers| && Holds(b, k) && Uniform(b)
    ensures OwnItems(b, k) == CommonItems(b, k)
  {
    if k > 0 {
      HoldsEarlier(b, k - 1, k);
      UniformReadings(b, k - 1);
      assert Regular(b, k - 1);
      ReadAlikeIff(b, k - 1);
    }
  }
}
