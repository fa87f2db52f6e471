/** End to end: every batch of a scan, delivered in any order, rebuilds the scan. */
module Streaming {
  import opened Common
  import opened Frames
  import opened Packing
  import opened Emitter
  import opened Accumulator

  // What a frame looks like after transport: its bytes, read as 32-bit unsigned integers.
  function Decoded(a: Array): Array {
    WholeItems(UInt32, a.bytes)
  }

  // Transport preserves a frame exactly when its element type was the default one.
  lemma DecodedIff(a: Array)
    requires a.Valid()
    ensures Decoded(a) == a <==> a.dtype == UInt32
  {
  }

  function DecodedRow(row: seq<Array>): (r: seq<Array>)
    ensures |r| == |row| && forall j :: 0 <= j < |row| ==> r[j] == Decoded(row[j])
  {
    seq(|row|, j requires 0 <= j < |row| => Decoded(row[j]))
  }

  function DecodedItems(parts: seq<Item>): (items: seq<Item>)
    ensures |items| == |parts| && forall i :: 0 <= i < |parts| ==> items[i] == Item(parts[i].pos, Decoded(parts[i].arr))
  {
    seq(|parts|, i requires 0 <= i < |parts| => Item(parts[i].pos, Decoded(parts[i].arr)))
  }

  // ----- One batch -----

  ghost predicate Packs(b: Batch, parts: seq<Item>, scanNumber: int, rows: nat, columns: nat) {
    columns > 0 && b.header.headers == HeadersOf(parts, scanNumber, rows, columns) && b.data == DataOf(parts)
  }

  lemma PackedPrefix(b: Batch, parts: seq<Item>, scanNumber: int, rows: nat, columns: nat, k: nat)
    requires Packs(b, parts, scanNumber, rows, columns) && k <= |parts|
    ensures Offset(b.header.headers, k) == |DataOf(parts[..k])| && DataOf(parts[..k]) <= b.data
  {
    HeadersMeasureData(parts[..k], scanNumber, rows, columns);
    OffsetPrefix(HeadersOf(parts[..k], scanNumber, rows, columns), b.header.headers, k);
    DataConcat(parts[..k], parts[k..]);
    assert parts[..k] + parts[k..] == parts;
  }

  lemma PackedSlice(b: Batch, parts: seq<Item>, scanNumber: int, rows: nat, columns: nat, i: nat)
    requires Packs(b, parts, scanNumber, rows, columns) && i < |parts|
    ensures Holds(b, i + 1) && CommonItem(b, i) == DecodedItems(parts)[i]
  {
    PackedPrefix(b, parts, scanNumber, rows, columns, i);
    PackedPrefix(b, parts, scanNumber, rows, columns, i + 1);
    assert parts[..i + 1][..i] == parts[..i];
    assert DataOf(parts[..i + 1]) == DataOf(parts[..i]) + parts[i].arr.bytes;
    assert Slice(b, i) == parts[i].arr.bytes;
    FlatUnravel(parts[i].pos, columns);
  }

  lemma NextDecoded(parts: seq<Item>, k: nat, item: Item, items: seq<Item>)
    requires 0 < k <= |parts| && item == DecodedItems(parts)[k - 1]
    requires items == DecodedItems(parts[..k - 1]) + [item]
    ensures items == DecodedItems(parts[..k])
  {
  }

  // Unpacking a packed batch gives back its frames, in order, decoded.
  lemma {:induction false} UnpackPacked(b: Batch, parts: seq<Item>, scanNumber: int, rows: nat, columns: nat, k: nat)
    requires Packs(b, parts, scanNumber, rows, columns) && k <= |parts|
    ensures Holds(b, k) && CommonItems(b, k) == DecodedItems(parts[..k])
  {
    PackedPrefix(b, parts, scanNumber, rows, columns, k);
    if k > 0 {
      UnpackPacked(b, parts, scanNumber, rows, columns, k - 1);
      PackedSlice(b, parts, scanNumber, rows, columns, k - 1);
      CommonItemsNext(b, k);
      NextDecoded(parts, k, CommonItem(b, k - 1), CommonItems(b, k));
    }
  }

  lemma {:induction false} DecodedAt(parts: seq<Item>, p: nat)
    ensures At(DecodedItems(parts), p) == DecodedRow(At(parts, p))
  {
    if parts != [] {
      var front := parts[..|parts| - 1];
      assert DecodedItems(parts)[..|front|] == DecodedItems(front);
      DecodedAt(front, p);
    }
  }

  lemma {:induction false} RowPartsAt(q: nat, row: seq<Array>, p: nat)
    ensures At(RowParts(q, row), p) == if p == q then row else []
  {
    if row != [] {
      assert RowParts(q, row)[..|row| - 1] == RowParts(q, row[..|row| - 1]);
      RowPartsAt(q, row[..|row| - 1], p);
    }
  }

  lemma LastRowAt(frames: seq<seq<Array>>, lo: nat, hi: nat, p: nat)
    requires lo < hi <= |frames|
    ensures At(SpanParts(frames, lo, hi), p)
        == At(SpanParts(frames, lo, hi - 1), p) + At(RowParts(hi - 1, frames[hi - 1]), p)
  {
    AtConcat(SpanParts(frames, lo, hi - 1), RowParts(hi - 1, frames[hi - 1]), p);
  }

  // A batch carries a position's whole row or nothing of it.
  lemma {:induction false} SpanPartsAt(frames: seq<seq<Array>>, lo: nat, hi: nat, p: nat)
    requires lo <= hi <= |frames|
    ensures At(SpanParts(frames, lo, hi), p) == if lo <= p < hi then frames[p] else []
  {
    if lo < hi {
      SpanPartsAt(frames, lo, hi - 1, p);
      LastRowAt(frames, lo, hi, p);
      RowPartsAt(hi - 1, frames[hi - 1], p);
    } else {
      assert SpanParts(frames, lo, hi) == [];
    }
  }

  // ----- All batches, in any order -----

  // No two batches share a position.
  lemma {:induction false} SpansOrdered(spans: seq<Span>, lo: nat, n: nat, j: nat, k: nat)
    requires Partitions(spans, lo, n) && j < k < |spans|
    ensures spans[j].hi <= spans[k].lo
    decreases k - j
  {
    PartitionAt(spans, lo, n, j);
    if j + 1 < k {
      PartitionAt(spans, lo, n, j + 1);
      SpansOrdered(spans, lo, n, j + 1, k);
    }
  }

  lemma {:induction false} SpanHolding(spans: seq<Span>, lo: nat, n: nat, p: nat) returns (k: nat)
    requires Partitions(spans, lo, n) && lo <= p < n
    ensures k < |spans| && spans[k].lo <= p < spans[k].hi
    decreases |spans|
  {
    if p < spans[0].hi {
      k := 0;
    } else {
      k := SpanHolding(spans[1..], spans[0].hi, n, p);
      assert spans[1..][k] == spans[k + 1];
      k := k + 1;
    }
  }

  ghost predicate SpansInside(spans: seq<Span>, n: nat) {
    forall k :: 0 <= k < |spans| ==> spans[k].lo <= spans[k].hi <= n
  }

  // `order` lists batch numbers, and every batch stays inside the scan.
  ghost predicate Named(order: seq<nat>, spans: seq<Span>, n: nat) {
    SpansInside(spans, n) && forall i :: 0 <= i < |order| ==> order[i] < |spans|
  }

  // Everything the given batches carry, one batch after the other.
  ghost function Delivered(frames: seq<seq<Array>>, spans: seq<Span>, order: seq<nat>): seq<Item>
    requires Named(order, spans, |frames|)
  {
    if order == [] then [] else
    var front, k := order[..|order| - 1], order[|order| - 1];
    Delivered(frames, spans, front) + DecodedItems(SpanParts(frames, spans[k].lo, spans[k].hi))
  }

  ghost predicate Covers(spans: seq<Span>, order: seq<nat>, p: nat) {
    exists k :: k in order && k < |spans| && spans[k].lo <= p < spans[k].hi
  }

  lemma CoversNext(spans: seq<Span>, front: seq<nat>, k: nat, p: nat)
    requires k < |spans|
    ensures Covers(spans, front + [k], p) <==> Covers(spans, front, p) || spans[k].lo <= p < spans[k].hi
  {
    assert k in front + [k];
    if Covers(spans, front, p) {
      var j :| j in front && j < |spans| && spans[j].lo <= p < spans[j].hi;
      assert j in front + [k];
    }
  }

  // No other batch covers what this one does.
  lemma CoveredOnce(spans: seq<Span>, n: nat, front: seq<nat>, k: nat, p: nat)
    requires Partitions(spans, 0, n) && k < |spans| && k !in front && spans[k].lo <= p < spans[k].hi
    ensures !Covers(spans, front, p)
  {
    forall j | j in front && j < |spans| ensures !(spans[j].lo <= p < spans[j].hi) {
      if j < k {
        SpansOrdered(spans, 0, n, j, k);
      } else {
        SpansOrdered(spans, 0, n, k, j);
      }
    }
  }

  // In whatever order batches arrive, a position holds its whole row once its batch is in, and nothing before.
  lemma {:induction false} DeliveredAt(frames: seq<seq<Array>>, spans: seq<Span>, order: seq<nat>, p: nat)
    requires Partitions(spans, 0, |frames|) && p < |frames| && NoDup(order)
    requires Named(order, spans, |frames|)
    ensures At(Delivered(frames, spans, order), p) == if Covers(spans, order, p) then DecodedRow(frames[p]) else []
  {
    if order != [] {
      var front, k := order[..|order| - 1], order[|order| - 1];
      assert order == front + [k];
      DeliveredAt(frames, spans, front, p);
      BatchAt(frames, spans, front, k, p);
      CoversNext(spans, front, k, p);
      if spans[k].lo <= p < spans[k].hi {
        CoveredOnce(spans, |frames|, front, k, p);
      }
    }
  }

  lemma BatchAt(frames: seq<seq<Array>>, spans: seq<Span>, front: seq<nat>, k: nat, p: nat)
    requires Named(front + [k], spans, |frames|) && Named(front, spans, |frames|) && p < |frames| && k < |spans|
    ensures At(Delivered(frames, spans, front + [k]), p)
         == At(Delivered(frames, spans, front), p)
            + if spans[k].lo <= p < spans[k].hi then DecodedRow(frames[p]) else []
  {
    assert (front + [k])[..|front|] == front;
    var parts := SpanParts(frames, spans[k].lo, spans[k].hi);
    AtConcat(Delivered(frames, spans, front), DecodedItems(parts), p);
    DecodedAt(parts, p);
    SpanPartsAt(frames, spans[k].lo, spans[k].hi, p);
  }

  // The batch numbers 0 to n-1 in some order.
  ghost predicate IsPermutation(order: seq<nat>, n: nat) {
    NoDup(order) && forall k: nat :: k in order <==> k < n
  }

  // All batches, each once, in any order: the decoded scan, whole.
  lemma AllDelivered(frames: seq<seq<Array>>, sizes: seq<nat>, limit: nat, order: seq<nat>)
    requires |sizes| == |frames| && IsPermutation(order, |Cuts(sizes, limit, 0)|)
    ensures Named(order, Cuts(sizes, limit, 0), |frames|)
    ensures Put(EmptySlots(|frames|), Delivered(frames, Cuts(sizes, limit, 0), order)) == DecodedScan(frames)
  {
    var spans := Cuts(sizes, limit, 0);
    CutsInside(sizes, limit);
    CutsPartition(sizes, limit, 0);
    forall i | 0 <= i < |order| ensures order[i] < |spans| {
      assert order[i] in order;
    }
    forall p | 0 <= p < |frames|
      ensures Put(EmptySlots(|frames|), Delivered(frames, spans, order))[p] == DecodedScan(frames)[p]
    {
      DeliveredAt(frames, spans, order, p);
      var k := SpanHolding(spans, 0, |frames|, p);
      assert k in order;
      assert Covers(spans, order, p);
    }
  }

  lemma CutsInside(sizes: seq<nat>, limit: nat)
    ensures SpansInside(Cuts(sizes, limit, 0), |sizes|)
  {
    CutsPartition(sizes, limit, 0);
    forall k | 0 <= k < |Cuts(sizes, limit, 0)|
      ensures Cuts(sizes, limit, 0)[k].lo <= Cuts(sizes, limit, 0)[k].hi <= |sizes|
    {
      PartitionAt(Cuts(sizes, limit, 0), 0, |sizes|, k);
    }
  }

  function DecodedScan(frames: seq<seq<Array>>): (r: Slots)
    ensures |r| == |frames| && forall p :: 0 <= p < |frames| ==> r[p] == DecodedRow(frames[p])
  {
    seq(|frames|, p requires 0 <= p < |frames| => DecodedRow(frames[p]))
  }

  lemma {:induction false} TotalOfRows(slots: Slots, width: nat)
    requires forall p :: 0 <= p < |slots| ==> |slots[p]| == width
    ensures Total(slots) == |slots| * width
  {
    if slots != [] {
      TotalOfRows(slots[..|slots| - 1], width);
      assert |slots| * width == (|slots| - 1) * width + width;
    }
  }

  // Transport is the identity exactly on scans of 32-bit unsigned integers.
  lemma ScanPreservedIff(frames: seq<seq<Array>>)
    requires forall p, j :: 0 <= p < |frames| && 0 <= j < |frames[p]| ==> frames[p][j].Valid()
    ensures DecodedScan(frames) == frames
       <==> forall p, j :: 0 <= p < |frames| && 0 <= j < |frames[p]| ==> frames[p][j].dtype == UInt32
  {
    forall p, j | 0 <= p < |frames| && 0 <= j < |frames[p]|
      ensures DecodedScan(frames)[p][j] == frames[p][j] <==> frames[p][j].dtype == UInt32
    {
      DecodedIff(frames[p][j]);
    }
    if forall p, j :: 0 <= p < |frames| && 0 <= j < |frames[p]| ==> frames[p][j].dtype == UInt32 {
      forall p | 0 <= p < |frames| ensures DecodedScan(frames)[p] == frames[p] {
      }
    }
  }

  // Of one frame of four 8-bit integers comes one 32-bit integer; of one 8-bit integer, nothing.
  lemma SmallIntegersAreLost()
    ensures var frames: seq<seq<Array>> := [[Array(UInt8, [1, 2, 3, 4])], [Array(UInt8, [5])]];
            DecodedScan(frames) == [[Array(UInt32, [1, 2, 3, 4])], [Array(UInt32, [])]] != frames
  {
    var frames: seq<seq<Array>> := [[Array(UInt8, [1, 2, 3, 4])], [Array(UInt8, [5])]];
    assert frames[0][0].bytes[..4] == [1, 2, 3, 4];
    assert DecodedRow(frames[0]) == [Array(UInt32, [1, 2, 3, 4])] && DecodedRow(frames[1]) == [Array(UInt32, [])];
  }

  // ----- Completion by batch count -----

  // Whether as many batches are in as were announced.
  predicate CompletelyFinished(added: nat, expected: Option<nat>) {
    added != 0 && expected.Some? && expected.value != 0 && added / expected.value == 1
  }

  lemma CompletionWindow(added: nat, expected: nat)
    ensures CompletelyFinished(added, Some(expected)) <==> 0 < expected <= added < 2 * expected
  {
  }

  // With each batch delivered once, completion is reported at the last batch and at no earlier one exactly when the
  // sizes have no hollow end.
  lemma CompletesAtLastBatchIff(sizes: seq<nat>, limit: nat)
    requires sizes != []
    ensures var n := |Cuts(sizes, limit, 0)|;
            (forall m :: 0 <= m <= n ==> (CompletelyFinished(m, Some(Announced(sizes, limit))) <==> m == n))
            <==> !HollowEnd(sizes, limit)
  {
    AnnouncedIff(sizes, limit);
    var n, t := |Cuts(sizes, limit, 0)|, Announced(sizes, limit);
    forall m | 0 <= m <= n ensures CompletelyFinished(m, Some(t)) <==> 0 < t <= m < 2 * t {
      CompletionWindow(m, t);
    }
    if t == n - 1 {
      assert CompletelyFinished(n - 1, Some(t)) <==> t > 0;
      assert t == 0 ==> !CompletelyFinished(n, Some(t));
    }
  }

  // What the test says when m of the n batches are in: at the announced count, and at the last batch unless that is
  // twice the announced count.
  predicate CompletionShows(sizes: seq<nat>, limit: nat, m: nat, done: bool) {
    var n := |Cuts(sizes, limit, 0)|;
    done <==> if HollowEnd(sizes, limit) then n > 1 && (m == n - 1 || (m == n && n > 2)) else m == n
  }

  lemma CompletionAfter(sizes: seq<nat>, limit: nat, m: nat, expected: Option<nat>)
    requires sizes != [] && m <= |Cuts(sizes, limit, 0)|
    requires expected == if m == 0 then None else Some(Announced(sizes, limit))
    ensures CompletionShows(sizes, limit, m, CompletelyFinished(m, expected))
  {
    AnnouncedIff(sizes, limit);
    if m > 0 {
      CompletionWindow(m, Announced(sizes, limit));
    }
  }

  // ----- The whole journey -----

  ghost predicate IsMessage(b: Batch, e: BatchEmitter, k: nat) {
    && IsScan(e.frames, e.rows, e.columns, e.framesPerPosition) && e.positionBytes == Sizes(e.frames)
    && k < |e.Spans()| && b == e.Message(k) && ValidHeader(b.header)
  }

  // The first of the emitter's messages, in order.
  ghost predicate AreMessages(messages: seq<Batch>, e: BatchEmitter) {
    forall k :: 0 <= k < |messages| ==> IsMessage(messages[k], e, k)
  }

  // Asks the emitter for one more message.
  method CollectNext(e: BatchEmitter) returns (next: Result<Batch, Exhausted>)
    requires e.Valid()
    modifies e
    ensures e.Valid()
    ensures next.Success? ==>
              e.messagesEmitted == old(e.messagesEmitted) + 1 && IsMessage(next.value, e, old(e.messagesEmitted))
    ensures next.Failure? ==>
              e.messagesEmitted == old(e.messagesEmitted) == |e.Spans()| && e.framesEmitted == e.totalFramesExpected
  {
    next := e.GetNextBatchMessage();
  }

  // Calls the emitter until it is exhausted.
  method CollectMessages(e: BatchEmitter) returns (messages: seq<Batch>)
    requires e.Valid() && e.messagesEmitted == 0
    modifies e
    ensures |messages| == |e.Spans()| && AreMessages(messages, e)
    ensures e.framesEmitted == e.totalFramesExpected
  {
    messages := [];
    while true
      invariant e.Valid() && |messages| == e.messagesEmitted && AreMessages(messages, e)
      decreases |e.Spans()| - |messages|
    {
      var next := CollectNext(e);
      if next.Failure? {
        return;
      }
      messages := messages + [next.value];
    }
  }

  // A message unpacks to the decoded frames of its positions, all inside the scan.
  lemma MessageUnpacks(e: BatchEmitter, b: Batch, k: nat)
    requires IsMessage(b, e, k)
    ensures SpansInside(e.Spans(), |e.frames|) && Measured(b) && InRange(b, |e.frames|)
    ensures CommonItems(b, |b.header.headers|) == DecodedItems(SpanParts(e.frames, e.Spans()[k].lo, e.Spans()[k].hi))
  {
    var s := e.Spans()[k];
    CutsInside(e.positionBytes, e.limit);
    CutsPartition(e.positionBytes, e.limit, 0);
    PartitionAt(e.Spans(), 0, |e.frames|, k);
    PartsInside(e.frames, e.rows, e.columns, e.framesPerPosition, s.lo, s.hi);
    var parts := SpanParts(e.frames, s.lo, s.hi);
    assert Packs(b, parts, e.scanNumber, e.rows, e.columns);
    UnpackPacked(b, parts, e.scanNumber, e.rows, e.columns, |parts|);
    assert parts[..|parts|] == parts;
    HeadersMeasureData(parts, e.scanNumber, e.rows, e.columns);
    forall i | 0 <= i < |parts| ensures b.header.headers[i].Flat() < |e.frames| {
      FlatUnravel(parts[i].pos, e.columns);
      PartsPositions(e.frames, s.lo, s.hi, i);
    }
  }

  lemma {:induction false} PartsPositions(frames: seq<seq<Array>>, lo: nat, hi: nat, i: nat)
    requires lo <= hi <= |frames| && i < |SpanParts(frames, lo, hi)|
    ensures lo <= SpanParts(frames, lo, hi)[i].pos < hi
  {
    if i < |SpanParts(frames, lo, hi - 1)| {
      PartsPositions(frames, lo, hi - 1, i);
    }
  }

  // The accumulator after the first messages of `order`.
  ghost predicate Received(slots: Slots, frames: seq<seq<Array>>, spans: seq<Span>, order: seq<nat>) {
    Named(order, spans, |frames|) && slots == Put(EmptySlots(|frames|), Delivered(frames, spans, order))
  }

  lemma ReceivedNext(before: Slots, after: Slots, frames: seq<seq<Array>>, spans: seq<Span>, order: seq<nat>, k: nat)
    requires Received(before, frames, spans, order) && k < |spans|
    requires after == Put(before, DecodedItems(SpanParts(frames, spans[k].lo, spans[k].hi)))
    ensures Received(after, frames, spans, order + [k])
  {
    assert (order + [k])[..|order|] == order;
    PutConcat(EmptySlots(|frames|), Delivered(frames, spans, order),
              DecodedItems(SpanParts(frames, spans[k].lo, spans[k].hi)));
  }

  lemma WidthChain(width: nat, before: Slots, after: Slots, items: seq<Item>, grown: nat)
    requires after == Put(before, items) && grown == Max(Max(width, Widest(before)), Widest(after))
    ensures grown == Max(width, Widest(after))
  {
    WidestGrows(before, items);
  }

  method DeliverNext(acc: FrameAccumulator, e: BatchEmitter, b: Batch, ghost order: seq<nat>, k: nat)
    requires acc.Valid() && acc.positions == |e.frames| && IsMessage(b, e, k)
    requires Received(acc.slots, e.frames, e.Spans(), order) && acc.data.Length1 == Max(1, Widest(acc.slots))
    modifies acc, acc.data
    ensures acc.Valid() && (acc.data == old(acc.data) || fresh(acc.data))
    ensures Received(acc.slots, e.frames, e.Spans(), order + [k]) && acc.data.Length1 == Max(1, Widest(acc.slots))
    ensures acc.numBatchesAdded == old(acc.numBatchesAdded) + 1
    ensures acc.totalFramesExpected == Some(e.totalFramesExpected) && acc.totalBatchesExpected == Some(e.totalBatches)
  {
    MessageUnpacks(e, b, k);
    ghost var before := acc.slots;
    var added := acc.AddMessage(b);
    ReceivedNext(before, acc.slots, e.frames, e.Spans(), order, k);
    WidthChain(1, before, acc.slots, CommonItems(b, |b.header.headers|), acc.data.Length1);
  }

  method DeliverAll(acc: FrameAccumulator, e: BatchEmitter, messages: seq<Batch>, order: seq<nat>)
    requires acc.Valid() && acc.positions == |e.frames| && acc.slots == EmptySlots(|e.frames|)
    requires acc.data.Length1 == 1 && acc.numBatchesAdded == 0
    requires |messages| == |e.Spans()| && AreMessages(messages, e)
    requires SpansInside(e.Spans(), |e.frames|) && forall i :: 0 <= i < |order| ==> order[i] < |messages|
    modifies acc, acc.data
    ensures acc.Valid() && Received(acc.slots, e.frames, e.Spans(), order)
    ensures acc.data.Length1 == Max(1, Widest(acc.slots))
    ensures acc.numBatchesAdded == |order|
    ensures order != [] ==> acc.totalFramesExpected == Some(e.totalFramesExpected)
    ensures order == [] ==> acc.totalFramesExpected == old(acc.totalFramesExpected)
    ensures acc.totalBatchesExpected == if order == [] then old(acc.totalBatchesExpected) else Some(e.totalBatches)
  {
    StartEmpty(e.frames, e.Spans());
    for i := 0 to |order|
      invariant acc.Valid() && (acc.data == old(acc.data) || fresh(acc.data))
      invariant Received(acc.slots, e.frames, e.Spans(), order[..i]) && acc.data.Length1 == Max(1, Widest(acc.slots))
      invariant acc.numBatchesAdded == i
      invariant acc.totalFramesExpected == if i == 0 then old(acc.totalFramesExpected) else Some(e.totalFramesExpected)
      invariant acc.totalBatchesExpected == if i == 0 then old(acc.totalBatchesExpected) else Some(e.totalBatches)
    {
      assert order[..i + 1] == order[..i] + [order[i]];
      DeliverNext(acc, e, messages[order[i]], order[..i], order[i]);
    }
    assert order[..|order|] == order;
  }

  ghost function Below(n: nat): (s: set<nat>)
    ensures |s| == n && forall k: nat :: k in s <==> k < n
  {
    if n == 0 then {} else Below(n - 1) + {n - 1}
  }

  lemma PermutationSize(order: seq<nat>, n: nat)
    requires IsPermutation(order, n)
    ensures |order| == n && forall i :: 0 <= i < |order| ==> order[i] < n
  {
    NoDupCardinality(order);
    assert Elements(order) == Below(n);
    assert forall i :: 0 <= i < |order| ==> order[i] in order;
  }

  // How many scan positions the batches cover, each batch on its own.
  ghost function PositionsIn(spans: seq<Span>, order: seq<nat>, n: nat): nat
    requires Named(order, spans, n)
  {
    if order == [] then 0 else
    var last := spans[order[|order| - 1]];
    PositionsIn(spans, order[..|order| - 1], n) + (last.hi - last.lo)
  }

  lemma {:induction false} TotalPut(slots: Slots, items: seq<Item>)
    requires forall i :: 0 <= i < |items| ==> items[i].pos < |slots|
    ensures Total(Put(slots, items)) == Total(slots) + |items|
  {
    if items == [] {
      PutNothing(slots);
    } else {
      var front, last := items[..|items| - 1], items[|items| - 1];
      assert items == front + [last];
      TotalPut(slots, front);
      PutConcat(slots, front, [last]);
      PutOne(Put(slots, front), last);
      TotalSet(Put(slots, front), last.pos, Put(slots, front)[last.pos] + [last.arr]);
    }
  }

  lemma ReceivedTotal(slots: Slots, frames: seq<seq<Array>>, rows: nat, columns: nat, perPosition: nat,
                      spans: seq<Span>, order: seq<nat>)
    requires IsScan(frames, rows, columns, perPosition) && Received(slots, frames, spans, order)
    ensures Total(slots) == PositionsIn(spans, order, |frames|) * perPosition
  {
    DeliveredCount(frames, rows, columns, perPosition, spans, order);
    TotalPut(EmptySlots(|frames|), Delivered(frames, spans, order));
    TotalEmpty(|frames|);
  }

  lemma {:induction false} DeliveredCount(frames: seq<seq<Array>>, rows: nat, columns: nat, perPosition: nat,
                                          spans: seq<Span>, order: seq<nat>)
    requires IsScan(frames, rows, columns, perPosition) && Named(order, spans, |frames|)
    ensures |Delivered(frames, spans, order)| == PositionsIn(spans, order, |frames|) * perPosition
    ensures ForFirst(Delivered(frames, spans, order), |frames|)
  {
    if order != [] {
      var front, s := order[..|order| - 1], spans[order[|order| - 1]];
      DeliveredCount(frames, rows, columns, perPosition, spans, front);
      SpanPartCount(frames, rows, columns, perPosition, s.lo, s.hi);
      SumTimes(PositionsIn(spans, front, |frames|), s.hi - s.lo, perPosition);
      PartsForFirst(frames, s.lo, s.hi);
      ForFirstBoth(Delivered(frames, spans, front), DecodedItems(SpanParts(frames, s.lo, s.hi)), |frames|);
    }
  }

  // Every item is for one of the first n positions.
  ghost predicate ForFirst(items: seq<Item>, n: nat) {
    forall i :: 0 <= i < |items| ==> items[i].pos < n
  }

  lemma ForFirstBoth(a: seq<Item>, b: seq<Item>, n: nat)
    requires ForFirst(a, n) && ForFirst(b, n)
    ensures ForFirst(a + b, n)
  {
  }

  lemma PartsForFirst(frames: seq<seq<Array>>, lo: nat, hi: nat)
    requires lo <= hi <= |frames|
    ensures ForFirst(DecodedItems(SpanParts(frames, lo, hi)), |frames|)
  {
    forall i | 0 <= i < |SpanParts(frames, lo, hi)| ensures SpanParts(frames, lo, hi)[i].pos < |frames| {
      PartsPositions(frames, lo, hi, i);
    }
  }

  lemma SumTimes(a: nat, b: nat, c: nat)
    ensures (a + b) * c == a * c + b * c
  {
  }

  // Of n times as many frames as positions, 99 percent are in when 99 percent of the positions are.
  lemma ShareOfPositions(covered: nat, all: nat, n: nat)
    requires n >= 1
    ensures 100 * (covered * n) >= 99 * (all * n) <==> 100 * covered >= 99 * all
  {
    assert 100 * (covered * n) == (100 * covered) * n && 99 * (all * n) == (99 * all) * n;
    if 100 * covered >= 99 * all {
      AtLeastTimes(100 * covered, 99 * all, n);
    } else {
      AtLeastTimes(99 * all, 100 * covered + 1, n);
      SumTimes(100 * covered, 1, n);
    }
  }

  lemma AtLeastTimes(a: nat, b: nat, c: nat)
    requires a >= b
    ensures a * c >= b * c
  {
  }

  // Emits a scan and feeds the first m of its batches, in the given order, to a fresh accumulator. The frames of those
  // batches are in their positions, and completion shows as the sizes and the limit say.
  method StreamPart(frames: seq<seq<Array>>, scanNumber: int, rows: nat, columns: nat, perPosition: nat, limit: nat,
                    order: seq<nat>, m: nat)
    returns (acc: FrameAccumulator)
    requires IsScan(frames, rows, columns, perPosition) && (frames == [] ==> perPosition == 1)
    requires IsPermutation(order, |Cuts(Sizes(frames), limit, 0)|) && m <= |order|
    ensures acc.Valid() && Received(acc.slots, frames, Cuts(Sizes(frames), limit, 0), order[..m])
    ensures acc.data.Length0 == |frames| && acc.data.Length1 == Max(1, Widest(acc.slots))
    ensures acc.numBatchesAdded == m
    ensures m > 0 ==> acc.totalFramesExpected == Some(|frames| * perPosition)
    ensures frames != [] ==> CompletionShows(Sizes(frames), limit, m,
                                             CompletelyFinished(acc.numBatchesAdded, acc.totalBatchesExpected))
    ensures var covered := PositionsIn(Cuts(Sizes(frames), limit, 0), order[..m], |frames|);
            && acc.numFramesAdded == covered * perPosition
            && (acc.Finished() <==> m > 0 && 100 * covered >= 99 * |frames|)
  {
    var e := new BatchEmitter(frames, scanNumber, rows, columns, limit);
    var messages := CollectMessages(e);
    acc := new FrameAccumulator(scanNumber, rows, columns, UInt32);
    CutsInside(e.positionBytes, limit);
    PermutationSize(order, |messages|);
    DeliverAll(acc, e, messages, order[..m]);
    ReceivedTotal(acc.slots, frames, rows, columns, perPosition, Cuts(Sizes(frames), limit, 0), order[..m]);
    ShareOfPositions(PositionsIn(Cuts(Sizes(frames), limit, 0), order[..m], |frames|), |frames|, perPosition);
    if frames != [] {
      CompletionAfter(Sizes(frames), limit, m, acc.totalBatchesExpected);
    }
  }

  // Every frame is where it belongs, as 32-bit unsigned integers, cut after its last whole one.
  ghost predicate WholeWords(data: array2<Array>, frames: seq<seq<Array>>)
    reads data
  {
    && data.Length0 == |frames|
    && forall p, j :: 0 <= p < data.Length0 && 0 <= j < data.Length1 ==>
         && j < |frames[p]|
         && data[p, j] == Array(UInt32, frames[p][j].bytes[..|frames[p][j].bytes| / 4 * 4])
  }

  lemma ShowsWords(data: array2<Array>, frames: seq<seq<Array>>, empty: Array, perPosition: nat)
    requires Shows(data, DecodedScan(frames), empty) && (frames != [] ==> data.Length1 == perPosition)
    requires forall p :: 0 <= p < |frames| ==> |frames[p]| == perPosition
    ensures WholeWords(data, frames)
  {
  }

  // Emits a scan and feeds its batches, in the given order, to a fresh accumulator: the scan is rebuilt, decoded,
  // the frame count is the announced total, and the accumulator says it is finished.
  method StreamScan(frames: seq<seq<Array>>, scanNumber: int, rows: nat, columns: nat, perPosition: nat, limit: nat,
                    order: seq<nat>)
    returns (acc: FrameAccumulator)
    requires IsScan(frames, rows, columns, perPosition) && (frames == [] ==> perPosition == 1)
    requires IsPermutation(order, |Cuts(Sizes(frames), limit, 0)|)
    ensures acc.Valid() && acc.slots == DecodedScan(frames)
    ensures frames != [] ==> acc.data.Length1 == perPosition
    ensures WholeWords(acc.data, frames)
    ensures acc.numFramesAdded == |frames| * perPosition
    ensures acc.numBatchesAdded == |order|
    ensures frames != [] ==> acc.totalFramesExpected == Some(acc.numFramesAdded) && acc.Finished()
    ensures frames != [] ==> CompletionShows(Sizes(frames), limit, |order|,
                                             CompletelyFinished(acc.numBatchesAdded, acc.totalBatchesExpected))
  {
    acc := StreamPart(frames, scanNumber, rows, columns, perPosition, limit, order, |order|);
    assert order[..|order|] == order;
    ScanRebuilt(frames, Sizes(frames), limit, order, acc.slots, perPosition);
    ShowsWords(acc.data, frames, acc.empty, perPosition);
  }

  lemma ScanRebuilt(frames: seq<seq<Array>>, sizes: seq<nat>, limit: nat, order: seq<nat>, slots: Slots,
                    perPosition: nat)
    requires |sizes| == |frames| && IsPermutation(order, |Cuts(sizes, limit, 0)|)
    requires perPosition >= 1 && forall p :: 0 <= p < |frames| ==> |frames[p]| == perPosition
    requires Received(slots, frames, Cuts(sizes, limit, 0), order)
    ensures slots == DecodedScan(frames) && Total(slots) == |frames| * perPosition
    ensures frames != [] ==> order != [] && Max(1, Widest(slots)) == perPosition
  {
    AllDelivered(frames, sizes, limit, order);
    TotalOfRows(slots, perPosition);
    WidestIsMax(slots);
    if frames != [] {
      assert |slots[0]| == perPosition;
      CutsPartition(sizes, limit, 0);
      assert 0 in order;
    }
  }

  lemma StartEmpty(frames: seq<seq<Array>>, spans: seq<Span>)
    requires SpansInside(spans, |frames|)
    ensures Received(EmptySlots(|frames|), frames, spans, [])
    ensures Max(1, Widest(EmptySlots(|frames|))) == 1
  {
    PutNothing(EmptySlots(|frames|));
    WidestIsMax(EmptySlots(|frames|));
  }
}
