/** The frame accumulator: a growing two-dimensional array of slots, filled frame by frame or batch by batch. */
module Accumulator {
  import opened Common
  import opened Frames

  type Slots = seq<seq<Array>>

  function Max(a: nat, b: nat): nat {
    if a < b then b else a
  }

  // The arrays sent to one position, in order.
  function At(items: seq<Item>, p: nat): seq<Array> {
    if items == [] then [] else
    var init, last := At(items[..|items| - 1], p), items[|items| - 1];
    if last.pos == p then init + [last.arr] else init
  }

  // Every position receives its own items behind what it already holds.
  function Put(slots: Slots, items: seq<Item>): (r: Slots)
    ensures |r| == |slots| && forall p :: 0 <= p < |slots| ==> r[p] == slots[p] + At(items, p)
  {
    seq(|slots|, p requires 0 <= p < |slots| => slots[p] + At(items, p))
  }

  lemma {:induction false} AtConcat(a: seq<Item>, b: seq<Item>, p: nat)
    ensures At(a + b, p) == At(a, p) + At(b, p)
  {
    if b == [] {
      assert a + b == a;
    } else {
      assert (a + b)[..|a + b| - 1] == a + b[..|b| - 1];
      AtConcat(a, b[..|b| - 1], p);
    }
  }

  lemma PutConcat(slots: Slots, a: seq<Item>, b: seq<Item>)
    ensures Put(Put(slots, a), b) == Put(slots, a + b)
  {
    forall p | 0 <= p < |slots| ensures Put(Put(slots, a), b)[p] == Put(slots, a + b)[p] {
      AtConcat(a, b, p);
    }
  }

  function Total(slots: Slots): nat {
    if slots == [] then 0 else Total(slots[..|slots| - 1]) + |slots[|slots| - 1]|
  }

  function Widest(slots: Slots): nat {
    if slots == [] then 0 else Max(Widest(slots[..|slots| - 1]), |slots[|slots| - 1]|)
  }

  lemma {:induction false} TotalSet(slots: Slots, p: nat, row: seq<Array>)
    requires p < |slots|
    ensures Total(slots[p := row]) == Total(slots) - |slots[p]| + |row|
  {
    var front := slots[..|slots| - 1];
    if p == |front| {
      assert slots[p := row][..|front|] == front;
    } else {
      assert slots[p := row][..|front|] == front[p := row];
      TotalSet(front, p, row);
    }
  }

  lemma {:induction false} WidestIsMax(slots: Slots)
    ensures forall p :: 0 <= p < |slots| ==> |slots[p]| <= Widest(slots)
    ensures Widest(slots) > 0 ==> exists p :: 0 <= p < |slots| && |slots[p]| == Widest(slots)
  {
    if slots != [] {
      var front := slots[..|slots| - 1];
      WidestIsMax(front);
      if Widest(slots) > 0 && Widest(slots) == Widest(front) {
        var p :| 0 <= p < |front| && |front[p]| == Widest(front);
        assert |slots[p]| == Widest(slots);
      }
    }
  }

  // A width that covers every row, and is either the old one or reached by some row, is the larger of the two.
  lemma WidthSettled(width: nat, slots: Slots, grown: nat)
    requires width <= grown
    requires forall p :: 0 <= p < |slots| ==> |slots[p]| <= grown
    requires grown == width || exists p :: 0 <= p < |slots| && |slots[p]| == grown
    ensures grown == Max(width, Widest(slots))
  {
    WidestIsMax(slots);
  }

  lemma PutOne(slots: Slots, item: Item)
    requires item.pos < |slots|
    ensures Put(slots, [item]) == slots[item.pos := slots[item.pos] + [item.arr]]
  {
    forall p | 0 <= p < |slots| ensures Put(slots, [item])[p] == slots[item.pos := slots[item.pos] + [item.arr]][p] {
      assert At([item], p) == if p == item.pos then [item.arr] else [];
    }
  }

  // Making room for one more array at its position is all the widening there is.
  lemma WidthAfterOne(width: nat, slots: Slots, item: Item)
    requires item.pos < |slots| && Fits(slots, width)
    ensures Max(width, |slots[item.pos]| + 1) == Max(width, Widest(Put(slots, [item])))
  {
    PutOne(slots, item);
    var after := Put(slots, [item]);
    assert |after[item.pos]| == |slots[item.pos]| + 1;
    WidthSettled(width, after, Max(width, |slots[item.pos]| + 1));
  }

  // Where a position occurs.
  function IndicesOf(positions: seq<nat>, p: nat): (ks: seq<nat>)
    ensures forall j :: 0 <= j < |ks| ==> ks[j] < |positions| && positions[ks[j]] == p
  {
    if positions == [] then [] else
    var front := positions[..|positions| - 1];
    if positions[|front|] == p then IndicesOf(front, p) + [|front|] else IndicesOf(front, p)
  }

  lemma {:induction false} AtByIndices(items: seq<Item>, positions: seq<nat>, p: nat)
    requires |positions| == |items| && forall i :: 0 <= i < |items| ==> positions[i] == items[i].pos
    ensures var ks := IndicesOf(positions, p);
            |At(items, p)| == |ks| && forall j :: 0 <= j < |ks| ==> At(items, p)[j] == items[ks[j]].arr
  {
    if items != [] {
      AtByIndices(items[..|items| - 1], positions[..|positions| - 1], p);
    }
  }

  // `keys` lists each position once, in order of first appearance, and `groups` says where each occurs.
  ghost predicate Grouped(positions: seq<nat>, keys: seq<nat>, groups: map<nat, seq<nat>>) {
    && NoDup(keys) && Elements(keys) == groups.Keys == Elements(positions)
    && ByAppearance(positions, keys)
    && forall p {:trigger GroupIs(positions, groups, p)} :: GroupIs(positions, groups, p)
  }

  ghost predicate ByAppearance(positions: seq<nat>, keys: seq<nat>) {
    forall k: nat :: k < |keys| ==> AppearsNext(positions, keys, k)
  }

  ghost predicate AppearsNext(positions: seq<nat>, keys: seq<nat>, k: nat)
    requires k < |keys|
  {
    exists i: nat :: Appears(positions, keys, k, i)
  }

  // The k-th key first occurs at place i, where all others before it have occurred.
  ghost predicate Appears(positions: seq<nat>, keys: seq<nat>, k: nat, i: nat)
    requires k < |keys|
  {
    i < |positions| && positions[i] == keys[k] && forall j :: 0 <= j < i ==> positions[j] in keys[..k]
  }

  lemma NextAppears(positions: seq<nat>, i: nat, keys: seq<nat>)
    requires i < |positions| && ByAppearance(positions[..i], keys) && Elements(keys) == Elements(positions[..i])
    ensures ByAppearance(positions[..i + 1], keys) && ByAppearance(positions[..i + 1], keys + [positions[i]])
  {
    var next, more := positions[..i + 1], keys + [positions[i]];
    forall k: nat | k < |keys| ensures AppearsNext(next, keys, k) && AppearsNext(next, more, k) {
      assert AppearsNext(positions[..i], keys, k);
      var a: nat :| Appears(positions[..i], keys, k, a);
      assert more[..k] == keys[..k];
      assert Appears(next, keys, k, a) && Appears(next, more, k, a);
    }
    assert more[..|keys|] == keys;
    forall j | 0 <= j < i ensures positions[j] in keys {
      assert positions[..i][j] in Elements(positions[..i]);
    }
    assert Appears(next, more, |keys|, i);
  }

  ghost predicate GroupIs(positions: seq<nat>, groups: map<nat, seq<nat>>, p: nat) {
    if p in groups then groups[p] == IndicesOf(positions, p) != [] else IndicesOf(positions, p) == []
  }

  lemma IndicesNext(positions: seq<nat>, i: nat, p: nat)
    requires i < |positions|
    ensures IndicesOf(positions[..i + 1], p) == IndicesOf(positions[..i], p) + if p == positions[i] then [i] else []
  {
    assert positions[..i + 1][..i] == positions[..i];
  }

  // One position more: its group gets the next index, and is a new one if need be.
  lemma GroupedNext(positions: seq<nat>, i: nat, keys: seq<nat>, groups: map<nat, seq<nat>>, group: seq<nat>)
    requires i < |positions| && Grouped(positions[..i], keys, groups)
    requires group == if positions[i] in groups then groups[positions[i]] else []
    ensures Grouped(positions[..i + 1], if positions[i] in groups then keys else keys + [positions[i]],
                         groups[positions[i] := group + [i]])
  {
    var done, next, pos := positions[..i], positions[..i + 1], positions[i];
    assert next == done + [pos];
    assert Elements(next) == Elements(done) + {pos};
    var after := groups[pos := group + [i]];
    forall p ensures GroupIs(next, after, p) {
      assert GroupIs(done, groups, p);
      IndicesNext(positions, i, p);
    }
    NextAppears(positions, i, keys);
    if pos !in groups {
      NewKey(keys, pos);
    }
  }

  lemma NewKey(keys: seq<nat>, pos: nat)
    requires NoDup(keys) && pos !in Elements(keys)
    ensures NoDup(keys + [pos]) && Elements(keys + [pos]) == Elements(keys) + {pos}
  {
  }

  // Groups the frames of a batch by position; `keys` lists the positions in order of first appearance.
  method GroupByPosition(positions: seq<nat>) returns (keys: seq<nat>, groups: map<nat, seq<nat>>)
    ensures Grouped(positions, keys, groups)
    ensures positions != [] ==> keys != []
  {
    keys, groups := [], map[];
    for i: nat := 0 to |positions|
      invariant Grouped(positions[..i], keys, groups)
    {
      keys, groups := AddToGroup(positions, i, keys, groups);
    }
    assert positions[..|positions|] == positions;
    GroupsSome(positions, keys, groups);
  }

  // Files the i-th frame under its position, which joins the list of positions when it is new.
  method AddToGroup(positions: seq<nat>, i: nat, keys: seq<nat>, groups: map<nat, seq<nat>>)
    returns (keys': seq<nat>, groups': map<nat, seq<nat>>)
    requires i < |positions| && Grouped(positions[..i], keys, groups)
    ensures Grouped(positions[..i + 1], keys', groups')
  {
    var pos := positions[i];
    var group: seq<nat> := if pos in groups then groups[pos] else [];
    GroupedNext(positions, i, keys, groups, group);
    keys' := if pos in groups then keys else keys + [pos];
    groups' := groups[pos := group + [i]];
  }

  lemma GroupsSome(positions: seq<nat>, keys: seq<nat>, groups: map<nat, seq<nat>>)
    requires Grouped(positions, keys, groups)
    ensures positions != [] ==> keys != []
  {
    if positions != [] {
      assert positions[0] in Elements(positions);
      assert positions[0] in Elements(keys);
    }
  }

  datatype AddError = BadData | OutOfRange

  // A frame owns its bytes; the array is a view of them.
  datatype Frame = Frame(header: FrameHeader, buffer: Bytes) {
    function View(): Array {
      Array(header.dtype, buffer)
    }

    function AsItem(): Item {
      Item(header.Flat(), View())
    }
  }

  // The i-th frame of a batch, if the buffer has bytes enough.
  method CutFrame(b: Batch, i: nat, offset: nat) returns (frame: Option<Frame>)
    requires i < |b.header.headers| && Holds(b, i) && offset == Offset(b.header.headers, i)
    ensures frame.Some? <==> Holds(b, i + 1)
    ensures frame.Some? ==> frame.value.header == b.header.headers[i] && frame.value.AsItem() == OwnItem(b, i)
    ensures frame.Some? ==> |frame.value.buffer| == b.header.headers[i].dataSize
  {
    var h := b.header.headers[i];
    if offset + h.dataSize > |b.data| {
      return None;
    }
    frame := Some(Frame(h, b.data[offset..offset + h.dataSize]));
  }

  ghost predicate IsCommon(a: Array, b: Batch, k: nat)
    requires k < |b.header.headers|
  {
    Holds(b, k + 1) && a == CommonItem(b, k).arr
  }

  // Cuts a batch's buffer into arrays of the first frame's element type, without copying.
  method SliceBatch(b: Batch) returns (r: Result<seq<Array>, AddError>)
    requires b.header.headers != []
    ensures r.Success? <==> Measured(b)
    ensures r.Success? ==> |r.value| == |b.header.headers|
    ensures r.Success? ==> forall i :: 0 <= i < |r.value| ==> IsCommon(r.value[i], b, i)
    ensures r.Failure? ==> r.error == BadData
  {
    var headers := b.header.headers;
    var dtype := headers[0].dtype;
    var itemSize := ItemSize(dtype);
    var offset := 0;
    var arrays: seq<Array> := [];
    for i := 0 to |headers|
      invariant offset == Offset(headers, i) && |arrays| == i
      invariant Measured(b) ==> forall k :: 0 <= k < i ==> IsCommon(arrays[k], b, k)
    {
      var length := headers[i].dataSize / itemSize * itemSize;
      assert length <= headers[i].dataSize;
      if Measured(b) {
        HoldsEarlier(b, i + 1, |headers|);
        assert Slice(b, i)[..length] == b.data[offset..offset + length];
      }
      if offset + length > |b.data| {
        return Failure(BadData);
      }
      arrays := arrays + [Array(dtype, b.data[offset..offset + length])];
      assert Measured(b) ==> IsCommon(arrays[i], b, i);
      offset := offset + headers[i].dataSize;
    }
    if offset != |b.data| {
      return Failure(BadData);
    }
    return Success(arrays);
  }

  // An array one frame wide that shows no frames.
  method NoFrames(n: nat, empty: Array) returns (data: array2<Array>)
    ensures fresh(data) && data.Length1 == 1 && Shows(data, EmptySlots(n), empty)
  {
    data := new Array[n, 1];
    for i := 0 to n
      invariant forall p :: 0 <= p < i ==> data[p, 0] == empty
    {
      data[i, 0] := empty;
    }
  }

  class FrameAccumulator {
    const scanNumber: int
    const rows: nat
    const columns: nat
    const positions: nat
    const empty: Array
    var data: array2<Array>
    var framesPerPosition: map<nat, nat>
    var numBatchesAdded: nat
    var numFramesAdded: nat
    var totalBatchesExpected: Option<nat>
    var totalFramesExpected: Option<nat>
    ghost var slots: Slots  // what each position has received

    ghost predicate Valid()
      reads this, data
    {
      && data.Length0 == positions == |slots| && data.Length1 >= 1
      && positions == rows * columns
      && Counts(framesPerPosition, slots)
      && Fits(slots, data.Length1)
      && Shows(data, slots, empty)
      && numFramesAdded == Total(slots)
    }

    constructor (scanNumber: int, rows: nat, columns: nat, dtype: Dtype)
      ensures Valid() && fresh(data)
      ensures this.rows == rows && this.columns == columns && this.scanNumber == scanNumber
      ensures empty == Array(dtype, [])
      ensures slots == EmptySlots(rows * columns) && data.Length1 == 1
      ensures numBatchesAdded == 0 && totalBatchesExpected == None && totalFramesExpected == None
    {
      this.scanNumber, this.rows, this.columns, this.positions := scanNumber, rows, columns, rows * columns;
      this.empty := Array(dtype, []);
      framesPerPosition, numBatchesAdded, numFramesAdded := map[], 0, 0;
      totalBatchesExpected, totalFramesExpected := None, None;
      slots := EmptySlots(rows * columns);
      TotalEmpty(rows * columns);
      var none := NoFrames(rows * columns, Array(dtype, []));
      data := none;
    }

    function Count(p: nat): nat
      reads this
    {
      if p in framesPerPosition then framesPerPosition[p] else 0
    }

    // Widens the array; the new slots hold the empty array.
    method ExpandFrameDimensionIfNeeded(required: nat)
      requires Valid()
      modifies this`data
      ensures Valid() && (data == old(data) || fresh(data))
      ensures data.Length1 == Max(old(data.Length1), required)
    {
      var current := data.Length1;
      if required <= current {
        return;
      }
      var wider := Widen(data, required, empty);
      assert Shows(wider, slots, empty);
      data := wider;
    }

    // Adds one frame behind those already at its position.
    method AddFrame(frame: Frame) returns (r: Result<(), AddError>)
      requires Valid()
      modifies this`data, this`framesPerPosition, this`numFramesAdded, this`slots, data
      ensures Valid() && (data == old(data) || fresh(data))
      ensures r.Success? <==> WholeBytes(frame.header.dtype, |frame.buffer|)
                              && frame.header.row * frame.header.columns + frame.header.x < positions
      ensures r.Success? ==> slots == Put(old(slots), [frame.AsItem()])
      ensures r.Failure? ==> slots == old(slots)
      ensures r.Success? ==> data.Length1 == Max(old(data.Length1), Widest(slots))
      ensures data.Length1 == Max(old(data.Length1), old(Count(frame.header.Flat())) + 1)
      ensures r.Failure? ==>
                r.error == if WholeBytes(frame.header.dtype, |frame.buffer|) then OutOfRange else BadData
    {
      WholeBytesIff(frame.View());
      var pos := frame.header.Flat();
      var frameIdx := Count(pos);
      if frameIdx >= data.Length1 {
        ExpandFrameDimensionIfNeeded(frameIdx + 1);
      }
      if !frame.View().Valid() {
        return Failure(BadData);
      }
      if pos >= positions {
        return Failure(OutOfRange);
      }
      PutOne(slots, frame.AsItem());
      WidthAfterOne(old(data.Length1), slots, frame.AsItem());
      StoreAt(pos, [0], [frame.View()], [frame.View()]);
      return Success(());
    }

    // Takes the i-th frame off a batch's iterator and adds it.
    method AddIterated(b: Batch, i: nat, offset: nat, ghost before: Slots, ghost width: nat)
      returns (r: Result<(), AddError>, next: nat)
      requires Valid() && i < |b.header.headers| && offset == Offset(b.header.headers, i)
      requires FedTo(before, slots, width, data.Length1, b, i, positions)
      modifies this`data, this`framesPerPosition, this`numFramesAdded, this`slots, data
      ensures Valid() && (data == old(data) || fresh(data))
      ensures r.Success? ==> FedTo(before, slots, width, data.Length1, b, i + 1, positions)
      ensures next == Offset(b.header.headers, i + 1)
      ensures r.Failure? ==> slots == old(slots) && FailsAt(b, i, positions, r.error)
    {
      next := offset + b.header.headers[i].dataSize;
      var frame := CutFrame(b, i, offset);
      if frame.None? {
        return Failure(BadData), next;
      }
      ghost var mid, grown := slots, data.Length1;
      AcceptableIff(b.header.headers[i], positions);
      r := AddFrame(frame.value);
      if r.Success? {
        NextFrame(before, mid, slots, width, grown, data.Length1, b, i, positions, frame.value.AsItem());
      }
    }

    // Adds every frame of a batch, one after the other.
    method AddFrames(b: Batch) returns (r: Result<(), AddError>)
      requires Valid()
      modifies this`data, this`framesPerPosition, this`numFramesAdded, this`slots, data
      ensures Valid() && (data == old(data) || fresh(data))
      ensures r.Success? <==> Measured(b) && AllAcceptable(b, positions)
      ensures r.Success? ==> slots == Put(old(slots), OwnItems(b, |b.header.headers|))
      ensures r.Success? ==> data.Length1 == Max(old(data.Length1), Widest(slots))
      ensures r.Failure? ==> exists i :: FedUntil(old(slots), slots, b, i, positions, r.error)
    {
      FedNothing(slots, data.Length1, b, positions);
      var fed, offset := FeedAll(b, slots, data.Length1);
      if fed.Failure? {
        return fed;
      }
      FedAll(old(slots), slots, old(data.Length1), data.Length1, b, positions);
      return if offset == |b.data| then Success(()) else Failure(BadData);
    }

    method FeedAll(b: Batch, ghost before: Slots, ghost width: nat) returns (r: Result<(), AddError>, offset: nat)
      requires Valid() && FedTo(before, slots, width, data.Length1, b, 0, positions)
      modifies this`data, this`framesPerPosition, this`numFramesAdded, this`slots, data
      ensures Valid() && (data == old(data) || fresh(data))
      ensures r.Failure? ==> !(Measured(b) && AllAcceptable(b, positions))
      ensures r.Failure? ==> exists i :: FedUntil(before, slots, b, i, positions, r.error)
      ensures r.Success? ==> FedTo(before, slots, width, data.Length1, b, |b.header.headers|, positions)
      ensures r.Success? ==> offset == TotalSize(b.header.headers)
    {
      offset := 0;
      for i := 0 to |b.header.headers|
        invariant Valid() && (data == old(data) || fresh(data))
        invariant offset == Offset(b.header.headers, i) && FedTo(before, slots, width, data.Length1, b, i, positions)
      {
        r, offset := AddIterated(b, i, offset, before, width);
        if r.Failure? {
          CannotFinish(b, i, positions, r.error);
          assert FedUntil(before, slots, b, i, positions, r.error);
          return;
        }
      }
      r := Success(());
    }

    // Adds a whole batch at once: frames are grouped by position, the array widened once, and the buffer cut in one go.
    method AddBatch(b: Batch) returns (r: Result<(), AddError>)
      requires Valid() && ValidHeader(b.header)
      modifies this`data, this`framesPerPosition, this`numFramesAdded, this`slots, this`totalBatchesExpected,
          this`totalFramesExpected, data
      ensures Valid() && (data == old(data) || fresh(data))
      ensures totalBatchesExpected == b.header.totalBatches && totalFramesExpected == b.header.totalFrames
      ensures r.Success? <==> Measured(b) && InRange(b, positions)
      ensures r.Success? ==> slots == Put(old(slots), CommonItems(b, |b.header.headers|))
      ensures r.Success? ==> data.Length1 == Max(old(data.Length1), Widest(slots))
      ensures !Measured(b) ==> r == Failure(BadData) && slots == old(slots)
      ensures Measured(b) ==> EachWholeOrNothing(old(slots), slots, CommonItems(b, |b.header.headers|))
      ensures Measured(b) && r.Failure? ==> r.error == OutOfRange && exists i :: StoppedAt(old(slots), slots, b, i)
    {
      totalBatchesExpected := b.header.totalBatches;
      totalFramesExpected := b.header.totalFrames;
      var flat := FlatPositions(b.header.headers);
      var keys, groups := GroupByPosition(flat);
      ghost var width := data.Length1;
      var needed, top := MaxNeeded(flat, keys, groups);
      if needed > data.Length1 {
        ExpandFrameDimensionIfNeeded(needed);
      }
      var arrays := SliceBatch(b);
      if arrays.Failure? {
        return Failure(arrays.error);
      }
      r := StoreGroups(b, arrays.value, flat, keys, groups, width, needed, top);
    }

    // Stores the frames of each position in turn; a position outside the scan stops it.
    method StoreGroups(b: Batch, arrays: seq<Array>, flat: seq<nat>, keys: seq<nat>, groups: map<nat, seq<nat>>,
                       ghost width: nat, ghost needed: nat, ghost top: nat)
      returns (r: Result<(), AddError>)
      requires Valid() && Measured(b) && flat == FlatPositions(b.header.headers)
      requires |arrays| == |b.header.headers| && forall i :: 0 <= i < |arrays| ==> IsCommon(arrays[i], b, i)
      requires Grouped(flat, keys, groups) && RoomFor(slots, groups, data.Length1)
      requires Tops(slots, groups, top, needed)
      requires Fits(slots, width) && data.Length1 == Max(width, needed)
      modifies this`framesPerPosition, this`numFramesAdded, this`slots, data
      ensures Valid()
      ensures r.Success? <==> InRange(b, positions)
      ensures r.Success? ==> slots == Put(old(slots), CommonItems(b, |b.header.headers|))
      ensures r.Success? ==> data.Length1 == Max(width, Widest(slots))
      ensures EachWholeOrNothing(old(slots), slots, CommonItems(b, |b.header.headers|))
      ensures r.Failure? ==> r.error == OutOfRange && exists i :: StoppedAt(old(slots), slots, b, i)
    {
      ghost var before, items := slots, CommonItems(b, |b.header.headers|);
      CommonItemsMatch(b, arrays, flat);
      var stored := StoreKeys(items, arrays, flat, keys, groups);
      GroupsOutcome(b, before, slots, width, data.Length1, needed, flat, keys, groups, top, stored);
      r := if stored < |keys| then Failure(OutOfRange) else Success(());
    }

    // Key by key, until one lies outside the scan; returns how many were stored.
    method StoreKeys(ghost items: seq<Item>, arrays: seq<Array>, ghost flat: seq<nat>, keys: seq<nat>,
                     groups: map<nat, seq<nat>>)
      returns (stored: nat)
      requires Valid() && Lined(items, flat, arrays) && Grouped(flat, keys, groups)
      requires RoomFor(slots, groups, data.Length1)
      modifies this`framesPerPosition, this`numFramesAdded, this`slots, data
      ensures Valid() && StoredTo(old(slots), slots, items, keys, stored, positions)
      ensures stored < |keys| ==> keys[stored] >= positions
    {
      NothingStored(slots, items, keys, positions);
      for k: nat := 0 to |keys|
        invariant Valid() && StoredTo(old(slots), slots, items, keys, k, positions)
      {
        if keys[k] >= positions {
          return k;
        }
        StoreKey(old(slots), items, flat, keys, k, groups, arrays);
      }
      return |keys|;
    }

    // Stores the frames of the k-th key, whose position has been left alone so far.
    method StoreKey(ghost before: Slots, ghost items: seq<Item>, ghost flat: seq<nat>, keys: seq<nat>, k: nat,
                    groups: map<nat, seq<nat>>, arrays: seq<Array>)
      requires Valid() && Lined(items, flat, arrays) && Grouped(flat, keys, groups)
      requires RoomFor(before, groups, data.Length1)
      requires k < |keys| && keys[k] < positions && StoredTo(before, slots, items, keys, k, positions)
      modifies this`framesPerPosition, this`numFramesAdded, this`slots, data
      ensures Valid() && StoredTo(before, slots, items, keys, k + 1, positions)
    {
      ghost var mid := slots;
      KeyIsNext(before, mid, items, flat, arrays, keys, groups, k, data.Length1);
      StoreAt(keys[k], groups[keys[k]], arrays, At(items, keys[k]));
      StoredNext(before, mid, slots, items, keys, k);
      BelowNext(keys, k, positions);
    }

    // The most frames any position of the batch will hold.
    method MaxNeeded(ghost flat: seq<nat>, keys: seq<nat>, groups: map<nat, seq<nat>>)
      returns (needed: nat, ghost top: nat)
      requires Grouped(flat, keys, groups) && keys != []
      requires Counts(framesPerPosition, slots)
      ensures RoomFor(slots, groups, needed) && Tops(slots, groups, top, needed)
    {
      assert keys[0] in Elements(keys);
      top := keys[0];
      needed := Count(keys[0]) + |groups[keys[0]]|;
      for k := 1 to |keys|
        invariant forall j :: 0 <= j < k ==> keys[j] in groups && Count(keys[j]) + |groups[keys[j]]| <= needed
        invariant top in groups && Count(top) + |groups[top]| == needed
      {
        assert keys[k] in Elements(keys);
        if Count(keys[k]) + |groups[keys[k]]| > needed {
          needed, top := Count(keys[k]) + |groups[keys[k]]|, keys[k];
        }
      }
      forall p | p in groups && p < |slots| ensures |slots[p]| + |groups[p]| <= needed {
        assert p in Elements(keys);
      }
    }

    // A batch message counts as one more batch, once its frames are in.
    method AddMessage(b: Batch) returns (r: Result<(), AddError>)
      requires Valid() && ValidHeader(b.header)
      modifies this, data
      ensures Valid() && (data == old(data) || fresh(data))
      ensures totalBatchesExpected == b.header.totalBatches && totalFramesExpected == b.header.totalFrames
      ensures r.Success? <==> Measured(b) && InRange(b, positions)
      ensures r.Success? ==> slots == Put(old(slots), CommonItems(b, |b.header.headers|))
      ensures r.Success? ==> data.Length1 == Max(old(data.Length1), Widest(slots))
      ensures r.Success? ==> numBatchesAdded == old(numBatchesAdded) + 1
      ensures r.Failure? ==> numBatchesAdded == old(numBatchesAdded)
      ensures !Measured(b) ==> r == Failure(BadData) && slots == old(slots)
      ensures Measured(b) && r.Failure? ==> r.error == OutOfRange && exists i :: StoppedAt(old(slots), slots, b, i)
    {
      r := AddBatch(b);
      if r.Success? {
        numBatchesAdded := numBatchesAdded + 1;
      }
    }

    // At least 99 percent of the expected frames are in.
    predicate Finished(): (r: bool)
      reads this
      ensures r <==> totalFramesExpected.Some? && 100 * numFramesAdded >= 99 * totalFramesExpected.value
    {
      totalFramesExpected.Some? && numFramesAdded as real >= 0.99 * totalFramesExpected.value as real
    }

    // Forgets everything.
    method Clear()
      requires Valid()
      modifies this
      ensures Valid() && fresh(data)
      ensures slots == EmptySlots(positions) && data.Length1 == 1 && numFramesAdded == 0
      ensures numBatchesAdded == 0 && totalBatchesExpected == None && totalFramesExpected == None
    {
      data := NoFrames(positions, empty);
      TotalEmpty(positions);
      framesPerPosition, numBatchesAdded, numFramesAdded := map[], 0, 0;
      totalBatchesExpected, totalFramesExpected := None, None;
      slots := EmptySlots(positions);
    }

    // Stores the chosen arrays in the next free slots of one position and counts them.
    method StoreAt(pos: nat, chosen: seq<nat>, arrays: seq<Array>, ghost row: seq<Array>)
      requires Valid() && pos < positions && chosen != []
      requires |slots[pos]| + |chosen| <= data.Length1
      requires Picks(arrays, chosen, row)
      modifies this`framesPerPosition, this`numFramesAdded, this`slots, data
      ensures Valid() && slots == old(slots)[pos := old(slots)[pos] + row]
    {
      var start := Count(pos);
      WriteRow(data, pos, start, chosen, arrays, row, slots, empty);
      TotalSet(slots, pos, slots[pos] + row);
      framesPerPosition := framesPerPosition[pos := start + |chosen|];
      numFramesAdded := numFramesAdded + |chosen|;
      slots := slots[pos := slots[pos] + row];
    }
  }

  // The chosen arrays are those of the row.
  ghost predicate Picks(arrays: seq<Array>, chosen: seq<nat>, row: seq<Array>) {
    |row| == |chosen| && forall j :: 0 <= j < |chosen| ==> chosen[j] < |arrays| && arrays[chosen[j]] == row[j]
  }

  // The items are the listed arrays at the listed positions.
  ghost predicate Lined(items: seq<Item>, flat: seq<nat>, arrays: seq<Array>) {
    |items| == |flat| == |arrays|
    && forall i :: 0 <= i < |items| ==> flat[i] == items[i].pos && arrays[i] == items[i].arr
  }

  ghost predicate AllBelow(keys: seq<nat>, n: nat) {
    forall j :: 0 <= j < |keys| ==> keys[j] < n
  }

  lemma BelowNext(keys: seq<nat>, k: nat, n: nat)
    requires k < |keys| && AllBelow(keys[..k], n) && keys[k] < n
    ensures AllBelow(keys[..k + 1], n)
  {
  }

  // Every group inside the scan fits behind what its position holds.
  ghost predicate RoomFor(slots: Slots, groups: map<nat, seq<nat>>, width: nat) {
    forall p :: p in groups && p < |slots| ==> |slots[p]| + |groups[p]| <= width
  }

  // If it lies inside the scan, this position will hold exactly so many frames.
  ghost predicate Tops(slots: Slots, groups: map<nat, seq<nat>>, top: nat, needed: nat) {
    top in groups && (top < |slots| ==> |slots[top]| + |groups[top]| == needed)
  }

  lemma GroupOfKey(flat: seq<nat>, keys: seq<nat>, groups: map<nat, seq<nat>>, k: nat)
    requires Grouped(flat, keys, groups) && k < |keys|
    ensures keys[k] in groups && keys[k] in flat && groups[keys[k]] == IndicesOf(flat, keys[k]) != []
  {
    assert keys[k] in Elements(keys) && GroupIs(flat, groups, keys[k]);
  }

  // The next key's group fits, and picks the items of its position.
  lemma KeyIsNext(before: Slots, mid: Slots, items: seq<Item>, flat: seq<nat>, arrays: seq<Array>, keys: seq<nat>,
                  groups: map<nat, seq<nat>>, k: nat, width: nat)
    requires Lined(items, flat, arrays) && Grouped(flat, keys, groups) && RoomFor(before, groups, width)
    requires k < |keys| && keys[k] < |before| && StoredSoFar(before, mid, items, keys[..k])
    ensures keys[k] in groups && groups[keys[k]] != [] && |mid[keys[k]]| + |groups[keys[k]]| <= width
    ensures Picks(arrays, groups[keys[k]], At(items, keys[k]))
  {
    GroupOfKey(flat, keys, groups, k);
    AtByIndices(items, flat, keys[k]);
  }

  // Writes the chosen arrays behind what a position already shows.
  method WriteRow(target: array2<Array>, pos: nat, start: nat, chosen: seq<nat>, arrays: seq<Array>,
                  ghost row: seq<Array>, ghost slots: Slots, ghost empty: Array)
    requires Shows(target, slots, empty) && pos < |slots| && start == |slots[pos]| && start + |chosen| <= target.Length1
    requires Picks(arrays, chosen, row)
    modifies target
    ensures Shows(target, slots[pos := slots[pos] + row], empty)
  {
    for local := 0 to |chosen|
      invariant forall p, j :: 0 <= p < target.Length0 && 0 <= j < target.Length1 ==>
        target[p, j] == if p == pos && start <= j < start + local then row[j - start] else Slot(slots, empty, p, j)
    {
      target[pos, start + local] := arrays[chosen[local]];
    }
  }

  // A frame that can be added on its own: whole items, and a position inside the scan.
  predicate Acceptable(h: FrameHeader, positions: nat) {
    h.dataSize % ItemSize(h.dtype) == 0 && h.Flat() < positions
  }

  lemma AcceptableIff(h: FrameHeader, positions: nat)
    ensures Acceptable(h, positions) <==> WholeBytes(h.dtype, h.dataSize) && h.row * h.columns + h.x < positions
  {
  }

  predicate AllAcceptable(b: Batch, positions: nat) {
    forall i :: 0 <= i < |b.header.headers| ==> Acceptable(b.header.headers[i], positions)
  }

  predicate InRange(b: Batch, positions: nat) {
    forall i :: 0 <= i < |b.header.headers| ==> b.header.headers[i].Flat() < positions
  }

  function FlatPositions(headers: seq<FrameHeader>): (ps: seq<nat>)
    ensures |ps| == |headers| && forall i :: 0 <= i < |ps| ==> ps[i] == headers[i].Flat()
  {
    seq(|headers|, i requires 0 <= i < |headers| => headers[i].Flat())
  }

  lemma PutNothing(slots: Slots)
    ensures Put(slots, []) == slots
  {
    forall p | 0 <= p < |slots| ensures Put(slots, [])[p] == slots[p] {
      assert At([], p) == [];
    }
  }

  // The first i frames of a batch, and nothing else, have been added one by one.
  ghost predicate FedTo(before: Slots, after: Slots, width: nat, grown: nat, b: Batch, i: nat, positions: nat) {
    && i <= |b.header.headers| && Holds(b, i)
    && after == Put(before, OwnItems(b, i))
    && grown == Max(width, Widest(after))
    && AcceptableTo(b, i, positions)
  }

  ghost predicate AcceptableTo(b: Batch, i: nat, positions: nat)
    requires i <= |b.header.headers|
  {
    forall k :: 0 <= k < i ==> Acceptable(b.header.headers[k], positions)
  }

  lemma AcceptableNext(b: Batch, i: nat, positions: nat)
    requires i < |b.header.headers| && AcceptableTo(b, i, positions) && Acceptable(b.header.headers[i], positions)
    ensures AcceptableTo(b, i + 1, positions)
  {
  }

  lemma FedNothing(before: Slots, width: nat, b: Batch, positions: nat)
    requires Fits(before, width)
    ensures FedTo(before, before, width, width, b, 0, positions)
  {
    PutNothing(before);
    WidthSettled(width, before, width);
  }

  lemma NextFrame(before: Slots, mid: Slots, after: Slots, width: nat, grown: nat, grown': nat, b: Batch, i: nat,
                  positions: nat, item: Item)
    requires i < |b.header.headers| && FedTo(before, mid, width, grown, b, i, positions)
    requires Holds(b, i + 1) && Acceptable(b.header.headers[i], positions) && item == OwnItem(b, i)
    requires after == Put(mid, [item]) && grown' == Max(grown, Widest(after))
    ensures FedTo(before, after, width, grown', b, i + 1, positions)
  {
    AcceptableNext(b, i, positions);
    PutOwn(before, b, i);
    WidestGrows(mid, [item]);
  }

  lemma PutOwn(before: Slots, b: Batch, i: nat)
    requires i < |b.header.headers| && Holds(b, i + 1)
    ensures Put(before, OwnItems(b, i + 1)) == Put(Put(before, OwnItems(b, i)), [OwnItem(b, i)])
  {
    PutConcat(before, OwnItems(b, i), [OwnItem(b, i)]);
  }

  // The i-th frame cannot be added: the buffer is too short, or cuts an item, or the position is outside the scan.
  ghost predicate FailsAt(b: Batch, i: nat, positions: nat, error: AddError)
    requires i < |b.header.headers|
  {
    var h := b.header.headers[i];
    if !Holds(b, i + 1) || !WholeBytes(h.dtype, h.dataSize) then error == BadData
    else h.row * h.columns + h.x >= positions && error == OutOfRange
  }

  // The first i frames of a batch, and nothing else, have been added when it fails: on the next one, or at the end for
  // bytes left over.
  ghost predicate FedUntil(before: Slots, after: Slots, b: Batch, i: nat, positions: nat, error: AddError) {
    && i <= |b.header.headers| && Holds(b, i) && AcceptableTo(b, i, positions)
    && after == Put(before, OwnItems(b, i))
    && if i < |b.header.headers| then FailsAt(b, i, positions, error)
       else TotalSize(b.header.headers) < |b.data| && error == BadData
  }

  lemma CannotFinish(b: Batch, i: nat, positions: nat, error: AddError)
    requires i < |b.header.headers| && FailsAt(b, i, positions, error)
    ensures !(Measured(b) && AllAcceptable(b, positions))
  {
    AcceptableIff(b.header.headers[i], positions);
    if Measured(b) {
      HoldsEarlier(b, i + 1, |b.header.headers|);
    }
  }

  lemma FedAll(before: Slots, after: Slots, width: nat, grown: nat, b: Batch, positions: nat)
    requires FedTo(before, after, width, grown, b, |b.header.headers|, positions)
    ensures TotalSize(b.header.headers) != |b.data| ==>
              FedUntil(before, after, b, |b.header.headers|, positions, BadData)
  {
  }

  lemma WidestGrows(slots: Slots, items: seq<Item>)
    ensures Widest(slots) <= Widest(Put(slots, items))
  {
    WidestIsMax(slots);
    WidestIsMax(Put(slots, items));
    if Widest(slots) > 0 {
      var p :| 0 <= p < |slots| && |slots[p]| == Widest(slots);
      assert |Put(slots, items)[p]| >= |slots[p]|;
    }
  }

  lemma CommonItemsMatch(b: Batch, arrays: seq<Array>, flat: seq<nat>)
    requires Measured(b) && |arrays| == |b.header.headers| && flat == FlatPositions(b.header.headers)
    requires forall i :: 0 <= i < |arrays| ==> IsCommon(arrays[i], b, i)
    ensures Lined(CommonItems(b, |b.header.headers|), flat, arrays)
  {
    var n := |b.header.headers|;
    if n > 0 {
      CommonItemAt(b, n, 0);
    }
    forall i | 0 <= i < n ensures flat[i] == CommonItems(b, n)[i].pos && arrays[i] == CommonItems(b, n)[i].arr {
      CommonItemAt(b, n, i);
      assert IsCommon(arrays[i], b, i);
    }
  }

  lemma {:induction false} AtAbsent(items: seq<Item>, p: nat)
    requires forall i :: 0 <= i < |items| ==> items[i].pos != p
    ensures At(items, p) == []
  {
    if items != [] {
      AtAbsent(items[..|items| - 1], p);
    }
  }

  // The given positions receive their items, the others nothing.
  function PutOnly(slots: Slots, items: seq<Item>, done: seq<nat>): Slots {
    seq(|slots|, p requires 0 <= p < |slots| => slots[p] + if p in done then At(items, p) else [])
  }

  ghost predicate StoredSoFar(before: Slots, after: Slots, items: seq<Item>, done: seq<nat>) {
    after == PutOnly(before, items, done)
  }

  // The first k keys lie inside the scan and are done.
  ghost predicate StoredTo(before: Slots, after: Slots, items: seq<Item>, keys: seq<nat>, k: nat, positions: nat) {
    k <= |keys| && StoredSoFar(before, after, items, keys[..k]) && AllBelow(keys[..k], positions)
  }

  lemma StoredNext(before: Slots, mid: Slots, after: Slots, items: seq<Item>, keys: seq<nat>, k: nat)
    requires NoDup(keys) && k < |keys| && StoredSoFar(before, mid, items, keys[..k]) && keys[k] < |before|
    requires after == mid[keys[k] := mid[keys[k]] + At(items, keys[k])]
    ensures StoredSoFar(before, after, items, keys[..k + 1])
  {
    var done, next := keys[..k], keys[..k + 1];
    assert next == done + [keys[k]];
    forall p | 0 <= p < |before| ensures after[p] == PutOnly(before, items, next)[p] {
      assert p in next <==> p in done || p == keys[k];
    }
    assert after == PutOnly(before, items, next);
  }

  lemma NothingStored(slots: Slots, items: seq<Item>, keys: seq<nat>, positions: nat)
    ensures StoredTo(slots, slots, items, keys, 0, positions)
  {
    forall p | 0 <= p < |slots| ensures slots[p] == PutOnly(slots, items, keys[..0])[p] {
      assert slots[p] + [] == slots[p];
    }
    assert slots == PutOnly(slots, items, keys[..0]);
  }

  // Even when a batch fails half way, a position has received all of its frames or none.
  ghost predicate EachWholeOrNothing(before: Slots, after: Slots, items: seq<Item>) {
    |after| == |before|
    && forall p :: 0 <= p < |after| ==> after[p] == before[p] || after[p] == before[p] + At(items, p)
  }

  // Stopped by frame i, the first one outside the scan: exactly the positions named before it have their frames, all of
  // them, wherever in the batch they come.
  ghost predicate StoppedAt(before: Slots, after: Slots, b: Batch, i: nat) {
    var headers := b.header.headers;
    && Measured(b) && i < |headers| && headers[i].Flat() >= |before| == |after|
    && (forall j :: 0 <= j < i ==> headers[j].Flat() < |before|)
    && forall p :: 0 <= p < |before| ==>
         after[p] == before[p] + if p in FlatPositions(headers)[..i] then At(CommonItems(b, |headers|), p) else []
  }

  lemma StoppedByKey(before: Slots, after: Slots, b: Batch, keys: seq<nat>, groups: map<nat, seq<nat>>, k: nat)
    requires Measured(b) && Grouped(FlatPositions(b.header.headers), keys, groups) && k < |keys|
    requires StoredSoFar(before, after, CommonItems(b, |b.header.headers|), keys[..k])
    requires AllBelow(keys[..k], |before|) && keys[k] >= |before|
    ensures exists i :: StoppedAt(before, after, b, i)
  {
    var flat := FlatPositions(b.header.headers);
    assert AppearsNext(flat, keys, k);
    var i: nat :| Appears(flat, keys, k, i);
    forall p ensures p in flat[..i] <==> p in keys[..k] {
      KeysBefore(flat, keys, k, i, p);
    }
    forall j | 0 <= j < i ensures b.header.headers[j].Flat() < |before| {
      assert flat[j] in keys[..k];
    }
    assert StoppedAt(before, after, b, i);
  }

  // The keys before the k-th are the positions that occur before it first does.
  lemma KeysBefore(flat: seq<nat>, keys: seq<nat>, k: nat, i: nat, p: nat)
    requires NoDup(keys) && ByAppearance(flat, keys) && k < |keys| && Appears(flat, keys, k, i)
    ensures p in flat[..i] <==> p in keys[..k]
  {
    if p in keys[..k] {
      var a: nat :| a < k && keys[a] == p;
      assert AppearsNext(flat, keys, a);
      var first: nat :| Appears(flat, keys, a, first);
      assert keys[k] !in keys[..a] && flat[first] != flat[i];
      assert first < i && flat[..i][first] == p;
    }
  }

  // Storing every group is putting every item.
  lemma AllStored(before: Slots, after: Slots, items: seq<Item>, keys: seq<nat>, flat: seq<nat>)
    requires |flat| == |items| && Elements(keys) == Elements(flat)
    requires forall i :: 0 <= i < |items| ==> flat[i] == items[i].pos
    requires StoredSoFar(before, after, items, keys[..|keys|])
    ensures after == Put(before, items)
  {
    assert keys[..|keys|] == keys;
    forall p | 0 <= p < |after| ensures after[p] == Put(before, items)[p] {
      if p !in keys {
        assert p !in Elements(flat);
        AtAbsent(items, p);
      }
    }
  }

  lemma KeysInRange(b: Batch, keys: seq<nat>, positions: nat)
    requires Elements(keys) == Elements(FlatPositions(b.header.headers))
    requires forall j :: 0 <= j < |keys| ==> keys[j] < positions
    ensures InRange(b, positions)
  {
    var flat := FlatPositions(b.header.headers);
    forall i | 0 <= i < |b.header.headers| ensures b.header.headers[i].Flat() < positions {
      assert flat[i] in Elements(flat);
      assert flat[i] in keys;
    }
  }

  // Widening once, to the most any position needs, leaves the width the frame-by-frame way would.
  lemma BatchWidth(before: Slots, after: Slots, width: nat, grown: nat, needed: nat, items: seq<Item>, flat: seq<nat>,
                   top: nat)
    requires after == Put(before, items) && Fits(before, width) && Fits(after, grown) && grown == Max(width, needed)
    requires |flat| == |items| && forall i :: 0 <= i < |items| ==> flat[i] == items[i].pos
    requires top < |before| && |before[top]| + |IndicesOf(flat, top)| == needed
    ensures grown == Max(width, Widest(after))
  {
    AtByIndices(items, flat, top);
    assert |after[top]| == needed;
    WidthSettled(width, after, grown);
  }

  lemma GroupsStored(b: Batch, before: Slots, after: Slots, width: nat, grown: nat, needed: nat, flat: seq<nat>,
                     keys: seq<nat>, top: nat)
    requires Measured(b) && flat == FlatPositions(b.header.headers) && Elements(keys) == Elements(flat)
    requires StoredSoFar(before, after, CommonItems(b, |b.header.headers|), keys) && AllBelow(keys, |before|)
    requires Fits(before, width) && Fits(after, grown) && grown == Max(width, needed)
    requires top in keys && |before[top]| + |IndicesOf(flat, top)| == needed
    ensures InRange(b, |before|)
    ensures after == Put(before, CommonItems(b, |b.header.headers|)) && grown == Max(width, Widest(after))
  {
    var items := CommonItems(b, |b.header.headers|);
    CommonPositions(b, flat);
    AllStored(before, after, items, keys, flat);
    KeysInRange(b, keys, |before|);
    BatchWidth(before, after, width, grown, needed, items, flat, top);
  }

  // What storing key by key comes to, when it went through the first `stored` keys.
  lemma GroupsOutcome(b: Batch, before: Slots, after: Slots, width: nat, grown: nat, needed: nat, flat: seq<nat>,
                      keys: seq<nat>, groups: map<nat, seq<nat>>, top: nat, stored: nat)
    requires Measured(b) && flat == FlatPositions(b.header.headers) && Grouped(flat, keys, groups) && stored <= |keys|
    requires StoredSoFar(before, after, CommonItems(b, |b.header.headers|), keys[..stored])
    requires AllBelow(keys[..stored], |before|) && (stored < |keys| ==> keys[stored] >= |before|)
    requires Fits(before, width) && Fits(after, grown) && grown == Max(width, needed)
    requires Tops(before, groups, top, needed)
    ensures stored == |keys| <==> InRange(b, |before|)
    ensures stored == |keys| ==>
          after == Put(before, CommonItems(b, |b.header.headers|)) && grown == Max(width, Widest(after))
    ensures EachWholeOrNothing(before, after, CommonItems(b, |b.header.headers|))
    ensures stored < |keys| ==> exists i :: StoppedAt(before, after, b, i)
  {
    if stored < |keys| {
      StoppedByKey(before, after, b, keys, groups, stored);
      OutsideKey(b, flat, keys, groups, stored, |before|);
    } else {
      assert keys[..stored] == keys;
      TopIsKey(before, flat, keys, groups, top, needed);
      GroupsStored(b, before, after, width, grown, needed, flat, keys, top);
    }
  }

  lemma OutsideKey(b: Batch, flat: seq<nat>, keys: seq<nat>, groups: map<nat, seq<nat>>, k: nat, n: nat)
    requires flat == FlatPositions(b.header.headers) && Grouped(flat, keys, groups) && k < |keys| && keys[k] >= n
    ensures !InRange(b, n)
  {
    GroupOfKey(flat, keys, groups, k);
  }

  lemma TopIsKey(before: Slots, flat: seq<nat>, keys: seq<nat>, groups: map<nat, seq<nat>>, top: nat, needed: nat)
    requires Grouped(flat, keys, groups) && AllBelow(keys, |before|) && Tops(before, groups, top, needed)
    ensures top in keys && |before[top]| + |IndicesOf(flat, top)| == needed
  {
    assert top in Elements(keys) && GroupIs(flat, groups, top);
  }

  lemma CommonPositions(b: Batch, flat: seq<nat>)
    requires Measured(b) && flat == FlatPositions(b.header.headers)
    ensures var items := CommonItems(b, |b.header.headers|);
            |items| == |flat| && forall i :: 0 <= i < |items| ==> flat[i] == items[i].pos
  {
    var n := |b.header.headers|;
    if n > 0 {
      CommonItemAt(b, n, 0);
    }
    forall i | 0 <= i < n ensures flat[i] == CommonItems(b, n)[i].pos {
      CommonItemAt(b, n, i);
    }
  }

  // A wider copy whose new slots hold the empty array.
  method Widen(d: array2<Array>, width: nat, empty: Array) returns (wider: array2<Array>)
    requires d.Length1 <= width
    ensures fresh(wider) && wider.Length0 == d.Length0 && wider.Length1 == width
    ensures forall p, j :: 0 <= p < d.Length0 && 0 <= j < width ==>
          wider[p, j] == if j < d.Length1 then d[p, j] else empty
  {
    wider := new Array[d.Length0, width];
    forall p, j | 0 <= p < d.Length0 && 0 <= j < d.Length1 {
      wider[p, j] := d[p, j];
    }
    for i := 0 to d.Length0
      invariant forall p, j :: 0 <= p < d.Length0 && 0 <= j < d.Length1 ==> wider[p, j] == d[p, j]
      invariant forall p, j :: 0 <= p < i && d.Length1 <= j < width ==> wider[p, j] == empty
    {
      for k := d.Length1 to width
        invariant forall p, j :: 0 <= p < d.Length0 && 0 <= j < d.Length1 ==> wider[p, j] == d[p, j]
        invariant forall p, j :: 0 <= p < i && d.Length1 <= j < width ==> wider[p, j] == empty
        invariant forall j :: d.Length1 <= j < k ==> wider[i, j] == empty
      {
        wider[i, k] := empty;
      }
    }
  }

  // The dictionary of counts has exactly the positions that hold something.
  ghost predicate Counts(counts: map<nat, nat>, slots: Slots) {
    && (forall p: nat :: p in counts <==> p < |slots| && slots[p] != [])
    && (forall p: nat :: p in counts ==> counts[p] == |slots[p]|)
  }

  ghost predicate Fits(slots: Slots, width: nat) {
    forall p :: 0 <= p < |slots| ==> |slots[p]| <= width
  }

  ghost predicate Shows(data: array2<Array>, slots: Slots, empty: Array)
    reads data
  {
    && data.Length0 == |slots|
    && forall p, j :: 0 <= p < data.Length0 && 0 <= j < data.Length1 ==> data[p, j] == Slot(slots, empty, p, j)
  }

  // What slot j of position p shows.
  function Slot(slots: Slots, empty: Array, p: nat, j: nat): Array
    requires p < |slots|
  {
    if j < |slots[p]| then slots[p][j] else empty
  }

  function EmptySlots(n: nat): (s: Slots)
    ensures |s| == n && forall p :: 0 <= p < n ==> s[p] == []
  {
    seq(n, p => [])
  }

  lemma {:induction false} TotalEmpty(n: nat)
    ensures Total(EmptySlots(n)) == 0
  {
    if n > 0 {
      assert EmptySlots(n)[..n - 1] == EmptySlots(n - 1);
      TotalEmpty(n - 1);
    }
  }

  // From equal states, the batch way and the frame-by-frame way leave equal states, for every uniform batch
  // that measures up and stays inside the scan: same slots, same width, same counts.
  method AddBothWays(fast: FrameAccumulator, slow: FrameAccumulator, b: Batch)
    requires fast.Valid() && slow.Valid() && fast != slow && fast.data != slow.data
    requires fast.slots == slow.slots && fast.data.Length1 == slow.data.Length1
    requires ValidHeader(b.header) && Measured(b) && Uniform(b) && InRange(b, fast.positions)
    modifies fast, slow, fast.data, slow.data
    ensures fast.slots == slow.slots && fast.data.Length0 == slow.data.Length0 && fast.data.Length1 == slow.data.Length1
    ensures fast.framesPerPosition == slow.framesPerPosition && fast.numFramesAdded == slow.numFramesAdded
    ensures fast.empty == slow.empty ==>
              forall p, j :: 0 <= p < fast.data.Length0 && 0 <= j < fast.data.Length1 ==>
                fast.data[p, j] == slow.data[p, j]
  {
    ReadingsAgreeIff(b);
    forall i | 0 <= i < |b.header.headers| ensures Acceptable(b.header.headers[i], fast.positions) {
      assert Regular(b, i);
    }
    var f := fast.AddBatch(b);
    var s := slow.AddFrames(b);
  }
}
