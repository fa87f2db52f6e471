/** Reassembling camera frames from the packets of four modules, in whatever order they arrive. */
module Reassembly {
  import opened Common
  import Frames

  type Bytes = Frames.Bytes

  datatype FrameKey = FrameKey(scan: int, frame: int)

  datatype CameraHeader = CameraHeader(scan: int, frame: int, x: int, row: int, part: int) {
    function Key(): FrameKey {
      FrameKey(scan, frame)
    }
  }

  // One message: a module's header (`part` is its module number) and its bytes.
  datatype Packet = Packet(header: CameraHeader, data: Bytes)

  datatype FrameHeader = FrameHeader(scan: int, frame: int, x: int, row: int, modules: seq<int>)

  datatype CompleteFrame = CompleteFrame(header: FrameHeader, data: Bytes)

  // A complete frame is 576 by 576 two-byte pixels.
  const FRAME_BYTES: nat := 576 * 576 * 2

  datatype AssembleError = OddBuffer | NoModuleZero | WrongShape

  // ----- What a list of packets of one frame amounts to -----

  function Modules(q: seq<Packet>): set<int> {
    set p | p in q :: p.header.part
  }

  // The modules in order of first arrival.
  function Arrivals(q: seq<Packet>): seq<int> {
    if q == [] then [] else
    var init, m := Arrivals(q[..|q| - 1]), q[|q| - 1].header.part;
    if m in init then init else init + [m]
  }

  // Everything one module sent, joined.
  function ModuleData(q: seq<Packet>, m: int): Bytes {
    if q == [] then [] else
    var init, p := ModuleData(q[..|q| - 1], m), q[|q| - 1];
    if p.header.part == m then init + p.data else init
  }

  // The last header a module sent.
  function LastHeader(q: seq<Packet>, m: int): Option<CameraHeader> {
    if q == [] then None
    else if q[|q| - 1].header.part == m then Some(q[|q| - 1].header)
    else LastHeader(q[..|q| - 1], m)
  }

  function JoinModules(q: seq<Packet>, ms: seq<int>): Bytes {
    if ms == [] then [] else JoinModules(q, ms[..|ms| - 1]) + ModuleData(q, ms[|ms| - 1])
  }

  // Joining is in order of arrival, and a later header replaces an earlier one.
  lemma {:induction false} ArrivalOrder(a: seq<Packet>, b: seq<Packet>, m: int)
    ensures ModuleData(a + b, m) == ModuleData(a, m) + ModuleData(b, m)
    ensures LastHeader(a + b, m) == if LastHeader(b, m).Some? then LastHeader(b, m) else LastHeader(a, m)
  {
    if b == [] {
      assert a + b == a;
    } else {
      assert (a + b)[..|a + b| - 1] == a + b[..|b| - 1];
      ArrivalOrder(a, b[..|b| - 1], m);
    }
  }

  lemma OnePacket(p: Packet, m: int)
    ensures ModuleData([p], m) == if p.header.part == m then p.data else []
    ensures LastHeader([p], m) == if p.header.part == m then Some(p.header) else None
  {
    assert [p][..0] == [];
  }

  // The k-th module listed is one that arrives when just the ones listed before it have.
  lemma {:induction false} ArrivalsInOrder(q: seq<Packet>, k: nat)
    requires k < |Arrivals(q)|
    ensures exists i :: 0 <= i < |q| && q[i].header.part == Arrivals(q)[k] && OnlyThese(q[..i], Arrivals(q)[..k])
  {
    var front := q[..|q| - 1];
    if k < |Arrivals(front)| {
      ArrivalsInOrder(front, k);
      var i :| 0 <= i < |front| && front[i].header.part == Arrivals(front)[k]
        && OnlyThese(front[..i], Arrivals(front)[..k]);
      assert q[..i] == front[..i] && Arrivals(q)[..k] == Arrivals(front)[..k] && q[i] == front[i];
    } else {
      ArrivalsAreModules(front);
      assert Arrivals(q)[..k] == Arrivals(front);
      assert OnlyThese(q[..|front|], Arrivals(q)[..k]);
    }
  }

  ghost predicate OnlyThese(q: seq<Packet>, ms: seq<int>) {
    forall m :: m in Modules(q) <==> m in ms
  }

  ghost predicate Increasing(ms: seq<int>) {
    forall i, j :: 0 <= i < j < |ms| ==> ms[i] < ms[j]
  }

  ghost predicate IsSorting(ms: seq<int>, s: set<int>) {
    Increasing(ms) && Elements(ms) == s
  }

  // The last element of an increasing list is its largest.
  lemma LastIsLargest(ms: seq<int>, x: int)
    requires Increasing(ms) && x in Elements(ms)
    ensures x <= ms[|ms| - 1]
  {
    var i :| 0 <= i < |ms| && ms[i] == x;
  }

  lemma DropLast(ms: seq<int>)
    requires Increasing(ms) && ms != []
    ensures Increasing(ms[..|ms| - 1]) && Elements(ms[..|ms| - 1]) == Elements(ms) - {ms[|ms| - 1]}
  {
  }

  lemma {:induction false} SortingUnique(a: seq<int>, b: seq<int>)
    requires Increasing(a) && Increasing(b) && Elements(a) == Elements(b)
    ensures a == b
    decreases |a|
  {
    assert a != [] ==> a[0] in Elements(b);
    assert b != [] ==> b[0] in Elements(a);
    if a != [] && b != [] {
      LastIsLargest(a, b[|b| - 1]);
      LastIsLargest(b, a[|a| - 1]);
      DropLast(a);
      DropLast(b);
      SortingUnique(a[..|a| - 1], b[..|b| - 1]);
      assert a == a[..|a| - 1] + [a[|a| - 1]];
    }
  }

  // Pixels are two bytes, so no module's buffer may have an odd length.
  predicate EvenBuffers(q: seq<Packet>) {
    forall m :: m in Modules(q) ==> |ModuleData(q, m)| % 2 == 0
  }

  // Every module's buffer is a quarter of a frame.
  predicate FitsFrame(q: seq<Packet>) {
    forall m :: m in Modules(q) ==> 4 * |ModuleData(q, m)| == FRAME_BYTES
  }

  predicate Complete(q: seq<Packet>) {
    |Modules(q)| == 4
  }

  // What goes wrong, first thing first, when these packets are put together.
  function Fault(q: seq<Packet>): Option<AssembleError> {
    if !EvenBuffers(q) then Some(OddBuffer)
    else if 0 !in Modules(q) then Some(NoModuleZero)
    else if !FitsFrame(q) then Some(WrongShape)
    else None
  }

  // The faults by the sizes themselves: a quarter of a frame is 165888 bytes.
  lemma FaultIff(q: seq<Packet>)
    ensures Fault(q) == Some(OddBuffer) <==> exists m :: m in Modules(q) && |ModuleData(q, m)| % 2 == 1
    ensures Fault(q) == Some(NoModuleZero)
       <==> (forall m :: m in Modules(q) ==> |ModuleData(q, m)| % 2 == 0) && forall p :: p in q ==> p.header.part != 0
    ensures Fault(q) == None
       <==> (forall m :: m in Modules(q) ==> |ModuleData(q, m)| == 165888) && exists p :: p in q && p.header.part == 0
  {
  }

  predicate Emits(q: seq<Packet>) {
    Complete(q) && Fault(q).None?
  }

  // The frame made of these packets: module 0's header, and the modules' bytes in increasing module order.
  ghost predicate IsFrameOf(f: CompleteFrame, q: seq<Packet>) {
    && LastHeader(q, 0).Some?
    && var h := LastHeader(q, 0).value;
       f.header == FrameHeader(h.scan, h.frame, h.x, h.row, Arrivals(q))
       && exists ms :: IsSorting(ms, Modules(q)) && f.data == JoinModules(q, ms)
  }

  // ----- The dictionaries and the packets they stand for -----

  function Flatten(parts: seq<Bytes>): Bytes {
    if parts == [] then [] else Flatten(parts[..|parts| - 1]) + parts[|parts| - 1]
  }

  // The dictionary of buffers holds what each module sent.
  ghost predicate FilesData(byModule: map<int, seq<Bytes>>, q: seq<Packet>) {
    byModule.Keys == Modules(q) && forall m :: m in byModule ==> Flatten(byModule[m]) == ModuleData(q, m)
  }

  // The dictionary of headers holds each module's last header, in order of first arrival.
  ghost predicate FilesHeaders(hs: seq<CameraHeader>, q: seq<Packet>) {
    |hs| == |Arrivals(q)|
    && forall i :: 0 <= i < |hs| ==> hs[i].part == Arrivals(q)[i] && LastHeader(q, hs[i].part) == Some(hs[i])
  }

  lemma {:induction false} ArrivalsAreModules(q: seq<Packet>)
    ensures Elements(Arrivals(q)) == Modules(q) && NoDup(Arrivals(q))
    ensures forall m :: m in Modules(q) <==> LastHeader(q, m).Some?
  {
    if q != [] {
      var front, p := q[..|q| - 1], q[|q| - 1];
      assert q == front + [p];
      ArrivalsAreModules(front);
      assert Modules(q) == Modules(front) + {p.header.part};
    }
  }

  lemma {:induction false} NoDataFromOthers(q: seq<Packet>, m: int)
    requires m !in Modules(q)
    ensures ModuleData(q, m) == []
  {
    if q != [] {
      assert q[|q| - 1] in q;
      assert forall p :: p in q[..|q| - 1] ==> p in q;
      NoDataFromOthers(q[..|q| - 1], m);
    }
  }

  // Sets a module's header, keeping its place if it has one.
  function SetHeader(hs: seq<CameraHeader>, h: CameraHeader): seq<CameraHeader> {
    if hs == [] then [h]
    else if hs[|hs| - 1].part == h.part then hs[..|hs| - 1] + [h]
    else
      var init := SetHeader(hs[..|hs| - 1], h);
      if |init| == |hs| - 1 then init + [hs[|hs| - 1]]
      else hs + [h]
  }

  lemma {:induction false} SetHeaderIs(hs: seq<CameraHeader>, h: CameraHeader)
    requires forall i, j :: 0 <= i < j < |hs| ==> hs[i].part != hs[j].part
    ensures var r := SetHeader(hs, h);
            if exists i :: 0 <= i < |hs| && hs[i].part == h.part
            then |r| == |hs| && forall i :: 0 <= i < |hs| ==> r[i] == if hs[i].part == h.part then h else hs[i]
            else r == hs + [h]
  {
    if hs != [] {
      SetHeaderIs(hs[..|hs| - 1], h);
    }
  }

  function PutData(byModule: map<int, seq<Bytes>>, p: Packet): map<int, seq<Bytes>> {
    byModule[p.header.part := GetOr(byModule, p.header.part) + [p.data]]
  }

  lemma DataNext(byModule: map<int, seq<Bytes>>, q: seq<Packet>, p: Packet)
    requires FilesData(byModule, q)
    ensures FilesData(PutData(byModule, p), q + [p])
  {
    var m := p.header.part;
    var after := PutData(byModule, p);
    assert (q + [p])[..|q|] == q;
    assert Modules(q + [p]) == Modules(q) + {m} by {
      assert p in q + [p];
    }
    if m !in byModule {
      NoDataFromOthers(q, m);
    }
    assert (GetOr(byModule, m) + [p.data])[..|GetOr(byModule, m)|] == GetOr(byModule, m);
    forall n | n in after ensures Flatten(after[n]) == ModuleData(q + [p], n) {
    }
  }

  lemma HeadersNext(hs: seq<CameraHeader>, q: seq<Packet>, p: Packet)
    requires FilesHeaders(hs, q)
    ensures FilesHeaders(SetHeader(hs, p.header), q + [p])
  {
    var m := p.header.part;
    assert (q + [p])[..|q|] == q;
    ArrivalsAreModules(q);
    SetHeaderIs(hs, p.header);
    var r := SetHeader(hs, p.header);
    assert m in Arrivals(q) <==> exists i :: 0 <= i < |hs| && hs[i].part == m;
    forall i | 0 <= i < |r| ensures r[i].part == Arrivals(q + [p])[i] && LastHeader(q + [p], r[i].part) == Some(r[i]) {
    }
  }

  function GetOr(m: map<int, seq<Bytes>>, k: int): seq<Bytes> {
    if k in m then m[k] else []
  }

  function Get<T>(m: map<FrameKey, seq<T>>, k: FrameKey): seq<T> {
    if k in m then m[k] else []
  }

  function GetData(m: map<FrameKey, map<int, seq<Bytes>>>, k: FrameKey): map<int, seq<Bytes>> {
    if k in m then m[k] else map[]
  }

  // Both dictionaries file exactly the pending packets, frame by frame.
  ghost predicate Mirrors(frames: map<FrameKey, map<int, seq<Bytes>>>, headers: map<FrameKey, seq<CameraHeader>>,
                          pending: map<FrameKey, seq<Packet>>) {
    && frames.Keys == headers.Keys == pending.Keys
    && forall k :: k in pending ==> Files(frames[k], headers[k], pending[k])
  }

  ghost predicate Files(byModule: map<int, seq<Bytes>>, hs: seq<CameraHeader>, q: seq<Packet>) {
    FilesData(byModule, q) && FilesHeaders(hs, q)
  }

  lemma MirrorsPut(frames: map<FrameKey, map<int, seq<Bytes>>>, headers: map<FrameKey, seq<CameraHeader>>,
                   pending: map<FrameKey, seq<Packet>>, k: FrameKey, byModule: map<int, seq<Bytes>>,
                   hs: seq<CameraHeader>, q: seq<Packet>)
    requires Mirrors(frames, headers, pending) && FilesData(byModule, q) && FilesHeaders(hs, q)
    ensures Mirrors(frames[k := byModule], headers[k := hs], pending[k := q])
  {
  }

  lemma MirrorsNext(frames: map<FrameKey, map<int, seq<Bytes>>>, headers: map<FrameKey, seq<CameraHeader>>,
                    pending: map<FrameKey, seq<Packet>>, p: Packet)
    requires Mirrors(frames, headers, pending)
    ensures var k := p.header.Key();
            var byModule, hs, q := PutData(GetData(frames, k), p), SetHeader(Get(headers, k), p.header),
                Get(pending, k) + [p];
            Mirrors(frames[k := byModule], headers[k := hs], pending[k := q])
  {
    var k := p.header.Key();
    DataNext(GetData(frames, k), Get(pending, k), p);
    HeadersNext(Get(headers, k), Get(pending, k), p);
    MirrorsPut(frames, headers, pending, k, PutData(GetData(frames, k), p), SetHeader(Get(headers, k), p.header),
               Get(pending, k) + [p]);
  }

  // ----- The cache -----

  lemma Inhabited(s: set<int>)
    ensures s == {} || exists x :: x in s
  {
    if forall x :: x !in s {
      assert s == {};
    }
  }

  method Smallest(s: set<int>) returns (first: int)
    requires s != {}
    ensures first in s && forall y :: y in s ==> first <= y
  {
    Inhabited(s);
    var x :| x in s;
    first := x;
    var others := s - {first};
    while others != {}
      invariant first in s && others <= s && forall y :: y in s ==> y in others || first <= y
      decreases others
    {
      Inhabited(others);
      var y :| y in others;
      if y < first {
        first := y;
      }
      others := others - {y};
    }
  }

  method SortKeys(s: set<int>) returns (ms: seq<int>)
    ensures IsSorting(ms, s)
  {
    ms := [];
    var rest := s;
    while rest != {}
      invariant rest <= s && Increasing(ms) && Elements(ms) == s - rest
      invariant forall x, y :: x in Elements(ms) && y in rest ==> x < y
      decreases rest
    {
      var x := Smallest(rest);
      forall i | 0 <= i < |ms| ensures ms[i] < x {
        assert ms[i] in Elements(ms);
      }
      assert Elements(ms + [x]) == Elements(ms) + {x};
      ms, rest := ms + [x], rest - {x};
    }
  }

  lemma JoinNext(q: seq<Packet>, ms: seq<int>, i: nat)
    requires i < |ms|
    ensures JoinModules(q, ms[..i + 1]) == JoinModules(q, ms[..i]) + ModuleData(q, ms[i])
  {
    var next := ms[..i + 1];
    assert next[..|next| - 1] == ms[..i] && next[|next| - 1] == ms[i];
  }

  // What holds of each listed module's buffer holds of each module's.
  lemma ListedModules(q: seq<Packet>, ms: seq<int>)
    requires IsSorting(ms, Modules(q))
    ensures EvenBuffers(q) <==> forall j :: 0 <= j < |ms| ==> |ModuleData(q, ms[j])| % 2 == 0
    ensures FitsFrame(q) <==> forall j :: 0 <= j < |ms| ==> 4 * |ModuleData(q, ms[j])| == FRAME_BYTES
  {
  }

  // Joins the modules' buffers in the given order, noting whether all hold whole pixels and fit a frame.
  method JoinBuffers(byModule: map<int, seq<Bytes>>, ms: seq<int>, ghost q: seq<Packet>)
    returns (whole: Bytes, even: bool, fits: bool)
    requires FilesData(byModule, q) && IsSorting(ms, byModule.Keys)
    ensures whole == JoinModules(q, ms)
    ensures even <==> EvenBuffers(q)
    ensures fits <==> FitsFrame(q)
  {
    whole, even, fits := [], true, true;
    for i := 0 to |ms|
      invariant whole == JoinModules(q, ms[..i])
      invariant even <==> forall j :: 0 <= j < i ==> |ModuleData(q, ms[j])| % 2 == 0
      invariant fits <==> forall j :: 0 <= j < i ==> 4 * |ModuleData(q, ms[j])| == FRAME_BYTES
    {
      assert ms[i] in Elements(ms);
      JoinNext(q, ms, i);
      var buffer := Flatten(byModule[ms[i]]);
      whole := whole + buffer;
      even := even && |buffer| % 2 == 0;
      fits := fits && 4 * |buffer| == FRAME_BYTES;
    }
    assert ms[..|ms|] == ms;
    ListedModules(q, ms);
  }

  function HeaderModules(hs: seq<CameraHeader>): (ms: seq<int>)
    ensures |ms| == |hs| && forall i :: 0 <= i < |hs| ==> ms[i] == hs[i].part
  {
    seq(|hs|, i requires 0 <= i < |hs| => hs[i].part)
  }

  method FindHeader(hs: seq<CameraHeader>, m: int, ghost q: seq<Packet>) returns (r: Option<CameraHeader>)
    requires FilesHeaders(hs, q)
    ensures r == LastHeader(q, m)
    ensures r.Some? <==> m in Modules(q)
  {
    ArrivalsAreModules(q);
    for i := 0 to |hs|
      invariant m !in Arrivals(q)[..i]
    {
      if hs[i].part == m {
        assert m in Elements(Arrivals(q));
        return Some(hs[i]);
      }
    }
    assert m !in Elements(Arrivals(q));
    r := None;
  }

  // Puts a complete frame together from its two dictionaries.
  method PutTogether(byModule: map<int, seq<Bytes>>, hs: seq<CameraHeader>, ghost q: seq<Packet>)
    returns (r: Result<CompleteFrame, AssembleError>)
    requires FilesData(byModule, q) && FilesHeaders(hs, q)
    ensures if r.Failure? then Fault(q) == Some(r.error) else Fault(q).None? && IsFrameOf(r.value, q)
  {
    var ms := SortKeys(byModule.Keys);
    var whole, even, fits := JoinBuffers(byModule, ms, q);
    if !even {
      return Failure(OddBuffer);
    }
    var zero := FindHeader(hs, 0, q);
    if zero.None? {
      return Failure(NoModuleZero);
    }
    if !fits {
      return Failure(WrongShape);
    }
    var h := zero.value;
    assert HeaderModules(hs) == Arrivals(q);
    r := Success(CompleteFrame(FrameHeader(h.scan, h.frame, h.x, h.row, HeaderModules(hs)), whole));
  }

  class FrameCache {
    var frames: map<FrameKey, map<int, seq<Bytes>>>
    var headers: map<FrameKey, seq<CameraHeader>>  // one per module, in order of first arrival
    ghost var pending: map<FrameKey, seq<Packet>>  // what has arrived and not left, per frame

    ghost predicate Valid()
      reads this
    {
      Mirrors(frames, headers, pending)
    }

    constructor ()
      ensures Valid() && pending == map[]
    {
      frames, headers, pending := map[], map[], map[];
    }

    // Files a packet; true when its frame now has four modules.
    method AddFrame(p: Packet) returns (complete: bool)
      requires Valid()
      modifies this
      ensures Valid()
      ensures pending == old(pending)[p.header.Key() := Get(old(pending), p.header.Key()) + [p]]
      ensures complete <==> |set x | x in pending[p.header.Key()] :: x.header.part| == 4
    {
      FileAway(p);
      complete := |frames[p.header.Key()].Keys| == 4;
    }

    method FileAway(p: Packet)
      requires Valid()
      modifies this
      ensures Valid()
      ensures pending == old(pending)[p.header.Key() := Get(old(pending), p.header.Key()) + [p]]
    {
      var k := p.header.Key();
      MirrorsNext(frames, headers, pending, p);
      frames := frames[k := PutData(GetData(frames, k), p)];
      headers := headers[k := SetHeader(Get(headers, k), p.header)];
      pending := pending[k := Get(pending, k) + [p]];
    }

    // Joins the modules of a frame in module order and forgets the frame; on an error it stays.
    method GetCompleteFrame(k: FrameKey) returns (r: Result<CompleteFrame, AssembleError>)
      requires Valid() && k in pending
      modifies this
      ensures Valid()
      ensures var q := old(pending)[k];
              if r.Failure? then Fault(q) == Some(r.error) && pending == old(pending)
              else Fault(q).None? && IsFrameOf(r.value, q) && pending == old(pending) - {k}
    {
      r := PutTogether(frames[k], headers[k], pending[k]);
      if r.Success? {
        frames, headers, pending := frames - {k}, headers - {k}, pending - {k};
      }
    }

    // One packet in; a whole frame out, when the packet completes one.
    method Assemble(p: Packet) returns (r: Result<Option<CompleteFrame>, AssembleError>)
      requires Valid()
      modifies this
      ensures Valid()
      ensures pending == Next(old(pending), p)
      ensures Answers(r, Get(old(pending), p.header.Key()) + [p])
      ensures r == Success(None)
         <==> |set x | x in Get(old(pending), p.header.Key()) + [p] :: x.header.part| != 4
    {
      var k := p.header.Key();
      ghost var q := Get(pending, k) + [p];
      var complete := AddFrame(p);
      if !complete {
        return Success(None);
      }
      var frame := GetCompleteFrame(k);
      if frame.Failure? {
        return Failure(frame.error);
      }
      PutThenDrop(old(pending), k, q);
      return Success(Some(frame.value));
    }
  }

  lemma PutThenDrop(pending: map<FrameKey, seq<Packet>>, k: FrameKey, q: seq<Packet>)
    ensures pending[k := q] - {k} == pending - {k}
  {
  }

  // The answer to a packet that leaves its frame with packets q.
  ghost predicate Answers(r: Result<Option<CompleteFrame>, AssembleError>, q: seq<Packet>) {
    match r
    case Failure(e) => Complete(q) && Fault(q) == Some(e)
    case Success(None) => !Complete(q)
    case Success(Some(f)) => Emits(q) && IsFrameOf(f, q)
  }

  // ----- Whole streams -----

  // The cache after one more packet.
  function Next(pending: map<FrameKey, seq<Packet>>, p: Packet): map<FrameKey, seq<Packet>> {
    var k := p.header.Key();
    var q := Get(pending, k) + [p];
    if Emits(q) then pending - {k} else pending[k := q]
  }

  // What is in the cache and which groups of packets have left as frames, after a stream of packets.
  datatype Progress = Progress(pending: map<FrameKey, seq<Packet>>, emitted: seq<seq<Packet>>)

  function Take(s: Progress, p: Packet): Progress {
    var q := Get(s.pending, p.header.Key()) + [p];
    Progress(Next(s.pending, p), if Emits(q) then s.emitted + [q] else s.emitted)
  }

  function Feed(packets: seq<Packet>): Progress {
    if packets == [] then Progress(map[], []) else Take(Feed(packets[..|packets| - 1]), packets[|packets| - 1])
  }

  lemma FeedNext(packets: seq<Packet>, n: nat)
    requires n < |packets|
    ensures Feed(packets[..n + 1]) == Take(Feed(packets[..n]), packets[n])
  {
    var next := packets[..n + 1];
    assert next[..|next| - 1] == packets[..n] && next[|next| - 1] == packets[n];
  }

  // The frames are those of the groups, one by one.
  ghost predicate FramesOf(frames: seq<CompleteFrame>, groups: seq<seq<Packet>>) {
    |frames| == |groups| && forall i :: 0 <= i < |frames| ==> IsFrameOf(frames[i], groups[i])
  }

  lemma FramesNext(frames: seq<CompleteFrame>, s: Progress, p: Packet, r: Result<Option<CompleteFrame>, AssembleError>)
    requires FramesOf(frames, s.emitted) && Answers(r, Get(s.pending, p.header.Key()) + [p])
    ensures FramesOf(if r.Success? && r.value.Some? then frames + [r.value.value] else frames, Take(s, p).emitted)
  {
  }

  // The error that a packet raises which leaves its frame with packets q.
  function Raised(q: seq<Packet>): seq<AssembleError> {
    if Complete(q) && Fault(q).Some? then [Fault(q).value] else []
  }

  // The errors raised over a stream, in order.
  function Faults(packets: seq<Packet>): seq<AssembleError> {
    if packets == [] then [] else
    var front, p := packets[..|packets| - 1], packets[|packets| - 1];
    Faults(front) + Raised(Get(Feed(front).pending, p.header.Key()) + [p])
  }

  lemma FaultsNext(packets: seq<Packet>, n: nat)
    requires n < |packets|
    ensures Faults(packets[..n + 1])
         == Faults(packets[..n]) + Raised(Get(Feed(packets[..n]).pending, packets[n].header.Key()) + [packets[n]])
  {
    var next := packets[..n + 1];
    assert next[..|next| - 1] == packets[..n] && next[|next| - 1] == packets[n];
  }

  // The operator over a whole stream: the frames it sends are those of the groups that leave, in order.
  method AssembleAll(cache: FrameCache, packets: seq<Packet>)
    returns (frames: seq<CompleteFrame>, errors: seq<AssembleError>)
    requires cache.Valid() && cache.pending == map[]
    modifies cache
    ensures cache.Valid() && cache.pending == Feed(packets).pending
    ensures FramesOf(frames, Feed(packets).emitted) && errors == Faults(packets)
  {
    frames, errors := [], [];
    for n := 0 to |packets|
      invariant cache.Valid() && cache.pending == Feed(packets[..n]).pending
      invariant FramesOf(frames, Feed(packets[..n]).emitted) && errors == Faults(packets[..n])
    {
      FeedNext(packets, n);
      FaultsNext(packets, n);
      ghost var s := Feed(packets[..n]);
      var r := cache.Assemble(packets[n]);
      FramesNext(frames, s, packets[n], r);
      if r.Failure? {
        errors := errors + [r.error];
      } else if r.value.Some? {
        frames := frames + [r.value.value];
      }
    }
    assert packets[..|packets|] == packets;
  }

  // The packets of one frame, in order of arrival.
  function Of(packets: seq<Packet>, k: FrameKey): seq<Packet> {
    if packets == [] then [] else
    var init, p := Of(packets[..|packets| - 1], k), packets[|packets| - 1];
    if p.header.Key() == k then init + [p] else init
  }

  // The packets of one frame that have left, in order.
  function Departed(emitted: seq<seq<Packet>>, k: FrameKey): seq<Packet> {
    if emitted == [] then [] else Departed(emitted[..|emitted| - 1], k) + Of(emitted[|emitted| - 1], k)
  }

  ghost predicate AllOf(q: seq<Packet>, k: FrameKey) {
    forall p :: p in q ==> p.header.Key() == k
  }

  lemma {:induction false} OfAll(q: seq<Packet>, j: FrameKey, k: FrameKey)
    requires AllOf(q, j)
    ensures Of(q, k) == if j == k then q else []
  {
    if q != [] {
      assert q == q[..|q| - 1] + [q[|q| - 1]];
      OfAll(q[..|q| - 1], j, k);
    }
  }

  ghost predicate FiledByKey(pending: map<FrameKey, seq<Packet>>) {
    forall k :: k in pending ==> pending[k] != [] && AllOf(pending[k], k)
  }

  lemma {:induction false} AlwaysFiledByKey(packets: seq<Packet>)
    ensures FiledByKey(Feed(packets).pending)
  {
    if packets != [] {
      AlwaysFiledByKey(packets[..|packets| - 1]);
    }
  }

  // A group that leaves is recorded at the end, and counts for its own frame only.
  lemma DepartedNext(emitted: seq<seq<Packet>>, q: seq<Packet>, j: FrameKey, k: FrameKey)
    requires AllOf(q, j)
    ensures Departed(emitted + [q], k) == Departed(emitted, k) + if j == k then q else []
  {
    assert (emitted + [q])[..|emitted|] == emitted;
    OfAll(q, j, k);
  }

  // One packet more: what has left and what is cached, for any one frame, grow together by exactly that packet.
  lemma TakeConserves(s: Progress, p: Packet, k: FrameKey)
    requires FiledByKey(s.pending)
    ensures Departed(Take(s, p).emitted, k) + Get(Take(s, p).pending, k)
         == Departed(s.emitted, k) + Get(s.pending, k) + if p.header.Key() == k then [p] else []
  {
    var j := p.header.Key();
    var q := Get(s.pending, j) + [p];
    DepartedNext(s.emitted, q, j, k);
    Regroup(Departed(s.emitted, k), Get(s.pending, k), [p]);
  }

  lemma Regroup(a: seq<Packet>, b: seq<Packet>, c: seq<Packet>)
    ensures a + (b + c) == a + b + c && a + (b + c) + [] == a + b + c && a + [] + b == a + b == a + b + []
  {
  }

  // At every moment, for every frame, the packets received are those that left followed by those still cached.
  lemma {:induction false} NothingLostOrDoubled(packets: seq<Packet>, k: FrameKey)
    ensures Departed(Feed(packets).emitted, k) + Get(Feed(packets).pending, k) == Of(packets, k)
  {
    if packets != [] {
      var front := packets[..|packets| - 1];
      NothingLostOrDoubled(front, k);
      AlwaysFiledByKey(front);
      TakeConserves(Feed(front), packets[|packets| - 1], k);
    }
  }

  // ----- Streams in which every frame gets one packet from each module -----

  ghost predicate Quartet(q: seq<Packet>) {
    |q| == 4 && Modules(q) == {0, 1, 2, 3} && forall p :: p in q ==> |p.data| == 165888
  }

  // Every frame that has been started has had its four packets.
  ghost predicate Regular(packets: seq<Packet>) {
    forall k :: Of(packets, k) == [] || Quartet(Of(packets, k))
  }

  // So far, no frame has had more than its four packets.
  ghost predicate Orderly(packets: seq<Packet>) {
    forall k :: |Of(packets, k)| < 4 || Quartet(Of(packets, k))
  }

  lemma {:induction false} FewModules(q: seq<Packet>)
    ensures |Modules(q)| <= |q|
  {
    if q != [] {
      var front, p := q[..|q| - 1], q[|q| - 1];
      assert q == front + [p];
      FewModules(front);
      assert Modules(q) == Modules(front) + {p.header.part};
    }
  }

  ghost predicate DistinctModules(q: seq<Packet>) {
    forall i, j :: 0 <= i < j < |q| ==> q[i].header.part != q[j].header.part
  }

  // Four packets covering four modules repeat none.
  lemma {:induction false} CoveringRepeatsNone(q: seq<Packet>)
    requires |Modules(q)| == |q|
    ensures DistinctModules(q)
  {
    if q != [] {
      var front, p := q[..|q| - 1], q[|q| - 1];
      assert q == front + [p];
      FewModules(front);
      assert Modules(q) == Modules(front) + {p.header.part};
      assert p.header.part !in Modules(front);
      CoveringRepeatsNone(front);
      NewModuleDistinct(front, p, q);
    }
  }

  lemma NewModuleDistinct(front: seq<Packet>, p: Packet, q: seq<Packet>)
    requires DistinctModules(front) && p.header.part !in Modules(front) && q == front + [p]
    ensures DistinctModules(q)
  {
    forall i | 0 <= i < |front| ensures q[i].header.part != p.header.part {
      assert front[i] in front;
    }
  }

  // A module that sent one packet has that packet's data and header.
  lemma {:induction false} OnePacketEach(q: seq<Packet>, i: nat)
    requires DistinctModules(q) && i < |q|
    ensures ModuleData(q, q[i].header.part) == q[i].data
    ensures LastHeader(q, q[i].header.part) == Some(q[i].header)
  {
    var front := q[..|q| - 1];
    if i < |front| {
      OnePacketEach(front, i);
    } else {
      forall p | p in front ensures p.header.part != q[i].header.part {
      }
      NoDataFromOthers(front, q[i].header.part);
    }
  }

  lemma QuartetEmits(q: seq<Packet>)
    requires Quartet(q)
    ensures Emits(q)
  {
    CoveringRepeatsNone(q);
    forall m | m in Modules(q) ensures 4 * |ModuleData(q, m)| == FRAME_BYTES {
      var p :| p in q && p.header.part == m;
      var i :| 0 <= i < |q| && q[i] == p;
      OnePacketEach(q, i);
    }
  }

  lemma ShortDoesNotEmit(q: seq<Packet>)
    requires |q| < 4
    ensures !Emits(q)
  {
    FewModules(q);
  }

  predicate StartsFrame(q: seq<Packet>, k: FrameKey) {
    q != [] && q[0].header.Key() == k
  }

  function GroupsOf(k: FrameKey): seq<Packet> -> bool {
    q => StartsFrame(q, k)
  }

  // While a frame is short of packets they wait in the cache; its fourth packet sends it away, once.
  ghost predicate Settled(s: Progress, o: seq<Packet>, k: FrameKey) {
    if |o| < 4 then Get(s.pending, k) == o && Filter(GroupsOf(k), s.emitted) == []
    else k !in s.pending && Filter(GroupsOf(k), s.emitted) == [o]
  }

  // A packet of another frame changes nothing for this one.
  lemma TakeElsewhere(s: Progress, p: Packet, o: seq<Packet>, k: FrameKey)
    requires Settled(s, o, k) && FiledByKey(s.pending) && p.header.Key() != k
    ensures Settled(Take(s, p), o, k)
  {
  }

  lemma TakeHere(s: Progress, p: Packet, o: seq<Packet>)
    requires Settled(s, o, p.header.Key()) && FiledByKey(s.pending)
    requires |o| < 3 || (|o| == 3 && Quartet(o + [p]))
    ensures Settled(Take(s, p), o + [p], p.header.Key())
  {
    if |o| == 3 {
      QuartetEmits(o + [p]);
      assert StartsFrame(o + [p], p.header.Key());
    } else {
      ShortDoesNotEmit(o + [p]);
    }
  }

  lemma {:induction false} StreamSettles(packets: seq<Packet>, k: FrameKey)
    requires Orderly(packets)
    ensures Settled(Feed(packets), Of(packets, k), k)
  {
    if packets != [] {
      var front, p := packets[..|packets| - 1], packets[|packets| - 1];
      OrderlyFront(packets);
      StreamSettles(front, k);
      AlwaysFiledByKey(front);
      assert |Of(packets, k)| < 4 || Quartet(Of(packets, k));
      if p.header.Key() == k {
        TakeHere(Feed(front), p, Of(front, k));
      } else {
        TakeElsewhere(Feed(front), p, Of(front, k), k);
      }
    }
  }

  // However the packets of the frames interleave: every frame leaves exactly once, with exactly its four packets,
  // and at the end the cache is empty.
  lemma EveryFrameLeavesOnce(packets: seq<Packet>)
    requires Regular(packets)
    ensures Feed(packets).pending == map[]
    ensures forall k ::
              Filter(GroupsOf(k), Feed(packets).emitted) == if Of(packets, k) == [] then [] else [Of(packets, k)]
  {
    RegularIsOrderly(packets);
    AlwaysFiledByKey(packets);
    forall k
      ensures k !in Feed(packets).pending
      ensures Filter(GroupsOf(k), Feed(packets).emitted) == if Of(packets, k) == [] then [] else [Of(packets, k)]
    {
      assert Of(packets, k) == [] || Quartet(Of(packets, k));
      StreamSettles(packets, k);
    }
  }

  lemma RegularIsOrderly(packets: seq<Packet>)
    requires Regular(packets)
    ensures Orderly(packets)
  {
    forall k ensures |Of(packets, k)| < 4 || Quartet(Of(packets, k)) {
      assert Of(packets, k) == [] || Quartet(Of(packets, k));
    }
  }

  lemma OrderlyFront(packets: seq<Packet>)
    requires Orderly(packets) && packets != []
    ensures Orderly(packets[..|packets| - 1])
  {
    var front := packets[..|packets| - 1];
    forall k ensures |Of(front, k)| < 4 || Quartet(Of(front, k)) {
      assert |Of(packets, k)| < 4 || Quartet(Of(packets, k));
    }
  }

  // No error is raised as long as no frame has more than its four packets.
  lemma {:induction false} OrderlyRaisesNothing(packets: seq<Packet>)
    requires Orderly(packets)
    ensures Faults(packets) == []
  {
    if packets != [] {
      var front, p := packets[..|packets| - 1], packets[|packets| - 1];
      OrderlyFront(packets);
      OrderlyRaisesNothing(front);
      StreamSettles(front, p.header.Key());
      var q := Of(packets, p.header.Key());
      assert q == Of(front, p.header.Key()) + [p];
      if |q| < 4 {
        FewModules(q);
      } else {
        QuartetEmits(q);
      }
    }
  }

  // z lists the quartet's packets by module number.
  ghost predicate ByModule(z: seq<Packet>, q: seq<Packet>) {
    |z| == 4 && forall m :: 0 <= m < 4 ==> z[m] in q && z[m].header.part == m
  }

  lemma QuartetPart(q: seq<Packet>, z: seq<Packet>, m: nat)
    requires Quartet(q) && ByModule(z, q) && m < 4
    ensures ModuleData(q, m) == z[m].data && LastHeader(q, m) == Some(z[m].header)
  {
    CoveringRepeatsNone(q);
    var i :| 0 <= i < |q| && q[i] == z[m];
    OnePacketEach(q, i);
  }

  lemma QuartetData(q: seq<Packet>, z: seq<Packet>, ms: seq<int>)
    requires Quartet(q) && ByModule(z, q) && IsSorting(ms, {0, 1, 2, 3})
    ensures JoinModules(q, ms) == z[0].data + z[1].data + z[2].data + z[3].data
  {
    SortingUnique(ms, [0, 1, 2, 3]);
    JoinFour(q);
    QuartetPart(q, z, 0);
    QuartetPart(q, z, 1);
    QuartetPart(q, z, 2);
    QuartetPart(q, z, 3);
  }

  // The frame of a quartet: module 0's header, and the four modules' bytes in module order.
  lemma QuartetFrame(f: CompleteFrame, q: seq<Packet>, z: seq<Packet>)
    requires Quartet(q) && IsFrameOf(f, q) && ByModule(z, q)
    ensures f.data == z[0].data + z[1].data + z[2].data + z[3].data
    ensures f.header == FrameHeader(z[0].header.scan, z[0].header.frame, z[0].header.x, z[0].header.row, Arrivals(q))
    ensures Elements(f.header.modules) == {0, 1, 2, 3} && NoDup(f.header.modules)
  {
    var ms :| IsSorting(ms, Modules(q)) && f.data == JoinModules(q, ms);
    QuartetData(q, z, ms);
    QuartetPart(q, z, 0);
    ArrivalsAreModules(q);
  }

  lemma JoinFour(q: seq<Packet>)
    ensures JoinModules(q, [0, 1, 2, 3]) == ModuleData(q, 0) + ModuleData(q, 1) + ModuleData(q, 2) + ModuleData(q, 3)
  {
    assert [0, 1, 2, 3][..3] == [0, 1, 2] && [0, 1, 2][..2] == [0, 1] && [0, 1][..1] == [0] && [0][..0] == [];
    assert JoinModules(q, [0]) == ModuleData(q, 0);
    assert JoinModules(q, [0, 1]) == ModuleData(q, 0) + ModuleData(q, 1);
    assert JoinModules(q, [0, 1, 2]) == ModuleData(q, 0) + ModuleData(q, 1) + ModuleData(q, 2);
  }

  // The same four packets in another order give the same frame, but for the recorded order of arrival.
  lemma ArrivalOrderIsIrrelevant(f: CompleteFrame, g: CompleteFrame, q: seq<Packet>, q': seq<Packet>)
    requires Quartet(q) && Quartet(q') && multiset(q) == multiset(q')
    requires IsFrameOf(f, q) && IsFrameOf(g, q')
    ensures f.data == g.data
    ensures f.header.(modules := []) == g.header.(modules := [])
  {
    var z := Places(q);
    forall p | p in q ensures p in q' {
      assert p in multiset(q');
    }
    QuartetFrame(f, q, z);
    QuartetFrame(g, q', z);
  }

  lemma Places(q: seq<Packet>) returns (z: seq<Packet>)
    requires Quartet(q)
    ensures ByModule(z, q)
  {
    assert 0 in Modules(q) && 1 in Modules(q) && 2 in Modules(q) && 3 in Modules(q);
    var a :| a in q && a.header.part == 0;
    var b :| b in q && b.header.part == 1;
    var c :| c in q && c.header.part == 2;
    var d :| d in q && d.header.part == 3;
    z := [a, b, c, d];
  }

  // ----- What the operator sends over a regular stream -----

  function KeyOf(f: CompleteFrame): FrameKey {
    FrameKey(f.header.scan, f.header.frame)
  }

  // The frame of these four packets: module 0's header, and the bytes of modules 0 to 3 in that order.
  ghost predicate Assembled(f: CompleteFrame, q: seq<Packet>) {
    exists z :: ByModule(z, q) && Joins(f, q, z)
  }

  predicate Joins(f: CompleteFrame, q: seq<Packet>, z: seq<Packet>)
    requires |z| == 4
  {
    && f.data == z[0].data + z[1].data + z[2].data + z[3].data && |f.data| == 663552
    && f.header == FrameHeader(z[0].header.scan, z[0].header.frame, z[0].header.x, z[0].header.row, Arrivals(q))
  }

  // Exactly one frame for every frame of which there are packets, made of them.
  ghost predicate OneFrameEach(frames: seq<CompleteFrame>, packets: seq<Packet>) {
    && (forall i :: 0 <= i < |frames| ==> Assembled(frames[i], Of(packets, KeyOf(frames[i]))))
    && (forall i, j :: 0 <= i < j < |frames| ==> KeyOf(frames[i]) != KeyOf(frames[j]))
    && (forall p :: p in packets ==> exists i :: 0 <= i < |frames| && KeyOf(frames[i]) == p.header.Key())
  }

  lemma {:induction false} OfItsFrame(packets: seq<Packet>, k: FrameKey)
    ensures AllOf(Of(packets, k), k) && forall p :: p in packets && p.header.Key() == k ==> p in Of(packets, k)
  {
    if packets != [] {
      var front, p := packets[..|packets| - 1], packets[|packets| - 1];
      assert packets == front + [p];
      OfItsFrame(front, k);
    }
  }

  lemma {:induction false} GroupsHavePackets(packets: seq<Packet>)
    ensures forall q :: q in Feed(packets).emitted ==> q != []
  {
    if packets != [] {
      GroupsHavePackets(packets[..|packets| - 1]);
    }
  }

  // The group that left i-th is all the packets of its frame.
  lemma GroupIsWhole(packets: seq<Packet>, i: nat) returns (k: FrameKey)
    requires Regular(packets) && i < |Feed(packets).emitted|
    ensures StartsFrame(Feed(packets).emitted[i], k) && Feed(packets).emitted[i] == Of(packets, k)
    ensures Quartet(Of(packets, k))
  {
    var emitted := Feed(packets).emitted;
    var q := emitted[i];
    GroupsHavePackets(packets);
    assert q in emitted;
    k := q[0].header.Key();
    EveryFrameLeavesOnce(packets);
    assert q in Filter(GroupsOf(k), emitted);
    assert Filter(GroupsOf(k), emitted) == if Of(packets, k) == [] then [] else [Of(packets, k)];
    assert Of(packets, k) == [] || Quartet(Of(packets, k));
  }

  lemma TwiceKept(keep: seq<Packet> -> bool, groups: seq<seq<Packet>>, i: nat, j: nat)
    requires i < j < |groups| && keep(groups[i]) && keep(groups[j])
    ensures |Filter(keep, groups)| >= 2
  {
    var a, b := groups[..j], groups[j..];
    assert groups == a + b && groups[i] in a && groups[j] in b;
    FilterConcat(keep, a, b);
    assert groups[i] in Filter(keep, a) && groups[j] in Filter(keep, b);
  }

  lemma GroupsOfDistinctFrames(packets: seq<Packet>, i: nat, j: nat, k: FrameKey)
    requires Regular(packets) && i < j < |Feed(packets).emitted|
    ensures !(StartsFrame(Feed(packets).emitted[i], k) && StartsFrame(Feed(packets).emitted[j], k))
  {
    var emitted := Feed(packets).emitted;
    EveryFrameLeavesOnce(packets);
    assert |Filter(GroupsOf(k), emitted)| <= 1;
    if StartsFrame(emitted[i], k) && StartsFrame(emitted[j], k) {
      TwiceKept(GroupsOf(k), emitted, i, j);
    }
  }

  lemma FrameAssembled(packets: seq<Packet>, f: CompleteFrame, i: nat)
    requires Regular(packets) && i < |Feed(packets).emitted| && IsFrameOf(f, Feed(packets).emitted[i])
    ensures Assembled(f, Of(packets, KeyOf(f))) && StartsFrame(Feed(packets).emitted[i], KeyOf(f))
  {
    var k := GroupIsWhole(packets, i);
    var z := Places(Of(packets, k));
    QuartetFrame(f, Of(packets, k), z);
    OfItsFrame(packets, k);
    assert KeyOf(f) == z[0].header.Key() == k;
  }

  lemma FrameFor(packets: seq<Packet>, p: Packet) returns (i: nat)
    requires Regular(packets) && p in packets
    ensures i < |Feed(packets).emitted| && StartsFrame(Feed(packets).emitted[i], p.header.Key())
  {
    var k, emitted := p.header.Key(), Feed(packets).emitted;
    OfItsFrame(packets, k);
    EveryFrameLeavesOnce(packets);
    assert Filter(GroupsOf(k), emitted) == [Of(packets, k)] && Of(packets, k) in [Of(packets, k)];
    i :| 0 <= i < |emitted| && emitted[i] == Of(packets, k);
  }

  lemma FramesOneEach(packets: seq<Packet>, frames: seq<CompleteFrame>)
    requires Regular(packets) && FramesOf(frames, Feed(packets).emitted)
    ensures OneFrameEach(frames, packets)
  {
    forall i | 0 <= i < |frames|
      ensures Assembled(frames[i], Of(packets, KeyOf(frames[i])))
      ensures StartsFrame(Feed(packets).emitted[i], KeyOf(frames[i]))
    {
      FrameAssembled(packets, frames[i], i);
    }
    forall i, j | 0 <= i < j < |frames| ensures KeyOf(frames[i]) != KeyOf(frames[j]) {
      GroupsOfDistinctFrames(packets, i, j, KeyOf(frames[i]));
    }
    forall p | p in packets ensures exists i :: 0 <= i < |frames| && KeyOf(frames[i]) == p.header.Key() {
      var i := FrameFor(packets, p);
      assert KeyOf(frames[i]) == p.header.Key();
    }
  }

  // However the packets of the frames interleave: no error, exactly one frame for each, with its four modules' bytes in
  // module order, and a cache that holds nothing.
  method AssembleRegular(packets: seq<Packet>)
    returns (cache: FrameCache, frames: seq<CompleteFrame>, errors: seq<AssembleError>)
    requires Regular(packets)
    ensures OneFrameEach(frames, packets) && errors == []
    ensures cache.Valid() && cache.frames == map[] && cache.headers == map[]
  {
    cache := new FrameCache();
    frames, errors := AssembleAll(cache, packets);
    FramesOneEach(packets, frames);
    RegularIsOrderly(packets);
    OrderlyRaisesNothing(packets);
    EveryFrameLeavesOnce(packets);
  }
}
