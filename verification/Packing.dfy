/** How the emitter packs scan positions into size-limited batches: greedily, in order, never splitting a position. */
module Packing {

  function Sum(sizes: seq<nat>, lo: nat, hi: nat): nat
    requires lo <= hi <= |sizes|
  {
    if lo == hi then 0 else Sum(sizes, lo, hi - 1) + sizes[hi - 1]
  }

  lemma {:induction false} SumSplit(sizes: seq<nat>, lo: nat, mid: nat, hi: nat)
    requires lo <= mid <= hi <= |sizes|
    ensures Sum(sizes, lo, hi) == Sum(sizes, lo, mid) + Sum(sizes, mid, hi)
  {
    if mid < hi {
      SumSplit(sizes, lo, mid, hi - 1);
    }
  }

  // A batch: the positions from `lo` up to but not including `hi`.
  datatype Span = Span(lo: nat, hi: nat)

  // A batch that already holds something ends before a position that would bring it to the limit.
  predicate Closes(bytes: nat, next: nat, limit: nat) {
    bytes > 0 && bytes + next >= limit
  }

  // Where a batch ends that has `bytes` bytes from the positions before `i`.
  function End(sizes: seq<nat>, limit: nat, i: nat, bytes: nat): (hi: nat)
    requires i <= |sizes|
    ensures i <= hi <= |sizes|
    ensures bytes == 0 && i < |sizes| ==> i < hi
    decreases |sizes| - i
  {
    if i == |sizes| || Closes(bytes, sizes[i], limit) then i else End(sizes, limit, i + 1, bytes + sizes[i])
  }

  // The batches made of the positions from `lo` on.
  function Cuts(sizes: seq<nat>, limit: nat, lo: nat): seq<Span>
    requires lo <= |sizes|
    decreases |sizes| - lo
  {
    if lo == |sizes| then [] else
    var hi := End(sizes, limit, lo, 0);
    [Span(lo, hi)] + Cuts(sizes, limit, hi)
  }

  function SpanBytes(sizes: seq<nat>, s: Span): nat
    requires s.lo <= s.hi <= |sizes|
  {
    Sum(sizes, s.lo, s.hi)
  }

  // Consecutive non-empty spans from `lo` to the end: nothing is dropped, repeated, reordered or split.
  ghost predicate Partitions(spans: seq<Span>, lo: nat, n: nat) {
    if spans == [] then lo == n
    else spans[0].lo == lo < spans[0].hi <= n && Partitions(spans[1..], spans[0].hi, n)
  }

  lemma {:induction false} CutsPartition(sizes: seq<nat>, limit: nat, lo: nat)
    requires lo <= |sizes|
    ensures Partitions(Cuts(sizes, limit, lo), lo, |sizes|)
    decreases |sizes| - lo
  {
    if lo < |sizes| {
      var hi := End(sizes, limit, lo, 0);
      CutsPartition(sizes, limit, hi);
      assert Cuts(sizes, limit, lo)[1..] == Cuts(sizes, limit, hi);
    }
  }

  lemma {:induction false} PartitionAt(spans: seq<Span>, lo: nat, n: nat, k: nat)
    requires Partitions(spans, lo, n) && k < |spans|
    ensures lo <= spans[k].lo < spans[k].hi <= n
    ensures k + 1 < |spans| ==> spans[k].hi == spans[k + 1].lo
    ensures k + 1 == |spans| ==> spans[k].hi == n
    ensures k == 0 ==> spans[k].lo == lo
  {
    if k == 0 {
      if |spans| > 1 {
        assert spans[1..][0] == spans[1];
      } else {
        assert spans[1..] == [];
      }
    } else {
      PartitionAt(spans[1..], spans[0].hi, n, k - 1);
      assert spans[1..][k - 1] == spans[k];
      if k + 1 < |spans| {
        assert spans[1..][k] == spans[k + 1];
      }
    }
  }

  // ----- Bounds on one batch and on two neighbours -----

  // All of the batch's bytes sit in its last position.
  predicate LastHoldsAll(sizes: seq<nat>, s: Span)
    requires s.lo < s.hi <= |sizes|
  {
    SpanBytes(sizes, s) == sizes[s.hi - 1]
  }

  lemma {:induction false} EndBounds(sizes: seq<nat>, limit: nat, lo: nat, i: nat)
    requires lo <= i <= |sizes| && lo < |sizes|
    requires lo < i ==> Sum(sizes, lo, i) < limit || Sum(sizes, lo, i) == sizes[i - 1]
    ensures var hi := End(sizes, limit, i, Sum(sizes, lo, i));
            && lo < hi
            && (Sum(sizes, lo, hi) < limit || Sum(sizes, lo, hi) == sizes[hi - 1])
            && (hi < |sizes| ==> Closes(Sum(sizes, lo, hi), sizes[hi], limit))
    decreases |sizes| - i
  {
    if i < |sizes| && !Closes(Sum(sizes, lo, i), sizes[i], limit) {
      assert Sum(sizes, lo, i + 1) == Sum(sizes, lo, i) + sizes[i];
      EndBounds(sizes, limit, lo, i + 1);
    }
  }

  // Every batch is below the limit, or holds all its bytes in its last position; every batch but the last
  // holds something, and together with the first position after it reaches the limit.
  lemma {:induction false} BatchBounds(sizes: seq<nat>, limit: nat, lo: nat, k: nat)
    requires lo <= |sizes| && k < |Cuts(sizes, limit, lo)|
    ensures var s := Cuts(sizes, limit, lo)[k];
            && s.lo < s.hi <= |sizes|
            && (SpanBytes(sizes, s) < limit || LastHoldsAll(sizes, s))
            && (s.hi < |sizes| ==> Closes(SpanBytes(sizes, s), sizes[s.hi], limit))
    decreases |sizes| - lo
  {
    var hi := End(sizes, limit, lo, 0);
    if k == 0 {
      assert Sum(sizes, lo, lo) == 0;
      EndBounds(sizes, limit, lo, lo);
    } else {
      BatchBounds(sizes, limit, hi, k - 1);
      assert Cuts(sizes, limit, lo)[k] == Cuts(sizes, limit, hi)[k - 1];
    }
  }

  lemma {:induction false} FirstAtMostSum(sizes: seq<nat>, lo: nat, hi: nat)
    requires lo < hi <= |sizes|
    ensures sizes[lo] <= Sum(sizes, lo, hi)
  {
    if lo + 1 < hi {
      FirstAtMostSum(sizes, lo, hi - 1);
    }
  }

  // Two neighbouring batches together reach the limit, and the first is not empty of bytes.
  lemma NeighboursReachLimit(sizes: seq<nat>, limit: nat, k: nat)
    requires k + 1 < |Cuts(sizes, limit, 0)|
    ensures var spans := Cuts(sizes, limit, 0);
            && spans[k].lo < spans[k].hi == spans[k + 1].lo < spans[k + 1].hi <= |sizes|
            && SpanBytes(sizes, spans[k]) > 0
            && SpanBytes(sizes, spans[k]) + SpanBytes(sizes, spans[k + 1]) >= limit
  {
    var spans := Cuts(sizes, limit, 0);
    CutsPartition(sizes, limit, 0);
    PartitionAt(spans, 0, |sizes|, k);
    PartitionAt(spans, 0, |sizes|, k + 1);
    BatchBounds(sizes, limit, 0, k);
    FirstAtMostSum(sizes, spans[k + 1].lo, spans[k + 1].hi);
  }

  // ----- The packing is the only one of its kind -----

  // The batch runs until, and no further than, the first position that would close it.
  ghost predicate Maximal(sizes: seq<nat>, limit: nat, s: Span)
    requires s.lo < s.hi <= |sizes|
  {
    && (forall i :: s.lo < i < s.hi ==> !Closes(Sum(sizes, s.lo, i), sizes[i], limit))
    && (s.hi < |sizes| ==> Closes(Sum(sizes, s.lo, s.hi), sizes[s.hi], limit))
  }

  ghost predicate AllMaximal(sizes: seq<nat>, limit: nat, spans: seq<Span>) {
    forall k :: 0 <= k < |spans| ==> spans[k].lo < spans[k].hi <= |sizes| && Maximal(sizes, limit, spans[k])
  }

  lemma OpenUntilEnd(sizes: seq<nat>, limit: nat, s: Span, i: nat)
    requires s.lo <= i < s.hi <= |sizes| && Maximal(sizes, limit, s)
    ensures !Closes(Sum(sizes, s.lo, i), sizes[i], limit)
    ensures Sum(sizes, s.lo, i + 1) == Sum(sizes, s.lo, i) + sizes[i]
  {
    assert i == s.lo ==> Sum(sizes, s.lo, i) == 0;
  }

  lemma {:induction false} EndIsFirstClose(sizes: seq<nat>, limit: nat, s: Span, i: nat)
    requires s.lo < s.hi <= |sizes| && s.lo <= i <= s.hi && Maximal(sizes, limit, s)
    ensures End(sizes, limit, i, Sum(sizes, s.lo, i)) == s.hi
    decreases s.hi - i
  {
    if i < s.hi {
      OpenUntilEnd(sizes, limit, s, i);
      EndIsFirstClose(sizes, limit, s, i + 1);
    }
  }

  lemma {:induction false} EndIsMaximal(sizes: seq<nat>, limit: nat, lo: nat, i: nat)
    requires lo <= i <= |sizes| && lo < |sizes|
    requires forall j :: lo < j < i ==> !Closes(Sum(sizes, lo, j), sizes[j], limit)
    ensures var hi := End(sizes, limit, i, Sum(sizes, lo, i));
            lo < hi && Maximal(sizes, limit, Span(lo, hi))
    decreases |sizes| - i
  {
    if i < |sizes| && !Closes(Sum(sizes, lo, i), sizes[i], limit) {
      assert Sum(sizes, lo, i + 1) == Sum(sizes, lo, i) + sizes[i];
      EndIsMaximal(sizes, limit, lo, i + 1);
    }
  }

  lemma {:induction false} CutsAreMaximal(sizes: seq<nat>, limit: nat, lo: nat)
    requires lo <= |sizes|
    ensures AllMaximal(sizes, limit, Cuts(sizes, limit, lo))
    decreases |sizes| - lo
  {
    if lo < |sizes| {
      assert Sum(sizes, lo, lo) == 0;
      EndIsMaximal(sizes, limit, lo, lo);
      CutsAreMaximal(sizes, limit, End(sizes, limit, lo, 0));
    }
  }

  lemma TailMaximal(sizes: seq<nat>, limit: nat, spans: seq<Span>)
    requires spans != [] && AllMaximal(sizes, limit, spans)
    ensures AllMaximal(sizes, limit, spans[1..])
  {
    forall k | 0 <= k < |spans[1..]|
      ensures spans[1..][k].lo < spans[1..][k].hi <= |sizes| && Maximal(sizes, limit, spans[1..][k])
    {
      assert spans[1..][k] == spans[k + 1];
    }
  }

  lemma FirstCut(sizes: seq<nat>, limit: nat, lo: nat, spans: seq<Span>, rest: seq<Span>)
    requires lo < |sizes| && spans != [] && spans[0] == Span(lo, End(sizes, limit, lo, 0))
    requires rest == spans[1..] && rest == Cuts(sizes, limit, End(sizes, limit, lo, 0))
    ensures spans == Cuts(sizes, limit, lo)
  {
    assert spans == [spans[0]] + rest;
  }

  lemma {:induction false} MaximalAreCuts(sizes: seq<nat>, limit: nat, lo: nat, spans: seq<Span>)
    requires lo <= |sizes| && Partitions(spans, lo, |sizes|) && AllMaximal(sizes, limit, spans)
    ensures spans == Cuts(sizes, limit, lo)
    decreases |spans|
  {
    if spans != [] {
      assert Sum(sizes, lo, lo) == 0;
      EndIsFirstClose(sizes, limit, spans[0], lo);
      TailMaximal(sizes, limit, spans);
      MaximalAreCuts(sizes, limit, spans[0].hi, spans[1..]);
      FirstCut(sizes, limit, lo, spans, spans[1..]);
    }
  }

  // A split into consecutive maximal batches exists and is unique: the one the emitter makes.
  lemma OnlyMaximalPacking(sizes: seq<nat>, limit: nat, lo: nat, spans: seq<Span>)
    requires lo <= |sizes|
    ensures Partitions(spans, lo, |sizes|) && AllMaximal(sizes, limit, spans) <==> spans == Cuts(sizes, limit, lo)
  {
    if Partitions(spans, lo, |sizes|) && AllMaximal(sizes, limit, spans) {
      MaximalAreCuts(sizes, limit, lo, spans);
    }
    CutsPartition(sizes, limit, lo);
    CutsAreMaximal(sizes, limit, lo);
  }

  // ----- How many batches -----

  // The first 2m batches hold at least m * limit bytes.
  lemma {:induction false} PairsHold(sizes: seq<nat>, limit: nat, m: nat)
    requires 0 < 2 * m <= |Cuts(sizes, limit, 0)|
    ensures Cuts(sizes, limit, 0)[2 * m - 1].hi <= |sizes|
    ensures Sum(sizes, 0, Cuts(sizes, limit, 0)[2 * m - 1].hi) >= m * limit
  {
    var spans := Cuts(sizes, limit, 0);
    var a, b := spans[2 * m - 2], spans[2 * m - 1];
    NeighboursReachLimit(sizes, limit, 2 * m - 2);
    CutsPartition(sizes, limit, 0);
    PartitionAt(spans, 0, |sizes|, 2 * m - 2);
    SumSplit(sizes, 0, a.lo, b.hi);
    SumSplit(sizes, a.lo, a.hi, b.hi);
    if m > 1 {
      PairsHold(sizes, limit, m - 1);
      PartitionAt(spans, 0, |sizes|, 2 * m - 3);
      assert (m - 1) * limit + limit == m * limit;
    }
  }

  // The number of batches is at most twice the total over the limit, rounded down, plus one.
  lemma BatchCountBound(sizes: seq<nat>, limit: nat)
    requires limit >= 1
    ensures |Cuts(sizes, limit, 0)| <= 2 * (Sum(sizes, 0, |sizes|) / limit) + 1
  {
    var spans := Cuts(sizes, limit, 0);
    var m := |spans| / 2;
    if m > 0 {
      PairsHold(sizes, limit, m);
      SumSplit(sizes, 0, spans[2 * m - 1].hi, |sizes|);
      var total := Sum(sizes, 0, |sizes|);
      assert m * limit <= total;
      QuotientAtLeast(m, limit, total);
    }
  }

  lemma QuotientAtLeast(m: nat, limit: nat, total: nat)
    requires limit >= 1 && m * limit <= total
    ensures m <= total / limit
  {
    var q := total / limit;
    assert total < (q + 1) * limit;
    if q < m {
      TimesMonotone(q + 1, m, limit);
    }
  }

  lemma TimesMonotone(a: nat, b: nat, c: nat)
    requires a <= b
    ensures a * c <= b * c
  {
  }

  // ----- Counting ahead -----

  // What the separate counting loop announces: one less than the batches made when the last of them holds no bytes.
  function Announced(sizes: seq<nat>, limit: nat): nat {
    var spans := Cuts(sizes, limit, 0);
    if spans == [] then 0 else
    CutsPartition(sizes, limit, 0);
    PartitionAt(spans, 0, |sizes|, |spans| - 1);
    if SpanBytes(sizes, spans[|spans| - 1]) == 0 then |spans| - 1 else |spans|
  }

  predicate EmptyFrom(sizes: seq<nat>, lo: nat) {
    forall i :: lo <= i < |sizes| ==> sizes[i] == 0
  }

  // A position that fills a batch by itself; empty ones, at least one, are all that follows.
  predicate FillsBeforeEmpty(sizes: seq<nat>, limit: nat, j: nat) {
    j + 1 < |sizes| && sizes[j] > 0 && sizes[j] >= limit && EmptyFrom(sizes, j + 1)
  }

  // The sizes for which the count comes out one short.
  predicate HollowEnd(sizes: seq<nat>, limit: nat) {
    EmptyFrom(sizes, 0) || exists j :: 0 <= j < |sizes| && FillsBeforeEmpty(sizes, limit, j)
  }

  lemma {:induction false} SumZeroIff(sizes: seq<nat>, lo: nat, hi: nat)
    requires lo <= hi <= |sizes|
    ensures Sum(sizes, lo, hi) == 0 <==> forall i :: lo <= i < hi ==> sizes[i] == 0
  {
    if lo < hi {
      SumZeroIff(sizes, lo, hi - 1);
    }
  }

  // The last batch runs to the end of the scan.
  lemma LastCut(sizes: seq<nat>, limit: nat) returns (last: Span)
    requires sizes != []
    ensures Cuts(sizes, limit, 0) != [] && last == Cuts(sizes, limit, 0)[|Cuts(sizes, limit, 0)| - 1]
    ensures last.lo < last.hi == |sizes| && Maximal(sizes, limit, last)
    ensures SpanBytes(sizes, last) == 0 <==> EmptyFrom(sizes, last.lo)
  {
    var spans := Cuts(sizes, limit, 0);
    last := spans[|spans| - 1];
    CutsPartition(sizes, limit, 0);
    PartitionAt(spans, 0, |sizes|, |spans| - 1);
    CutsAreMaximal(sizes, limit, 0);
    SumZeroIff(sizes, last.lo, last.hi);
  }

  // What comes before an empty last batch is one position that fills its batch by itself.
  lemma FilledBefore(sizes: seq<nat>, limit: nat, last: Span)
    requires sizes != [] && |Cuts(sizes, limit, 0)| > 1 && last == Cuts(sizes, limit, 0)[|Cuts(sizes, limit, 0)| - 1]
    requires EmptyFrom(sizes, last.lo)
    ensures last.lo > 0 && FillsBeforeEmpty(sizes, limit, last.lo - 1)
  {
    var spans, k := Cuts(sizes, limit, 0), |Cuts(sizes, limit, 0)| - 2;
    CutsPartition(sizes, limit, 0);
    PartitionAt(spans, 0, |sizes|, k);
    PartitionAt(spans, 0, |sizes|, k + 1);
    BatchBounds(sizes, limit, 0, k);
  }

  // No position that fills its batch is followed, within that batch, by an empty one.
  lemma NoneFillsInside(sizes: seq<nat>, limit: nat, last: Span, j: nat)
    requires last.lo < last.hi == |sizes| && Maximal(sizes, limit, last) && last.lo <= j
    ensures !FillsBeforeEmpty(sizes, limit, j)
  {
    if j + 1 < |sizes| {
      assert Sum(sizes, last.lo, j + 1) == Sum(sizes, last.lo, j) + sizes[j];
      assert !Closes(Sum(sizes, last.lo, j + 1), sizes[j + 1], limit);
    }
  }

  // The last batch holds no bytes exactly for the sizes with a hollow end.
  lemma LastEmptyIff(sizes: seq<nat>, limit: nat)
    requires sizes != []
    ensures var spans := Cuts(sizes, limit, 0);
            && spans != [] && spans[|spans| - 1].lo < spans[|spans| - 1].hi <= |sizes|
            && (SpanBytes(sizes, spans[|spans| - 1]) == 0 <==> HollowEnd(sizes, limit))
  {
    var last := LastCut(sizes, limit);
    if EmptyFrom(sizes, last.lo) && |Cuts(sizes, limit, 0)| > 1 {
      FilledBefore(sizes, limit, last);
    } else if EmptyFrom(sizes, last.lo) {
      CutsPartition(sizes, limit, 0);
    }
    forall j | last.lo <= j < |sizes| ensures !FillsBeforeEmpty(sizes, limit, j) {
      NoneFillsInside(sizes, limit, last, j);
    }
  }

  // The announced count is the number of batches made, except that it is one short for sizes with a hollow end.
  lemma AnnouncedIff(sizes: seq<nat>, limit: nat)
    requires sizes != []
    ensures Announced(sizes, limit) == |Cuts(sizes, limit, 0)| - (if HollowEnd(sizes, limit) then 1 else 0)
  {
    LastEmptyIff(sizes, limit);
  }

  // A scan of one empty position, and one whose last position is empty after one that fills a batch.
  lemma AnnouncedShort()
    ensures Announced([0], 1) == 0 && Cuts([0], 1, 0) == [Span(0, 1)]
    ensures Announced([5, 0], 3) == 1 && Cuts([5, 0], 3, 0) == [Span(0, 1), Span(1, 2)]
  {
    assert End([0], 1, 0, 0) == 1;
    assert Cuts([0], 1, 1) == [];
    assert EmptyFrom([0], 0);
    AnnouncedIff([0], 1);
    assert End([5, 0], 3, 0, 0) == 1 && End([5, 0], 3, 1, 0) == 2;
    assert Cuts([5, 0], 3, 2) == [];
    assert Cuts([5, 0], 3, 1) == [Span(1, 2)];
    assert FillsBeforeEmpty([5, 0], 3, 0);
    AnnouncedIff([5, 0], 3);
  }

  // The count computed in advance, by a loop of its own.
  method CountBatches(sizes: seq<nat>, limit: nat) returns (count: nat)
    ensures count == Announced(sizes, limit)
  {
    count := 0;
    var bytes: nat := 0;
    ghost var lo := 0;
    ghost var done: seq<Span> := [];
    for i := 0 to |sizes|
      invariant lo <= i && (lo == i ==> i == 0) && bytes == Sum(sizes, lo, i)
      invariant count == |done| && Cuts(sizes, limit, 0) == done + Cuts(sizes, limit, lo)
      invariant End(sizes, limit, lo, 0) == End(sizes, limit, i, bytes)
    {
      if bytes > 0 && bytes + sizes[i] >= limit {
        assert End(sizes, limit, lo, 0) == i;
        assert Cuts(sizes, limit, lo) == [Span(lo, i)] + Cuts(sizes, limit, i);
        done, lo := done + [Span(lo, i)], i;
        count := count + 1;
        bytes := sizes[i];
        assert Sum(sizes, i, i + 1) == Sum(sizes, i, i) + sizes[i];
      } else {
        bytes := bytes + sizes[i];
      }
    }
    if |sizes| > 0 {
      assert Cuts(sizes, limit, |sizes|) == [];
      assert Cuts(sizes, limit, lo) == [Span(lo, |sizes|)];
      assert Cuts(sizes, limit, 0) == done + [Span(lo, |sizes|)];
    }
    if bytes > 0 {
      count := count + 1;
    }
  }
}
