/** Capacity candidates and the order in which machines are tried (scheduling.py). */
module Scheduling {
  import opened Common

  datatype CapacityCandidate = CapacityCandidate(
    name: string,
    configuredCores: int,
    load5: real,
    priority: int,
    activeRunCount: int,
    allocatedCores: int,
    allocationUnknown: bool)
  {
    /** What `rank_candidates` demands of every candidate. */
    predicate Valid() {
      configuredCores > 0 && load5 >= 0.0 && activeRunCount >= 0 && allocatedCores >= 0
    }

    /** Headroom: configured cores minus the larger of allocation and observed load. */
    function AvailableCores(): (cores: real)
      ensures cores >= 0.0
      ensures Valid() ==> cores <= configuredCores as real
      ensures cores > 0.0 ==>
                !allocationUnknown && (activeRunCount == 0 || allocatedCores != 0)
                && cores + allocatedCores as real <= configuredCores as real
                && cores + load5 <= configuredCores as real
    {
      if allocationUnknown || (activeRunCount != 0 && allocatedCores == 0) then 0.0
      else
        var consumed := if allocatedCores as real >= load5 then allocatedCores as real else load5;
        var left := configuredCores as real - consumed;
        if left >= 0.0 then left else 0.0
    }
  }

  type ValidCandidate = c: CapacityCandidate | c.Valid()
    witness CapacityCandidate("", 1, 0.0, 0, 0, 0, false)

  /** `a` sorts strictly before `b`: more headroom, then more cores, then higher
      priority, then the smaller name. */
  predicate RanksBefore(a: CapacityCandidate, b: CapacityCandidate) {
    var aCores, bCores := a.AvailableCores(), b.AvailableCores();
    aCores > bCores || (aCores == bCores &&
    (a.configuredCores > b.configuredCores || (a.configuredCores == b.configuredCores &&
    (a.priority > b.priority || (a.priority == b.priority && TextLess(a.name, b.name))))))
  }

  /** The order is a strict total order up to equal keys. */
  lemma RanksBeforeIsTotal(a: CapacityCandidate, b: CapacityCandidate)
    ensures !(RanksBefore(a, b) && RanksBefore(b, a))
    ensures !RanksBefore(a, b) && !RanksBefore(b, a) ==> a.name == b.name
  {
    TextTrichotomy(a.name, b.name);
  }

  lemma NotAfterTransitive(a: CapacityCandidate, b: CapacityCandidate, c: CapacityCandidate)
    requires !RanksBefore(b, a) && !RanksBefore(c, b)
    ensures !RanksBefore(c, a)
  {
    TextTrichotomy(a.name, b.name);
    TextTrichotomy(b.name, c.name);
    TextTrichotomy(a.name, c.name);
    if TextLess(a.name, b.name) && TextLess(b.name, c.name) {
      TextLessTransitive(a.name, b.name, c.name);
    }
  }

  ghost predicate Sorted(cs: seq<CapacityCandidate>) {
    forall i, j :: 0 <= i < j < |cs| ==> !RanksBefore(cs[j], cs[i])
  }

  ghost predicate DistinctNames(cs: seq<CapacityCandidate>) {
    forall i, j :: 0 <= i < j < |cs| ==> cs[i].name != cs[j].name
  }

  /** Places `c` before the first element that does not sort before it (stable). */
  function Insert(c: CapacityCandidate, cs: seq<CapacityCandidate>): (r: seq<CapacityCandidate>)
    ensures multiset(r) == multiset([c]) + multiset(cs)
  {
    if cs == [] then [c]
    else if RanksBefore(cs[0], c) then
      assert cs == [cs[0]] + cs[1..];
      [cs[0]] + Insert(c, cs[1..])
    else [c] + cs
  }

  /** The ranking itself: a stable sort by the key. */
  function SortByRank(cs: seq<CapacityCandidate>): (r: seq<CapacityCandidate>)
    ensures multiset(r) == multiset(cs)
    ensures |r| == |cs|
  {
    if cs == [] then []
    else
      assert cs == [cs[0]] + cs[1..];
      var r := Insert(cs[0], SortByRank(cs[1..]));
      assert |multiset(r)| == |multiset(cs)|;
      r
  }

  lemma {:induction false} InsertKeepsSorted(c: CapacityCandidate, cs: seq<CapacityCandidate>)
    requires Sorted(cs)
    ensures Sorted(Insert(c, cs))
  {
    if cs != [] {
      var r := Insert(c, cs);
      if RanksBefore(cs[0], c) {
        InsertKeepsSorted(c, cs[1..]);
        var rest := Insert(c, cs[1..]);
        forall j | 0 <= j < |rest| ensures !RanksBefore(rest[j], cs[0]) {
          assert rest[j] in multiset(rest);
          RanksBeforeIsTotal(c, cs[0]);
        }
      } else {
        forall j | 0 < j < |r| ensures !RanksBefore(r[j], c) {
          if j > 1 { NotAfterTransitive(c, cs[0], cs[j - 1]); }
        }
      }
    }
  }

  lemma {:induction false} SortByRankSorts(cs: seq<CapacityCandidate>)
    ensures Sorted(SortByRank(cs))
  {
    if cs != [] {
      SortByRankSorts(cs[1..]);
      InsertKeepsSorted(cs[0], SortByRank(cs[1..]));
    }
  }

  /** `rank_candidates`: refuses an empty list or an invalid candidate, otherwise sorts. */
  function RankCandidates(cs: seq<CapacityCandidate>): (r: Result<seq<CapacityCandidate>>)
    ensures r.Ok? <==> cs != [] && forall i :: 0 <= i < |cs| ==> cs[i].Valid()
    ensures r.Ok? ==> multiset(r.value) == multiset(cs) && Sorted(r.value)
  {
    SortByRankSorts(cs);
    if cs == [] then Err("at least one capacity candidate is required")
    else if exists i :: 0 <= i < |cs| && !cs[i].Valid() then Err("invalid capacity candidate")
    else Ok(SortByRank(cs))
  }

  lemma SortedHeadsAgree(a: seq<CapacityCandidate>, b: seq<CapacityCandidate>)
    requires multiset(a) == multiset(b) && Sorted(a) && Sorted(b) && DistinctNames(a)
    requires a != [] && b != []
    ensures a[0] == b[0]
  {
    assert a[0] in multiset(b) && b[0] in multiset(a);
    var i :| 0 <= i < |a| && a[i] == b[0];
    NotTheHead(a, i);
    var j :| 0 <= j < |b| && b[j] == a[0];
    RanksBeforeIsTotal(a[0], b[0]);
  }

  lemma NotTheHead(a: seq<CapacityCandidate>, i: nat)
    requires DistinctNames(a) && i < |a|
    ensures i > 0 ==> a[i].name != a[0].name
  {
  }

  lemma {:induction false} SortedIsUnique(a: seq<CapacityCandidate>, b: seq<CapacityCandidate>)
    requires multiset(a) == multiset(b) && Sorted(a) && Sorted(b) && DistinctNames(a)
    ensures a == b
  {
    assert |a| == |multiset(a)| == |multiset(b)| == |b|;
    if a != [] {
      hide RanksBefore;
      SortedHeadsAgree(a, b);
      TailsAgree(a, b);
      SortedIsUnique(a[1..], b[1..]);
      assert a == [a[0]] + a[1..] && b == [b[0]] + b[1..];
    }
  }

  lemma TailsAgree(a: seq<CapacityCandidate>, b: seq<CapacityCandidate>)
    requires a != [] && b != [] && a[0] == b[0] && multiset(a) == multiset(b)
    ensures multiset(a[1..]) == multiset(b[1..])
  {
    assert a == [a[0]] + a[1..] && b == [b[0]] + b[1..];
    assert multiset(a[1..]) == multiset(a) - multiset{a[0]};
    assert multiset(b[1..]) == multiset(b) - multiset{b[0]};
  }

  /** With distinct names the ranking does not depend on the order of its input. */
  lemma RankingIgnoresInputOrder(a: seq<CapacityCandidate>, b: seq<CapacityCandidate>)
    requires multiset(a) == multiset(b) && DistinctNames(a)
    ensures SortByRank(a) == SortByRank(b)
  {
    SortByRankSorts(a);
    SortByRankSorts(b);
    var r := SortByRank(a);
    forall i, j | 0 <= i < j < |r| ensures r[i].name != r[j].name {
      PartOfDistinct(r, a, i, j);
    }
    SortedIsUnique(r, SortByRank(b));
  }

  /** `select_candidate`: nobody has more headroom than the first; among those with equal headroom nobody has
      more cores, then nobody a higher priority, then nobody an earlier name. */
  lemma FirstIsBest(cs: seq<CapacityCandidate>, c: CapacityCandidate)
    requires RankCandidates(cs).Ok? && c in cs
    ensures var ranked := RankCandidates(cs).value;
            && ranked != [] && ranked[0] in cs
            && ranked[0].AvailableCores() >= c.AvailableCores()
            && (ranked[0].AvailableCores() == c.AvailableCores() ==> ranked[0].configuredCores >= c.configuredCores)
            && (ranked[0].AvailableCores() == c.AvailableCores() && ranked[0].configuredCores == c.configuredCores ==>
                  ranked[0].priority > c.priority || (ranked[0].priority == c.priority && !TextLess(c.name, ranked[0].name)))
  {
    var ranked := SortByRank(cs);
    SortByRankSorts(cs);
    assert c in multiset(ranked);
    assert ranked[0] in multiset(cs);
    var i :| 0 <= i < |ranked| && ranked[i] == c;
    TextTrichotomy(c.name, c.name);
    assert i == 0 || !RanksBefore(ranked[i], ranked[0]);
  }
}
