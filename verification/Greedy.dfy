/** What both claim loops are instances of: picking articles greedily by priority under a
    limit on the number of picks and a limit per source. */
module Greedy {
  import opened Base

  /** A candidate article: the best priority of its waiting jobs, and its source. */
  datatype Item = Item(priority: int, source: string)

  type Pool = map<string, Item>

  /** The per-source limit, and how many articles of each source already count against it. */
  datatype Caps = Caps(limit: int, used: map<string, int>) {
    function Left(s: string): int { limit - Count(used, s) }

    function Room(s: string): nat { if Left(s) <= 0 then 0 else Left(s) }
  }

  ghost function Of(pool: Pool, xs: set<string>, s: string): set<string> {
    set a | a in xs && a in pool && pool[a].source == s
  }

  ghost function AtLeast(pool: Pool, xs: set<string>, p: int): set<string> {
    set a | a in xs && a in pool && pool[a].priority >= p
  }

  ghost function Sources(pool: Pool): set<string> { set a | a in pool :: pool[a].source }

  /** Article a may still be picked after xs. */
  ghost predicate Choosable(pool: Pool, caps: Caps, xs: set<string>, a: string) {
    a in pool && a !in xs && |Of(pool, xs, pool[a].source)| < caps.Left(pool[a].source)
  }

  ghost predicate GreedyPick(pool: Pool, caps: Caps, xs: set<string>, a: string) {
    && Choosable(pool, caps, xs, a)
    && forall b :: Choosable(pool, caps, xs, b) ==> pool[b].priority <= pool[a].priority
  }

  /** Every pick is one of highest priority among those still possible. */
  ghost predicate GreedyRun(pool: Pool, caps: Caps, picks: seq<string>) {
    picks != [] ==>
      var n := |picks| - 1;
      GreedyRun(pool, caps, picks[..n]) && GreedyPick(pool, caps, Elems(picks[..n]), picks[n])
  }

  /** The run stopped because the slots were used up or nothing more could be picked. */
  ghost predicate Complete(pool: Pool, caps: Caps, slots: nat, picks: seq<string>) {
    && |picks| <= slots
    && (|picks| == slots || forall a :: !Choosable(pool, caps, Elems(picks), a))
  }

  /** A choice of candidates that respects both limits. */
  ghost predicate Feasible(pool: Pool, caps: Caps, slots: nat, xs: set<string>) {
    && xs <= pool.Keys
    && |xs| <= slots
    && forall s :: |Of(pool, xs, s)| <= caps.Room(s)
  }

  /** How many articles of source s at or above priority p its limit lets in. */
  ghost function Demand(pool: Pool, caps: Caps, p: int, s: string): int {
    Min(caps.Room(s), |Of(pool, AtLeast(pool, pool.Keys, p), s)|)
  }

  ghost function Capacity(pool: Pool, caps: Caps, p: int): int {
    Sum(Sources(pool), s => Demand(pool, caps, p, s))
  }

  lemma {:induction false} GreedyAt(pool: Pool, caps: Caps, picks: seq<string>, i: nat)
    requires GreedyRun(pool, caps, picks) && i < |picks|
    ensures GreedyPick(pool, caps, Elems(picks[..i]), picks[i])
  {
    var n := |picks| - 1;
    if i < n {
      GreedyAt(pool, caps, picks[..n], i);
      assert picks[..n][..i] == picks[..i];
    }
  }

  lemma GreedyExtend(pool: Pool, caps: Caps, picks: seq<string>, a: string)
    requires GreedyRun(pool, caps, picks) && GreedyPick(pool, caps, Elems(picks), a)
    ensures GreedyRun(pool, caps, picks + [a])
    ensures Elems(picks + [a]) == Elems(picks) + {a}
  {
    assert (picks + [a])[..|picks|] == picks;
  }

  lemma OfAdd(pool: Pool, xs: set<string>, a: string, s: string)
    requires a in pool && a !in xs
    ensures |Of(pool, xs + {a}, s)| == |Of(pool, xs, s)| + One(pool[a].source == s)
  {
    if pool[a].source == s {
      assert Of(pool, xs + {a}, s) == Of(pool, xs, s) + {a};
    } else {
      assert Of(pool, xs + {a}, s) == Of(pool, xs, s);
    }
  }

  lemma FeasibleAdd(pool: Pool, caps: Caps, n: nat, xs: set<string>, a: string)
    requires Feasible(pool, caps, n, xs) && Choosable(pool, caps, xs, a)
    ensures Feasible(pool, caps, n + 1, xs + {a})
  {
    forall s ensures |Of(pool, xs + {a}, s)| <= caps.Room(s) {
      OfAdd(pool, xs, a, s);
    }
  }

  lemma DistinctAdd(xs: seq<string>, a: string)
    requires Distinct(xs) && a !in xs
    ensures Distinct(xs + [a]) && Elems(xs + [a]) == Elems(xs) + {a}
  {
  }

  lemma FeasibleNone(pool: Pool, caps: Caps)
    ensures Feasible(pool, caps, 0, {})
  {
    forall s ensures |Of(pool, {}, s)| <= caps.Room(s) {
      assert Of(pool, {}, s) == {};
    }
  }

  /** A greedy run picks distinct candidates and never overfills a source. */
  lemma {:induction false} GreedyFeasible(pool: Pool, caps: Caps, picks: seq<string>)
    requires GreedyRun(pool, caps, picks)
    ensures Distinct(picks)
    ensures Feasible(pool, caps, |picks|, Elems(picks))
  {
    if picks == [] {
      FeasibleNone(pool, caps);
      assert Elems(picks) == {};
    } else {
      var n := |picks| - 1;
      var front, a := picks[..n], picks[n];
      assert picks == front + [a];
      GreedyFeasible(pool, caps, front);
      FeasibleAdd(pool, caps, n, Elems(front), a);
      DistinctAdd(front, a);
    }
  }

  lemma {:induction false} PartitionBySource(pool: Pool, xs: set<string>, ss: set<string>)
    requires xs <= pool.Keys && forall a :: a in xs ==> pool[a].source in ss
    ensures |xs| == Sum(ss, s => |Of(pool, xs, s)|)
    decreases ss
  {
    if ss != {} {
      var s :| s in ss;
      var here := Of(pool, xs, s);
      var rest := xs - here;
      PartitionBySource(pool, rest, ss - {s});
      SumSplit(ss, t => |Of(pool, xs, t)|, s);
      forall t | t in ss - {s} ensures |Of(pool, xs, t)| == |Of(pool, rest, t)| {
        assert Of(pool, xs, t) == Of(pool, rest, t);
      }
      SumEqual(ss - {s}, t => |Of(pool, xs, t)|, t => |Of(pool, rest, t)|);
      assert xs == here + rest;
    }
  }

  lemma SizeBySource(pool: Pool, xs: set<string>)
    requires xs <= pool.Keys
    ensures |xs| == Sum(Sources(pool), s => |Of(pool, xs, s)|)
  {
    PartitionBySource(pool, xs, Sources(pool));
  }

  /** No choice that respects both limits admits more than this at or above p. */
  lemma FeasibleBound(pool: Pool, caps: Caps, slots: nat, xs: set<string>, p: int)
    requires Feasible(pool, caps, slots, xs)
    ensures |AtLeast(pool, xs, p)| <= Min(slots, Capacity(pool, caps, p))
    ensures forall s :: |Of(pool, AtLeast(pool, xs, p), s)| <= Demand(pool, caps, p, s)
  {
    var high := AtLeast(pool, xs, p);
    SubsetSize(high, xs);
    forall s ensures |Of(pool, high, s)| <= Demand(pool, caps, p, s) {
      SubsetSize(Of(pool, high, s), Of(pool, xs, s));
      SubsetSize(Of(pool, high, s), Of(pool, AtLeast(pool, pool.Keys, p), s));
    }
    SizeBySource(pool, high);
    SumMonotone(Sources(pool), s => |Of(pool, high, s)|, s => Demand(pool, caps, p, s));
  }

  /** Once no candidate at or above p can be picked, every source has given all its limit allows. */
  lemma SaturatedSource(pool: Pool, caps: Caps, xs: set<string>, ys: set<string>, p: int, s: string)
    requires xs <= ys <= pool.Keys && AtLeast(pool, xs, p) == xs
    requires forall a :: Choosable(pool, caps, xs, a) ==> pool[a].priority < p
    ensures |Of(pool, AtLeast(pool, ys, p), s)| >= Demand(pool, caps, p, s)
  {
    var wanted := Of(pool, AtLeast(pool, pool.Keys, p), s);
    var got := Of(pool, AtLeast(pool, ys, p), s);
    if |Of(pool, xs, s)| < caps.Left(s) {
      forall a | a in wanted ensures a in got {
        assert !Choosable(pool, caps, xs, a);
      }
      assert wanted <= got;
      SubsetSize(wanted, got);
    } else {
      assert Of(pool, xs, s) <= got;
      SubsetSize(Of(pool, xs, s), got);
    }
  }

  lemma SaturatedCount(pool: Pool, caps: Caps, slots: nat, xs: set<string>, ys: set<string>, p: int)
    requires Feasible(pool, caps, slots, ys) && xs <= ys && AtLeast(pool, xs, p) == xs
    requires forall a :: Choosable(pool, caps, xs, a) ==> pool[a].priority < p
    ensures |AtLeast(pool, ys, p)| == Min(slots, Capacity(pool, caps, p))
  {
    var high := AtLeast(pool, ys, p);
    FeasibleBound(pool, caps, slots, ys, p);
    forall s ensures |Of(pool, high, s)| >= Demand(pool, caps, p, s) {
      SaturatedSource(pool, caps, xs, ys, p, s);
    }
    SizeBySource(pool, high);
    SumMonotone(Sources(pool), s => Demand(pool, caps, p, s), s => |Of(pool, high, s)|);
    SubsetSize(high, ys);
  }

  /** Index of the first pick below priority p, or the length of the run. */
  ghost function FirstBelow(pool: Pool, picks: seq<string>, p: int): (i: nat)
    requires forall a :: a in picks ==> a in pool
    ensures i <= |picks|
    ensures forall j :: 0 <= j < i ==> pool[picks[j]].priority >= p
    ensures i < |picks| ==> pool[picks[i]].priority < p
  {
    if picks == [] || pool[picks[0]].priority < p then 0
    else 1 + FirstBelow(pool, picks[1..], p)
  }

  /** A complete greedy run admits, at or above every priority, exactly as many articles as the
      limits allow: the number of slots, or what the sources together can give. */
  lemma GreedyCount(pool: Pool, caps: Caps, slots: nat, picks: seq<string>, p: int)
    requires GreedyRun(pool, caps, picks) && Complete(pool, caps, slots, picks)
    ensures |AtLeast(pool, Elems(picks), p)| == Min(slots, Capacity(pool, caps, p))
  {
    GreedyFeasible(pool, caps, picks);
    DistinctSize(picks);
    var ys := Elems(picks);
    FeasibleBound(pool, caps, slots, ys, p);
    var i := FirstBelow(pool, picks, p);
    var xs := Elems(picks[..i]);
    assert AtLeast(pool, xs, p) == xs;
    if i < |picks| {
      GreedyAt(pool, caps, picks, i);
      SaturatedCount(pool, caps, slots, xs, ys, p);
    } else {
      assert picks[..i] == picks;
      if |picks| < slots {
        SaturatedCount(pool, caps, slots, xs, ys, p);
      }
    }
  }

  /** No choice respecting both limits admits more at or above any priority. */
  lemma GreedyOptimal(pool: Pool, caps: Caps, slots: nat, picks: seq<string>, other: set<string>, p: int)
    requires GreedyRun(pool, caps, picks) && Complete(pool, caps, slots, picks)
    requires Feasible(pool, caps, slots, other)
    ensures |AtLeast(pool, other, p)| <= |AtLeast(pool, Elems(picks), p)|
  {
    GreedyCount(pool, caps, slots, picks, p);
    FeasibleBound(pool, caps, slots, other, p);
  }
}
