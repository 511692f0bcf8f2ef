/** The round-robin batch of the direct publishing path: one article per source and round, newest
    first within each source. */
module FairBatch {
  import opened Base
  import opened Tables

  function SortKey(a: Article): int { if a.NewsTimestamp().Some? then a.NewsTimestamp().value else 0 }

  function OfSource(xs: seq<Article>, s: string): seq<Article> {
    if xs == [] then []
    else
      var n := |xs| - 1;
      OfSource(xs[..n], s) + if xs[n].source == s then [xs[n]] else []
  }

  lemma OfSourceAdd(xs: seq<Article>, a: Article, s: string)
    ensures OfSource(xs + [a], s) == OfSource(xs, s) + if a.source == s then [a] else []
  {
    assert (xs + [a])[..|xs|] == xs;
  }

  // ----- newest first ---------------------------------------------------------------------

  /** Behind everything as new or newer: the sort is stable. */
  function InsertNewest(rows: seq<Article>, a: Article): seq<Article> {
    if rows == [] || SortKey(a) > SortKey(rows[0]) then [a] + rows else [rows[0]] + InsertNewest(rows[1..], a)
  }

  ghost predicate NewestFirst(rows: seq<Article>) { forall i, j :: 0 <= i < j < |rows| ==> SortKey(rows[i]) >= SortKey(rows[j]) }

  /** Undated articles sort as if they were of time zero. */
  predicate SortsAt(a: Article, time: int) {
    if time != 0 then a.updatedAt == Some(time) || (a.updatedAt in {None, Some(0)} && a.publishedAt == Some(time))
    else a.updatedAt in {None, Some(0)} && a.publishedAt in {None, Some(0)}
  }

  lemma SortKeyExactly(a: Article, time: int)
    ensures SortKey(a) == time <==> SortsAt(a, time)
  {
  }

  /** The order of the batch, spelled out. */
  lemma NewestFirstExactly(rows: seq<Article>)
    ensures NewestFirst(rows) <==>
      forall i, j, x, y :: 0 <= i < j < |rows| && SortsAt(rows[i], x) && SortsAt(rows[j], y) ==> x >= y
  {
    forall a: Article, time: int ensures SortsAt(a, time) <==> SortKey(a) == time {
      SortKeyExactly(a, time);
    }
    if forall i, j, x, y :: 0 <= i < j < |rows| && SortsAt(rows[i], x) && SortsAt(rows[j], y) ==> x >= y {
      forall i, j | 0 <= i < j < |rows| ensures SortKey(rows[i]) >= SortKey(rows[j]) {
        assert SortsAt(rows[i], SortKey(rows[i])) && SortsAt(rows[j], SortKey(rows[j]));
      }
    }
  }

  lemma NewestCons(a: Article, rows: seq<Article>)
    requires NewestFirst(rows) && forall x :: x in rows ==> SortKey(a) >= SortKey(x)
    ensures NewestFirst([a] + rows)
  {
    var r := [a] + rows;
    forall i, j | 0 <= i < j < |r| ensures SortKey(r[i]) >= SortKey(r[j]) {
      assert r[j] == rows[j - 1] && rows[j - 1] in rows;
    }
  }

  lemma {:induction false} InsertNewestSorts(rows: seq<Article>, a: Article)
    requires NewestFirst(rows)
    ensures NewestFirst(InsertNewest(rows, a)) && multiset(InsertNewest(rows, a)) == multiset(rows) + multiset{a}
    ensures forall x :: x in InsertNewest(rows, a) <==> x in rows || x == a
  {
    if rows == [] || SortKey(a) > SortKey(rows[0]) {
      NewestCons(a, rows);
    } else {
      assert rows == [rows[0]] + rows[1..];
      InsertNewestSorts(rows[1..], a);
      forall x | x in rows[1..] ensures SortKey(rows[0]) >= SortKey(x) {}
      NewestCons(rows[0], InsertNewest(rows[1..], a));
    }
  }

  /** The articles of one sort key, in order. */
  function OfKey(xs: seq<Article>, k: int): seq<Article> {
    if xs == [] then [] else (if SortKey(xs[0]) == k then [xs[0]] else []) + OfKey(xs[1..], k)
  }

  lemma {:induction false} OfKeyAdd(xs: seq<Article>, a: Article, k: int)
    ensures OfKey(xs + [a], k) == OfKey(xs, k) + if SortKey(a) == k then [a] else []
  {
    if xs != [] {
      OfKeyAdd(xs[1..], a, k);
      assert (xs + [a])[1..] == xs[1..] + [a];
    }
  }

  lemma {:induction false} NoneOfKey(rows: seq<Article>, k: int)
    requires forall x :: x in rows ==> SortKey(x) < k
    ensures OfKey(rows, k) == []
  {
    if rows != [] {
      NoneOfKey(rows[1..], k);
    }
  }

  /** Equal keys keep their order. */
  lemma {:induction false} InsertNewestStable(rows: seq<Article>, a: Article, k: int)
    requires NewestFirst(rows)
    ensures OfKey(InsertNewest(rows, a), k) == OfKey(rows, k) + if SortKey(a) == k then [a] else []
  {
    if rows == [] || SortKey(a) > SortKey(rows[0]) {
      assert InsertNewest(rows, a) == [a] + rows && ([a] + rows)[1..] == rows;
      if SortKey(a) == k {
        NoneOfKey(rows, k);
      }
    } else {
      var tail := InsertNewest(rows[1..], a);
      assert InsertNewest(rows, a) == [rows[0]] + tail && ([rows[0]] + tail)[1..] == tail;
      InsertNewestStable(rows[1..], a, k);
    }
  }

  method SortNewest(articles: seq<Article>) returns (sorted: seq<Article>)
    ensures NewestFirst(sorted) && multiset(sorted) == multiset(articles)
    ensures forall k :: OfKey(sorted, k) == OfKey(articles, k)
  {
    sorted := [];
    for n := 0 to |articles|
      invariant NewestFirst(sorted) && multiset(sorted) == multiset(articles[..n])
      invariant forall k :: OfKey(sorted, k) == OfKey(articles[..n], k)
    {
      assert articles[..n + 1] == articles[..n] + [articles[n]];
      InsertNewestSorts(sorted, articles[n]);
      forall k ensures OfKey(InsertNewest(sorted, articles[n]), k) == OfKey(articles[..n + 1], k) {
        InsertNewestStable(sorted, articles[n], k);
        OfKeyAdd(articles[..n], articles[n], k);
      }
      sorted := InsertNewest(sorted, articles[n]);
    }
    assert articles[..|articles|] == articles;
  }

  // ----- buckets --------------------------------------------------------------------------

  type Buckets = map<string, seq<Article>>

  function Rest(b: Buckets, s: string): seq<Article> { if s in b then b[s] else [] }

  /** What is picked and what is left of a source is all of it, in order. */
  ghost predicate Split(sorted: seq<Article>, selected: seq<Article>, b: Buckets) {
    forall s :: OfSource(selected, s) + Rest(b, s) == OfSource(sorted, s)
  }

  lemma SplitAdd(sorted: seq<Article>, b: Buckets, a: Article)
    requires Split(sorted, [], b)
    ensures Split(sorted + [a], [], b[a.source := Rest(b, a.source) + [a]])
  {
    var more, next := sorted + [a], b[a.source := Rest(b, a.source) + [a]];
    forall t ensures OfSource([], t) + Rest(next, t) == OfSource(more, t) {
      OfSourceAdd(sorted, a, t);
      assert OfSource([], t) + Rest(b, t) == OfSource(sorted, t);
    }
  }

  method Distribute(sorted: seq<Article>) returns (b: Buckets, order: seq<string>)
    ensures Split(sorted, [], b) && Elems(order) == b.Keys && Distinct(order)
  {
    b, order := map[], [];
    for n := 0 to |sorted|
      invariant Split(sorted[..n], [], b) && Elems(order) == b.Keys && Distinct(order)
    {
      var s := sorted[n].source;
      assert sorted[..n + 1] == sorted[..n] + [sorted[n]];
      SplitAdd(sorted[..n], b, sorted[n]);
      if s !in b {
        assert s !in Elems(order);
        order := order + [s];
      }
      b := b[s := Rest(b, s) + [sorted[n]]];
    }
    assert sorted[..|sorted|] == sorted;
  }

  // ----- rounds ---------------------------------------------------------------------------

  /** How many articles of its source come before pick i. */
  function Round(picks: seq<Article>, i: nat): nat
    requires i < |picks|
  {
    |OfSource(picks[..i], picks[i].source)|
  }

  /** The picks go round by round, and none is beyond the given round. */
  ghost predicate InRounds(picks: seq<Article>, last: nat) {
    && (forall i :: 0 <= i < |picks| ==> Round(picks, i) <= last)
    && (forall i, j :: 0 <= i < j < |picks| ==> Round(picks, i) <= Round(picks, j))
  }

  /** No source is ahead of a source that still has articles by more than one. */
  ghost predicate Even(sorted: seq<Article>, picks: seq<Article>) {
    forall s, t :: |OfSource(picks, s)| < |OfSource(sorted, s)| ==> |OfSource(picks, t)| <= |OfSource(picks, s)| + 1
  }

  /** In round r, when the sources of `served` have had their turn and those of `ahead` have not. */
  ghost predicate During(sorted: seq<Article>, selected: seq<Article>, b: Buckets, served: seq<string>, ahead: seq<string>, r: nat) {
    && Split(sorted, selected, b) && b.Keys == Elems(served) + Elems(ahead)
    && Distinct(served + ahead)
    && (forall s :: s in served ==> |OfSource(selected, s)| == r + 1)
    && (forall s :: s in ahead ==> |OfSource(selected, s)| == r)
    && (forall s :: s !in b ==> |OfSource(selected, s)| <= r)
    && InRounds(selected, r)
  }

  lemma DuringIsEven(sorted: seq<Article>, selected: seq<Article>, b: Buckets, served: seq<string>, ahead: seq<string>, r: nat)
    requires During(sorted, selected, b, served, ahead, r)
    ensures Even(sorted, selected)
  {
    forall s, t | |OfSource(selected, s)| < |OfSource(sorted, s)| ensures |OfSource(selected, t)| <= |OfSource(selected, s)| + 1 {
      assert OfSource(selected, s) + Rest(b, s) == OfSource(sorted, s);
      assert s in b && (s in Elems(served) || s in Elems(ahead));
      assert t in b ==> t in Elems(served) || t in Elems(ahead);
    }
  }

  lemma RoundAdd(picks: seq<Article>, a: Article, r: nat)
    requires InRounds(picks, r) && |OfSource(picks, a.source)| == r
    ensures InRounds(picks + [a], r)
  {
    var more := picks + [a];
    assert more[..|picks|] == picks;
    forall i | 0 <= i < |picks| ensures Round(more, i) == Round(picks, i) {
      assert more[..i] == picks[..i];
    }
  }

  lemma HeadMoves(xs: seq<Article>, ys: seq<Article>)
    requires ys != []
    ensures (xs + [ys[0]]) + ys[1..] == xs + ys
  {
  }

  lemma PickSplitAt(sorted: seq<Article>, selected: seq<Article>, b: Buckets, s: string, t: string)
    requires Split(sorted, selected, b) && s in b && b[s] != [] && b[s][0].source == s
    ensures OfSource(selected + [b[s][0]], t) + Rest(b[s := b[s][1..]], t) == OfSource(sorted, t)
    ensures |OfSource(selected + [b[s][0]], t)| == |OfSource(selected, t)| + One(s == t)
  {
    OfSourceAdd(selected, b[s][0], t);
    assert OfSource(selected, t) + Rest(b, t) == OfSource(sorted, t);
    if t == s {
      HeadMoves(OfSource(selected, t), b[s]);
    } else {
      assert OfSource(selected, t) + [] == OfSource(selected, t);
    }
  }

  lemma PickSplits(sorted: seq<Article>, selected: seq<Article>, b: Buckets, s: string)
    requires Split(sorted, selected, b) && s in b && b[s] != []
    ensures b[s][0].source == s && Split(sorted, selected + [b[s][0]], b[s := b[s][1..]])
    ensures forall t :: |OfSource(selected + [b[s][0]], t)| == |OfSource(selected, t)| + One(s == t)
  {
    SourceOfHead(sorted, selected, b, s);
    forall t
      ensures OfSource(selected + [b[s][0]], t) + Rest(b[s := b[s][1..]], t) == OfSource(sorted, t)
      ensures |OfSource(selected + [b[s][0]], t)| == |OfSource(selected, t)| + One(s == t)
    {
      PickSplitAt(sorted, selected, b, s, t);
    }
  }

  lemma Pick(sorted: seq<Article>, selected: seq<Article>, b: Buckets, served: seq<string>, ahead: seq<string>, r: nat)
    requires During(sorted, selected, b, served, ahead, r) && ahead != [] && b[ahead[0]] != []
    ensures var s := ahead[0];
      During(sorted, selected + [b[s][0]], b[s := b[s][1..]], served + [s], ahead[1..], r)
  {
    var s := ahead[0];
    NotServed(served, ahead);
    SameElems(served, ahead);
    assert s in ahead;
    PickSplits(sorted, selected, b, s);
    RoundAdd(selected, b[s][0], r);
    assert (served + [s]) + ahead[1..] == served + ahead;
    CountsAfterPick(selected, selected + [b[s][0]], served, ahead, r);
  }

  lemma CountsAfterPick(selected: seq<Article>, more: seq<Article>, served: seq<string>, ahead: seq<string>, r: nat)
    requires ahead != [] && ahead[0] !in served && ahead[0] !in ahead[1..]
    requires forall t :: t in served ==> |OfSource(selected, t)| == r + 1
    requires forall t :: t in ahead ==> |OfSource(selected, t)| == r
    requires forall t :: |OfSource(more, t)| == |OfSource(selected, t)| + One(ahead[0] == t)
    ensures forall t :: t in served + [ahead[0]] ==> |OfSource(more, t)| == r + 1
    ensures forall t :: t in ahead[1..] ==> |OfSource(more, t)| == r
  {
    forall t | t in served + [ahead[0]] ensures |OfSource(more, t)| == r + 1 {
      assert t != ahead[0] ==> t in served;
    }
    forall t | t in ahead[1..] ensures |OfSource(more, t)| == r {
      assert t in ahead;
    }
  }

  lemma SameElems(served: seq<string>, ahead: seq<string>)
    requires ahead != []
    ensures Elems(served + [ahead[0]]) + Elems(ahead[1..]) == Elems(served) + Elems(ahead)
  {
    assert ahead == [ahead[0]] + ahead[1..];
  }

  lemma NotServed(served: seq<string>, ahead: seq<string>)
    requires Distinct(served + ahead) && ahead != []
    ensures ahead[0] !in served && ahead[0] !in ahead[1..]
    ensures Distinct(served + ahead[1..])
  {
    var all := served + ahead;
    assert all[|served|] == ahead[0];
    forall i | 0 <= i < |served| ensures served[i] != ahead[0] { assert all[i] == served[i]; }
    forall i | 0 <= i < |ahead[1..]| ensures ahead[1..][i] != ahead[0] { assert all[|served| + 1 + i] == ahead[1..][i]; }
    var rest := served + ahead[1..];
    forall i, j | 0 <= i < j < |rest| ensures rest[i] != rest[j] {
      assert rest[i] == if i < |served| then all[i] else all[i + 1];
      assert rest[j] == if j < |served| then all[j] else all[j + 1];
    }
  }

  lemma {:induction false} InOfSource(xs: seq<Article>, s: string, a: Article)
    requires a in OfSource(xs, s)
    ensures a.source == s
  {
    var n := |xs| - 1;
    if a in OfSource(xs[..n], s) {
      InOfSource(xs[..n], s, a);
    }
  }

  lemma SourceOfHead(sorted: seq<Article>, selected: seq<Article>, b: Buckets, s: string)
    requires Split(sorted, selected, b) && s in b && b[s] != []
    ensures b[s][0].source == s
  {
    assert OfSource(selected, s) + Rest(b, s) == OfSource(sorted, s);
    assert OfSource(sorted, s)[|OfSource(selected, s)|] == b[s][0];
    InOfSource(sorted, s, b[s][0]);
  }

  lemma Drop(sorted: seq<Article>, selected: seq<Article>, b: Buckets, served: seq<string>, ahead: seq<string>, r: nat)
    requires During(sorted, selected, b, served, ahead, r) && ahead != [] && b[ahead[0]] == []
    ensures During(sorted, selected, b - {ahead[0]}, served, ahead[1..], r)
  {
    var s := ahead[0];
    NotServed(served, ahead);
    assert ahead == [s] + ahead[1..];
    forall t ensures Rest(b - {s}, t) == Rest(b, t) {}
    assert forall t :: t in ahead[1..] ==> t in ahead;
    assert s in ahead;
    assert Elems(served) + Elems(ahead[1..]) == Elems(served) + Elems(ahead) - {s};
  }

  // ----- the selection --------------------------------------------------------------------

  /** One round: every source that still has articles gives one, the others are dropped. */
  method Turn(ghost sorted: seq<Article>, selected0: seq<Article>, b0: Buckets, order0: seq<string>, limit: int, ghost r: nat)
    returns (selected: seq<Article>, b: Buckets, order: seq<string>)
    requires During(sorted, selected0, b0, [], order0, r) && |selected0| < limit
    ensures |selected| <= limit && Even(sorted, selected) && InRounds(selected, r)
    ensures Split(sorted, selected, b)
    ensures |selected| < limit ==> During(sorted, selected, b, order, [], r)
    ensures order0 != [] ==> limit - |selected| + |order| < limit - |selected0| + |order0|
  {
    selected, b, order := selected0, b0, [];
    for n := 0 to |order0|
      invariant During(sorted, selected, b, order, order0[n..], r) && |selected| < limit
      invariant |selected| == |selected0| + |order|
    {
      var s := order0[n];
      ghost var ahead := order0[n..];
      assert ahead[0] == s && ahead[1..] == order0[n + 1..];
      assert s in ahead;
      if b[s] == [] {
        Drop(sorted, selected, b, order, ahead, r);
        b := b - {s};
      } else {
        Pick(sorted, selected, b, order, ahead, r);
        selected, b, order := selected + [b[s][0]], b[s := b[s][1..]], order + [s];
        if |selected| >= limit {
          DuringIsEven(sorted, selected, b, order, order0[n + 1..], r);
          order := order + order0[n + 1..];
          return;
        }
      }
    }
    assert order0[|order0|..] == [];
    DuringIsEven(sorted, selected, b, order, [], r);
  }

  ghost function SizeOf(xs: seq<Article>): string -> int { s => |OfSource(xs, s)| }

  ghost function SourcesOf(xs: seq<Article>): set<string> { set a | a in xs :: a.source }

  /** A sequence is as long as its sources' shares together. */
  lemma {:induction false} SizesAddUp(xs: seq<Article>, ss: set<string>)
    requires SourcesOf(xs) <= ss
    ensures |xs| == Sum(ss, SizeOf(xs))
  {
    if xs == [] {
      NoSizes(ss);
    } else {
      var n := |xs| - 1;
      var front, s := xs[..n], xs[n].source;
      assert xs == front + [xs[n]];
      assert xs[n] in xs && s in ss;
      SizesAddUp(front, ss);
      SumSplit(ss, SizeOf(xs), s);
      SumSplit(ss, SizeOf(front), s);
      forall t | t in ss - {s} ensures SizeOf(xs)(t) == SizeOf(front)(t) {
        OfSourceAdd(front, xs[n], t);
      }
      OfSourceAdd(front, xs[n], s);
      SumEqual(ss - {s}, SizeOf(xs), SizeOf(front));
    }
  }

  lemma {:induction false} NoSizes(ss: set<string>)
    ensures Sum(ss, SizeOf([])) == 0
    decreases ss
  {
    if ss != {} {
      var s :| s in ss;
      SumSplit(ss, SizeOf([]), s);
      NoSizes(ss - {s});
    }
  }

  lemma SplitSizes(sorted: seq<Article>, selected: seq<Article>, b: Buckets)
    requires Split(sorted, selected, b)
    ensures |selected| <= |sorted|
    ensures b == map[] ==> |selected| == |sorted|
  {
    var ss := SourcesOf(sorted) + SourcesOf(selected);
    SizesAddUp(sorted, ss);
    SizesAddUp(selected, ss);
    forall s ensures SizeOf(selected)(s) <= SizeOf(sorted)(s) && (b == map[] ==> SizeOf(selected)(s) == SizeOf(sorted)(s)) {
      assert OfSource(selected, s) + Rest(b, s) == OfSource(sorted, s);
    }
    SumMonotone(ss, SizeOf(selected), SizeOf(sorted));
    if b == map[] {
      SumEqual(ss, SizeOf(selected), SizeOf(sorted));
    }
  }

  /** Every source's picks come first in its own newest-first order. */
  ghost predicate Prefixes(sorted: seq<Article>, picks: seq<Article>) {
    forall s :: OfSource(picks, s) <= OfSource(sorted, s)
  }

  lemma SplitPrefixes(sorted: seq<Article>, selected: seq<Article>, b: Buckets)
    requires Split(sorted, selected, b)
    ensures Prefixes(sorted, selected)
  {
    forall s ensures OfSource(selected, s) <= OfSource(sorted, s) {
      assert OfSource(selected, s) + Rest(b, s) == OfSource(sorted, s);
    }
  }

  lemma FirstTurn(sorted: seq<Article>, b: Buckets, order: seq<string>)
    requires Split(sorted, [], b) && Elems(order) == b.Keys && Distinct(order)
    ensures During(sorted, [], b, [], order, 0) && Even(sorted, [])
  {
    assert [] + order == order;
  }

  lemma NextTurn(sorted: seq<Article>, selected: seq<Article>, b: Buckets, order: seq<string>, r: nat)
    requires During(sorted, selected, b, order, [], r)
    ensures During(sorted, selected, b, [], order, r + 1)
  {
    assert [] + order == order + [] == order;
  }

  /** The batch: as many articles as the limit allows and there are, in rounds over the sources, each
      source's newest first, and no source more than one ahead of one that still has articles. */
  method SelectFairBatch(articles: seq<Article>, limit: int) returns (picks: seq<Article>, ghost sorted: seq<Article>, ghost last: nat)
    ensures NewestFirst(sorted) && multiset(sorted) == multiset(articles) && forall k :: OfKey(sorted, k) == OfKey(articles, k)
    ensures |picks| == Min(Max(0, limit), |articles|)
    ensures Prefixes(sorted, picks) && Even(sorted, picks) && InRounds(picks, last)
  {
    var rows := SortNewest(articles);
    sorted := rows;
    assert |sorted| == |multiset(sorted)| == |articles|;
    var b, order := Distribute(rows);
    picks, last := [], 0;
    FirstTurn(sorted, b, order);
    while |picks| < limit && order != []
      invariant Split(sorted, picks, b) && Even(sorted, picks) && InRounds(picks, last)
      invariant |picks| <= Max(0, limit)
      invariant |picks| < limit ==> During(sorted, picks, b, [], order, last)
      decreases limit - |picks| + |order|
    {
      picks, b, order := Turn(sorted, picks, b, order, limit, last);
      if |picks| < limit {
        NextTurn(sorted, picks, b, order, last);
        last := last + 1;
      }
    }
    SplitSizes(sorted, picks, b);
    SplitPrefixes(sorted, picks, b);
  }
}
