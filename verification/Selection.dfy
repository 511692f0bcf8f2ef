/** The batch processor's choice of new articles: priority by priority, one article per source
    and round, under the free slots and the per-source limit. */
module Selection {
  import opened Base
  import opened Tables
  import opened Greedy

  // ----- what the candidates are ------------------------------------------------------

  predicate JobOf(e: seq<Job>, i: int, a: string) { 0 <= i < |e| && e[i].slot.article == a }

  function Listed(e: seq<Job>): set<string> { set i | 0 <= i < |e| :: e[i].slot.article }

  /** The article's item carries the highest priority among its jobs and the source of the last
      one; t is the earliest creation time among them. */
  ghost predicate Describes(e: seq<Job>, a: string, item: Item, t: int) {
    && (forall i :: JobOf(e, i, a) ==> e[i].priority <= item.priority && t <= e[i].createdAt)
    && (exists i :: JobOf(e, i, a) && e[i].priority == item.priority)
    && (exists i :: JobOf(e, i, a) && e[i].createdAt == t)
    && (exists i :: JobOf(e, i, a) && e[i].source == item.source && forall j :: JobOf(e, j, a) ==> j <= i)
  }

  /** The candidates: every listed article not yet consumed. */
  ghost predicate IsPool(e: seq<Job>, consumed: set<string>, pool: Pool, first: map<string, int>) {
    && pool.Keys == first.Keys == Listed(e) - consumed
    && forall a :: a in pool ==> Describes(e, a, pool[a], first[a])
  }

  lemma OtherJob(e: seq<Job>, job: Job, a: string, item: Item, t: int)
    requires Describes(e, a, item, t) && a != job.slot.article
    ensures Describes(e + [job], a, item, t)
  {
    var more := e + [job];
    assert forall i :: JobOf(more, i, a) <==> JobOf(e, i, a);
    assert forall i :: JobOf(e, i, a) ==> more[i] == e[i];
  }

  lemma OwnJob(e: seq<Job>, job: Job, item: Item, t: int)
    requires Describes(e, job.slot.article, item, t)
    ensures Describes(e + [job], job.slot.article,
      Item(Max(item.priority, job.priority), job.source), Min(t, job.createdAt))
  {
    var more, a := e + [job], job.slot.article;
    assert more[|e|] == job && JobOf(more, |e|, a);
    assert forall i :: JobOf(more, i, a) <==> JobOf(e, i, a) || i == |e|;
    assert forall i :: JobOf(e, i, a) ==> more[i] == e[i];
  }

  lemma FirstJob(e: seq<Job>, job: Job)
    requires job.slot.article !in Listed(e)
    ensures Describes(e + [job], job.slot.article, Item(job.priority, job.source), job.createdAt)
  {
    var more, a := e + [job], job.slot.article;
    assert more[|e|] == job && JobOf(more, |e|, a);
    assert forall i :: JobOf(more, i, a) <==> i == |e|;
  }

  function Noted(pool: Pool, job: Job): Pool {
    var a := job.slot.article;
    pool[a := Item(if a in pool then Max(pool[a].priority, job.priority) else job.priority, job.source)]
  }

  function NotedFirst(first: map<string, int>, job: Job): map<string, int> {
    var a := job.slot.article;
    first[a := if a in first then Min(first[a], job.createdAt) else job.createdAt]
  }

  lemma ListedStep(e: seq<Job>, job: Job)
    ensures Listed(e + [job]) == Listed(e) + {job.slot.article}
  {
    var more := e + [job];
    assert forall i :: 0 <= i < |e| ==> more[i] == e[i];
    assert more[|e|] == job;
  }

  lemma PoolSkip(e: seq<Job>, job: Job, consumed: set<string>, pool: Pool, first: map<string, int>)
    requires IsPool(e, consumed, pool, first) && job.slot.article in consumed
    ensures IsPool(e + [job], consumed, pool, first)
  {
    ListedStep(e, job);
    forall a | a in pool ensures Describes(e + [job], a, pool[a], first[a]) {
      OtherJob(e, job, a, pool[a], first[a]);
    }
  }

  lemma PoolNote(e: seq<Job>, job: Job, consumed: set<string>, pool: Pool, first: map<string, int>)
    requires IsPool(e, consumed, pool, first) && job.slot.article !in consumed
    ensures IsPool(e + [job], consumed, Noted(pool, job), NotedFirst(first, job))
  {
    var x := job.slot.article;
    ListedStep(e, job);
    forall a | a in pool && a != x ensures Describes(e + [job], a, pool[a], first[a]) {
      OtherJob(e, job, a, pool[a], first[a]);
    }
    if x in pool {
      OwnJob(e, job, pool[x], first[x]);
    } else {
      FirstJob(e, job);
    }
  }

  method GroupArticles(e: seq<Job>, consumed: set<string>)
    returns (pool: Pool, first: map<string, int>, order: seq<string>)
    ensures IsPool(e, consumed, pool, first)
    ensures Elems(order) == pool.Keys && Distinct(order)
  {
    pool, first, order := map[], map[], [];
    for n := 0 to |e|
      invariant IsPool(e[..n], consumed, pool, first)
      invariant Elems(order) == pool.Keys && Distinct(order)
    {
      var a := e[n].slot.article;
      assert e[..n + 1] == e[..n] + [e[n]];
      if a in consumed {
        PoolSkip(e[..n], e[n], consumed, pool, first);
      } else {
        PoolNote(e[..n], e[n], consumed, pool, first);
        if a !in pool {
          assert a !in Elems(order);
          order := order + [a];
        }
        pool, first := Noted(pool, e[n]), NotedFirst(first, e[n]);
      }
    }
    assert e[..|e|] == e;
  }

  // ----- buckets: the waiting articles of one priority and source, oldest first --------

  type Buckets = map<Item, seq<string>>

  ghost predicate InTimeOrder(bucket: seq<string>, first: map<string, int>) {
    && (forall a :: a in bucket ==> a in first)
    && (forall i, j :: 0 <= i < j < |bucket| ==> bucket[i] != bucket[j] && first[bucket[i]] <= first[bucket[j]])
  }

  ghost function With(pool: Pool, xs: set<string>, k: Item): set<string> {
    set a | a in xs && a in pool && pool[a] == k
  }

  ghost predicate BucketOf(pool: Pool, first: map<string, int>, rest: set<string>, k: Item, bucket: seq<string>) {
    InTimeOrder(bucket, first) && Elems(bucket) == With(pool, rest, k)
  }

  /** The buckets hold exactly the articles of `rest`, each under its own item. */
  ghost predicate Bucketed(pool: Pool, first: map<string, int>, rest: set<string>, b: Buckets) {
    && (forall a :: a in rest ==> a in pool && pool[a] in b)
    && (forall k :: k in b ==> BucketOf(pool, first, rest, k, b[k]))
  }

  /** Appending and sorting stably by time puts the newcomer after its equals. */
  function InsertByTime(bucket: seq<string>, first: map<string, int>, a: string): (r: seq<string>)
    requires a in first && forall x :: x in bucket ==> x in first
  {
    if bucket == [] || first[a] < first[bucket[0]] then [a] + bucket
    else [bucket[0]] + InsertByTime(bucket[1..], first, a)
  }

  lemma {:induction false} InsertByTimeKeepsOrder(bucket: seq<string>, first: map<string, int>, a: string)
    requires a in first && a !in bucket && InTimeOrder(bucket, first)
    ensures InTimeOrder(InsertByTime(bucket, first, a), first)
    ensures forall x :: x in InsertByTime(bucket, first, a) <==> x in bucket || x == a
  {
    var r := InsertByTime(bucket, first, a);
    if bucket == [] || first[a] < first[bucket[0]] {
      assert r == [a] + bucket;
    } else {
      var rest := bucket[1..];
      assert bucket == [bucket[0]] + rest;
      InsertByTimeKeepsOrder(rest, first, a);
      var tail := InsertByTime(rest, first, a);
      assert r == [bucket[0]] + tail;
      forall x | x in tail ensures x != bucket[0] && first[bucket[0]] <= first[x] {
        assert x in rest || x == a;
      }
    }
  }

  lemma BucketStep(pool: Pool, first: map<string, int>, rest: set<string>, b: Buckets, a: string)
    requires Bucketed(pool, first, rest, b) && a in pool && a in first && a !in rest
    requires pool[a] in b || With(pool, rest, pool[a]) == {}
    ensures var bucket := if pool[a] in b then b[pool[a]] else [];
      && InTimeOrder(bucket, first)
      && Bucketed(pool, first, rest + {a}, b[pool[a] := InsertByTime(bucket, first, a)])
  {
    var k := pool[a];
    var bucket := if k in b then b[k] else [];
    assert Elems(bucket) == With(pool, rest, k);
    assert a !in Elems(bucket);
    InsertByTimeKeepsOrder(bucket, first, a);
    forall x ensures x in InsertByTime(bucket, first, a) <==> x in With(pool, rest + {a}, k) {
      assert x in bucket <==> x in Elems(bucket);
    }
    assert Elems(InsertByTime(bucket, first, a)) == With(pool, rest + {a}, k);
    forall j | j in b && j != k ensures With(pool, rest + {a}, j) == With(pool, rest, j) {}
  }

  lemma NoBucket(pool: Pool, first: map<string, int>, rest: set<string>, b: Buckets, k: Item)
    requires Bucketed(pool, first, rest, b) && k !in b
    ensures With(pool, rest, k) == {}
  {
  }

  /** Each priority lists the sources that have a group there, each once. */
  ghost predicate Levelled(groups: set<Item>, levels: map<int, seq<string>>, ps: seq<int>) {
    && (forall k :: k in groups ==> k.priority in levels)
    && (forall p :: p in levels ==> Distinct(levels[p]))
    && (forall p, s :: p in levels ==> (s in levels[p] <==> Item(p, s) in groups))
    && Distinct(ps) && (forall p :: p in ps <==> p in levels)
  }

  method NoteSource(ghost groups: set<Item>, k: Item, levels0: map<int, seq<string>>, ps0: seq<int>)
    returns (levels: map<int, seq<string>>, ps: seq<int>)
    requires Levelled(groups, levels0, ps0) && k !in groups
    ensures Levelled(groups + {k}, levels, ps)
    ensures levels == levels0[k.priority := (if k.priority in levels0 then levels0[k.priority] else []) + [k.source]]
  {
    levels, ps := levels0, ps0;
    if k.priority !in levels {
      levels := levels[k.priority := []];
      ps := ps + [k.priority];
    }
    levels := levels[k.priority := levels[k.priority] + [k.source]];
  }

  method AddToBucket(pool: Pool, first: map<string, int>, ghost rest: set<string>, a: string,
    b0: Buckets, levels0: map<int, seq<string>>, ps0: seq<int>)
    returns (b: Buckets, levels: map<int, seq<string>>, ps: seq<int>)
    requires Bucketed(pool, first, rest, b0) && Levelled(b0.Keys, levels0, ps0)
    requires a in pool && a in first && a !in rest
    ensures Bucketed(pool, first, rest + {a}, b) && Levelled(b.Keys, levels, ps)
  {
    b, levels, ps := b0, levels0, ps0;
    var k := pool[a];
    var bucket := [];
    if k in b {
      bucket := b[k];
    } else {
      NoBucket(pool, first, rest, b, k);
      levels, ps := NoteSource(b.Keys, k, levels, ps);
    }
    BucketStep(pool, first, rest, b, a);
    b := b[k := InsertByTime(bucket, first, a)];
    assert b.Keys == b0.Keys + {k};
  }

  lemma ElemsTake(order: seq<string>, n: nat)
    requires n < |order| && Distinct(order)
    ensures Elems(order[..n + 1]) == Elems(order[..n]) + {order[n]} && order[n] !in Elems(order[..n])
  {
  }

  method FillBuckets(pool: Pool, first: map<string, int>, order: seq<string>)
    returns (b: Buckets, levels: map<int, seq<string>>, ps: seq<int>)
    requires Elems(order) == pool.Keys == first.Keys && Distinct(order)
    ensures Bucketed(pool, first, pool.Keys, b) && Levelled(b.Keys, levels, ps)
  {
    b, levels, ps := map[], map[], [];
    for n := 0 to |order|
      invariant Bucketed(pool, first, Elems(order[..n]), b) && Levelled(b.Keys, levels, ps)
    {
      assert order[n] in Elems(order);
      ElemsTake(order, n);
      b, levels, ps := AddToBucket(pool, first, Elems(order[..n]), order[n], b, levels, ps);
    }
    assert order[..|order|] == order;
  }

  // ----- picking ------------------------------------------------------------------------

  ghost predicate Closed(pool: Pool, caps: Caps, xs: set<string>, s: string) {
    |Of(pool, xs, s)| >= caps.Left(s)
  }

  /** Every waiting candidate above p belongs to a source at its limit. */
  ghost predicate ClosedAbove(pool: Pool, caps: Caps, xs: set<string>, p: int) {
    forall a :: a in pool && a !in xs && pool[a].priority > p ==> Closed(pool, caps, xs, pool[a].source)
  }

  /** Within a bucket the oldest are picked first. */
  ghost predicate OldestFirst(pool: Pool, first: map<string, int>, xs: set<string>) {
    forall a, b :: a in pool && b in pool && a in first && b in first && pool[a] == pool[b] && a in xs && b !in xs
      ==> first[a] <= first[b]
  }

  ghost predicate Waiting(pool: Pool, caps: Caps, xs: set<string>, p: int, s: string) {
    !Closed(pool, caps, xs, s) && exists a :: a in pool && a !in xs && pool[a] == Item(p, s)
  }

  /** A source that still has waiting articles and room at a priority is at most one pick behind
      any other source there. */
  ghost predicate Fair(pool: Pool, caps: Caps, xs: set<string>) {
    forall p, s, t :: Waiting(pool, caps, xs, p, s) ==> |With(pool, xs, Item(p, t))| <= |With(pool, xs, Item(p, s))| + 1
  }

  lemma BucketPop(pool: Pool, first: map<string, int>, rest: set<string>, b: Buckets, k: Item)
    requires Bucketed(pool, first, rest, b) && k in b && b[k] != []
    ensures var a := b[k][0];
      a in pool && pool[a] == k && a in rest && Bucketed(pool, first, rest - {a}, b[k := b[k][1..]])
  {
    var a, next := b[k][0], b[k := b[k][1..]];
    assert a in Elems(b[k]);
    assert b[k] == [a] + b[k][1..];
    forall x ensures x in next[k] <==> x in With(pool, rest - {a}, k) {
      assert x in b[k] <==> x in Elems(b[k]);
    }
    assert Elems(next[k]) == With(pool, rest - {a}, k);
    forall j | j in b && j != k ensures With(pool, rest - {a}, j) == With(pool, rest, j) {}
  }

  lemma PickStep(pool: Pool, first: map<string, int>, caps: Caps, b: Buckets, picks: seq<string>, k: Item)
    requires GreedyRun(pool, caps, picks) && first.Keys == pool.Keys
    requires Bucketed(pool, first, pool.Keys - Elems(picks), b) && k in b && b[k] != []
    requires !Closed(pool, caps, Elems(picks), k.source) && ClosedAbove(pool, caps, Elems(picks), k.priority)
    ensures var a := b[k][0];
      && a in pool && pool[a] == k && a !in Elems(picks)
      && GreedyRun(pool, caps, picks + [a]) && Elems(picks + [a]) == Elems(picks) + {a}
      && Bucketed(pool, first, pool.Keys - (Elems(picks) + {a}), b[k := b[k][1..]])
  {
    var a, xs := b[k][0], Elems(picks);
    BucketPop(pool, first, pool.Keys - xs, b, k);
    assert GreedyPick(pool, caps, xs, a);
    GreedyExtend(pool, caps, picks, a);
    assert pool.Keys - xs - {a} == pool.Keys - (xs + {a});
  }

  lemma OldestStep(pool: Pool, first: map<string, int>, b: Buckets, xs: set<string>, k: Item)
    requires first.Keys == pool.Keys && Bucketed(pool, first, pool.Keys - xs, b) && k in b && b[k] != []
    requires OldestFirst(pool, first, xs)
    ensures OldestFirst(pool, first, xs + {b[k][0]})
  {
    var a := b[k][0];
    assert a in Elems(b[k]);
    forall y | y in pool && pool[y] == k && y !in xs + {a} ensures first[a] <= first[y] {
      assert y in Elems(b[k]);
    }
  }

  // ----- the loops ----------------------------------------------------------------------

  ghost predicate State(pool: Pool, first: map<string, int>, caps: Caps, b: Buckets,
    selected: set<string>, taken: map<string, int>, picks: seq<string>)
  {
    && first.Keys == pool.Keys
    && GreedyRun(pool, caps, picks) && selected == Elems(picks) && |selected| == |picks|
    && Bucketed(pool, first, pool.Keys - selected, b)
    && OldestFirst(pool, first, selected)
    && PicksCounted(pool, selected, taken)
  }

  ghost predicate PicksCounted(pool: Pool, xs: set<string>, taken: map<string, int>) {
    forall s :: Count(taken, s) == |Of(pool, xs, s)|
  }

  lemma PickCounted(pool: Pool, xs: set<string>, taken: map<string, int>, a: string)
    requires PicksCounted(pool, xs, taken) && a in pool && a !in xs
    ensures PicksCounted(pool, xs + {a}, Bump(taken, pool[a].source))
  {
    forall s ensures Count(Bump(taken, pool[a].source), s) == |Of(pool, xs + {a}, s)| {
      OfAdd(pool, xs, a, s);
    }
  }

  function Remove(xs: seq<string>, s: string): (r: seq<string>)
    ensures |r| <= |xs| && (s in xs ==> |r| < |xs|)
    ensures forall x :: x in r <==> x in xs && x != s
    ensures Distinct(xs) ==> Distinct(r)
  {
    if xs == [] then []
    else
      assert Distinct(xs) ==> Distinct(xs[1..]) && xs[0] !in xs[1..];
      (if xs[0] == s then [] else [xs[0]]) + Remove(xs[1..], s)
  }

  /** Every source with articles waiting at p is still active or at its limit. */
  ghost predicate Settled(pool: Pool, caps: Caps, xs: set<string>, p: int, active: seq<string>) {
    forall a :: a in pool && a !in xs && pool[a].priority == p && pool[a].source !in active
      ==> Closed(pool, caps, xs, pool[a].source)
  }

  /** All active sources have at least r picks at p, and no source more than one above that. */
  ghost predicate Round(pool: Pool, xs: set<string>, p: int, active: seq<string>, r: nat) {
    && (forall s :: |With(pool, xs, Item(p, s))| <= r + 1)
    && (forall s :: s in active ==> |With(pool, xs, Item(p, s))| >= r)
  }

  ghost predicate FairAt(pool: Pool, caps: Caps, xs: set<string>, p: int) {
    forall s, t :: Waiting(pool, caps, xs, p, s) ==> |With(pool, xs, Item(p, t))| <= |With(pool, xs, Item(p, s))| + 1
  }

  lemma RoundIsFair(pool: Pool, caps: Caps, xs: set<string>, p: int, active: seq<string>, r: nat)
    requires Settled(pool, caps, xs, p, active) && Round(pool, xs, p, active, r)
    ensures FairAt(pool, caps, xs, p)
  {
  }

  lemma WithAdd(pool: Pool, xs: set<string>, a: string, k: Item)
    requires a in pool && a !in xs
    ensures |With(pool, xs + {a}, k)| == |With(pool, xs, k)| + One(pool[a] == k)
  {
    if pool[a] == k {
      assert With(pool, xs + {a}, k) == With(pool, xs, k) + {a};
    } else {
      assert With(pool, xs + {a}, k) == With(pool, xs, k);
    }
  }

  /** Limits once reached stay reached. */
  lemma ClosedStays(pool: Pool, caps: Caps, xs: set<string>, ys: set<string>)
    requires xs <= ys
    ensures forall s :: Closed(pool, caps, xs, s) ==> Closed(pool, caps, ys, s)
  {
    forall s ensures |Of(pool, xs, s)| <= |Of(pool, ys, s)| {
      SubsetSize(Of(pool, xs, s), Of(pool, ys, s));
    }
  }

  /** Taking the head of an open bucket at the current priority. */
  lemma TakeHead(pool: Pool, first: map<string, int>, caps: Caps, b: Buckets,
    selected: set<string>, taken: map<string, int>, picks: seq<string>, k: Item)
    requires State(pool, first, caps, b, selected, taken, picks) && k in b && b[k] != []
    requires !Closed(pool, caps, selected, k.source) && ClosedAbove(pool, caps, selected, k.priority)
    ensures var a := b[k][0];
      && a in pool && pool[a] == k && a !in selected
      && State(pool, first, caps, b[k := b[k][1..]], selected + {a},
               Bump(taken, k.source), picks + [a])
      && ClosedAbove(pool, caps, selected + {a}, k.priority)
  {
    var a := b[k][0];
    PickStep(pool, first, caps, b, picks, k);
    OldestStep(pool, first, b, selected, k);
    ClosedStays(pool, caps, selected, selected + {a});
    PickCounted(pool, selected, taken, a);
  }

  /** Within round r of priority p: the sources of `ahead` are still to be visited. */
  ghost predicate InPass(pool: Pool, xs: set<string>, p: int, active: seq<string>, ahead: seq<string>, r: nat) {
    && Distinct(active) && Distinct(ahead)
    && Round(pool, xs, p, active, r)
    && (forall s :: s in ahead ==> s in active && |With(pool, xs, Item(p, s))| == r)
    && (forall s :: s in active ==> s in ahead || |With(pool, xs, Item(p, s))| == r + 1)
  }

  lemma DropInPass(pool: Pool, caps: Caps, xs: set<string>, p: int, active: seq<string>, ahead: seq<string>, r: nat)
    requires ahead != [] && InPass(pool, xs, p, active, ahead, r) && Settled(pool, caps, xs, p, active)
    requires Closed(pool, caps, xs, ahead[0]) || forall a :: a in pool && a !in xs ==> pool[a] != Item(p, ahead[0])
    ensures InPass(pool, xs, p, Remove(active, ahead[0]), ahead[1..], r)
    ensures Settled(pool, caps, xs, p, Remove(active, ahead[0]))
  {
    var left := Remove(active, ahead[0]);
    assert forall s :: s in ahead <==> s == ahead[0] || s in ahead[1..];
    forall a | a in pool && a !in xs && pool[a].priority == p && pool[a].source !in left
      ensures Closed(pool, caps, xs, pool[a].source)
    {
      assert pool[a] == Item(p, pool[a].source);
    }
  }

  lemma PickInPass(pool: Pool, xs: set<string>, p: int, active: seq<string>, ahead: seq<string>, r: nat, a: string)
    requires ahead != [] && InPass(pool, xs, p, active, ahead, r)
    requires a in pool && a !in xs && pool[a] == Item(p, ahead[0])
    ensures InPass(pool, xs + {a}, p, active, ahead[1..], r)
  {
    assert forall s :: s in ahead <==> s == ahead[0] || s in ahead[1..];
    assert forall s :: s in ahead[1..] ==> s != ahead[0];
    forall s ensures |With(pool, xs + {a}, Item(p, s))| == |With(pool, xs, Item(p, s))| + One(s == ahead[0]) {
      WithAdd(pool, xs, a, Item(p, s));
    }
  }

  lemma EmptyBucket(pool: Pool, first: map<string, int>, rest: set<string>, b: Buckets, k: Item)
    requires Bucketed(pool, first, rest, b) && k in b && b[k] == []
    ensures forall a :: a in pool && a in rest ==> pool[a] != k
  {
    assert With(pool, rest, k) == {};
    forall a | a in pool && a in rest ensures pool[a] != k {
      assert a in With(pool, rest, pool[a]);
    }
  }

  /** Nothing outside priority p was picked. */
  ghost predicate OnlyAt(pool: Pool, xs: set<string>, ys: set<string>, p: int) {
    xs <= ys && forall a :: a in ys && a !in xs ==> a in pool && pool[a].priority == p
  }

  /** Everything that holds while the sources of `ahead` are still to be visited in round r. */
  ghost predicate Mid(pool: Pool, first: map<string, int>, caps: Caps, p: int, r: nat,
    active: seq<string>, ahead: seq<string>, b: Buckets, selected: set<string>, taken: map<string, int>, picks: seq<string>)
  {
    && State(pool, first, caps, b, selected, taken, picks)
    && ClosedAbove(pool, caps, selected, p) && Settled(pool, caps, selected, p, active)
    && InPass(pool, selected, p, active, ahead, r)
    && (forall s :: s in ahead ==> Item(p, s) in b)
  }

  lemma MidDrop(pool: Pool, first: map<string, int>, caps: Caps, p: int, r: nat, active: seq<string>, ahead: seq<string>,
    b: Buckets, selected: set<string>, taken: map<string, int>, picks: seq<string>)
    requires Mid(pool, first, caps, p, r, active, ahead, b, selected, taken, picks) && ahead != []
    requires Closed(pool, caps, selected, ahead[0]) || b[Item(p, ahead[0])] == []
    ensures Mid(pool, first, caps, p, r, Remove(active, ahead[0]), ahead[1..], b, selected, taken, picks)
    ensures |Remove(active, ahead[0])| < |active|
  {
    if b[Item(p, ahead[0])] == [] {
      EmptyBucket(pool, first, pool.Keys - selected, b, Item(p, ahead[0]));
    }
    DropInPass(pool, caps, selected, p, active, ahead, r);
  }

  lemma MidPick(pool: Pool, first: map<string, int>, caps: Caps, p: int, r: nat, active: seq<string>, ahead: seq<string>,
    b: Buckets, selected: set<string>, taken: map<string, int>, picks: seq<string>)
    requires Mid(pool, first, caps, p, r, active, ahead, b, selected, taken, picks) && ahead != []
    requires !Closed(pool, caps, selected, ahead[0]) && b[Item(p, ahead[0])] != []
    ensures var k := Item(p, ahead[0]); var a := b[k][0];
      && a !in selected && a in pool && pool[a].priority == p
      && Mid(pool, first, caps, p, r, active, ahead[1..], b[k := b[k][1..]], selected + {a}, Bump(taken, ahead[0]), picks + [a])
  {
    var k := Item(p, ahead[0]);
    var a := b[k][0];
    TakeHead(pool, first, caps, b, selected, taken, picks, k);
    PickInPass(pool, selected, p, active, ahead, r, a);
    ClosedStays(pool, caps, selected, selected + {a});
  }

  /** Visiting one source: it leaves the round when at its limit or out of articles, else its
      oldest waiting article is selected. */
  method Visit(ghost pool: Pool, ghost first: map<string, int>, caps: Caps, p: int, ghost r: nat, ghost ahead: seq<string>,
    s: string, active0: seq<string>, b0: Buckets, selected0: set<string>, taken0: map<string, int>, ghost picks0: seq<string>)
    returns (picked: bool, active: seq<string>, b: Buckets, selected: set<string>, taken: map<string, int>,
      ghost picks: seq<string>)
    requires ahead != [] && ahead[0] == s
    requires Mid(pool, first, caps, p, r, active0, ahead, b0, selected0, taken0, picks0)
    ensures Mid(pool, first, caps, p, r, active, ahead[1..], b, selected, taken, picks)
    ensures OnlyAt(pool, selected0, selected, p) && b.Keys == b0.Keys
    ensures picked ==> active == active0 && |selected| == |selected0| + 1
    ensures !picked ==> selected == selected0 && |active| < |active0|
    ensures forall x :: x in active ==> x in active0
  {
    var k := Item(p, s);
    picked, active, b, selected, taken, picks := false, active0, b0, selected0, taken0, picks0;
    if Count(caps.used, s) + Count(taken, s) >= caps.limit || b[k] == [] {
      MidDrop(pool, first, caps, p, r, active, ahead, b, selected, taken, picks);
      active := Remove(active, s);
    } else {
      var a := b[k][0];
      MidPick(pool, first, caps, p, r, active, ahead, b, selected, taken, picks);
      b := b[k := b[k][1..]];
      selected := selected + {a};
      taken := Bump(taken, s);
      picks := picks + [a];
      picked := true;
    }
  }

  /** One pass over the sources still active at priority p. */
  method Pass(ghost pool: Pool, ghost first: map<string, int>, caps: Caps, slots: nat, p: int, sources: seq<string>,
    b0: Buckets, selected0: set<string>, taken0: map<string, int>, ghost picks0: seq<string>, ghost r: nat)
    returns (active: seq<string>, progressed: bool, b: Buckets, selected: set<string>, taken: map<string, int>,
      ghost picks: seq<string>, ghost ahead: seq<string>)
    requires Mid(pool, first, caps, p, r, sources, sources, b0, selected0, taken0, picks0) && |selected0| < slots
    ensures Mid(pool, first, caps, p, r, active, ahead, b, selected, taken, picks)
    ensures |selected| < slots ==> ahead == []
    ensures |selected| <= slots && b.Keys == b0.Keys
    ensures OnlyAt(pool, selected0, selected, p)
    ensures forall s :: s in active ==> s in sources
    ensures if progressed then |selected| > |selected0| else active == []
  {
    active, progressed, b, selected, taken, picks := sources, false, b0, selected0, taken0, picks0;
    var i := 0;
    ahead := sources;
    while i < |sources| && |selected| < slots
      invariant 0 <= i <= |sources| && ahead == sources[i..]
      invariant Mid(pool, first, caps, p, r, active, ahead, b, selected, taken, picks)
      invariant |selected| <= slots && b.Keys == b0.Keys
      invariant OnlyAt(pool, selected0, selected, p)
      invariant forall s :: s in active ==> s in sources
      invariant if progressed then |selected| > |selected0| else |active| <= |ahead| && |selected| == |selected0|
    {
      var picked;
      picked, active, b, selected, taken, picks :=
        Visit(pool, first, caps, p, r, ahead, sources[i], active, b, selected, taken, picks);
      progressed := progressed || picked;
      i := i + 1;
      ahead := ahead[1..];
    }
  }

  lemma NextRound(pool: Pool, first: map<string, int>, caps: Caps, p: int, r: nat,
    active: seq<string>, b: Buckets, selected: set<string>, taken: map<string, int>, picks: seq<string>)
    requires Mid(pool, first, caps, p, r, active, [], b, selected, taken, picks)
    requires forall s :: s in active ==> Item(p, s) in b
    ensures Mid(pool, first, caps, p, r + 1, active, active, b, selected, taken, picks)
  {
  }

  /** All rounds at one priority. */
  method SelectLevel(ghost pool: Pool, ghost first: map<string, int>, caps: Caps, slots: nat, p: int, sources: seq<string>,
    b0: Buckets, selected0: set<string>, taken0: map<string, int>, ghost picks0: seq<string>)
    returns (b: Buckets, selected: set<string>, taken: map<string, int>, ghost picks: seq<string>)
    requires State(pool, first, caps, b0, selected0, taken0, picks0) && |selected0| < slots
    requires ClosedAbove(pool, caps, selected0, p) && Settled(pool, caps, selected0, p, sources)
    requires Distinct(sources) && forall s :: s in sources ==> Item(p, s) in b0
    requires forall s :: With(pool, selected0, Item(p, s)) == {}
    ensures State(pool, first, caps, b, selected, taken, picks) && |selected| <= slots && b.Keys == b0.Keys
    ensures OnlyAt(pool, selected0, selected, p)
    ensures ClosedAbove(pool, caps, selected, p) && FairAt(pool, caps, selected, p)
    ensures |selected| < slots ==> ClosedAbove(pool, caps, selected, p - 1)
  {
    var active := sources;
    b, selected, taken, picks := b0, selected0, taken0, picks0;
    ghost var r: nat, ahead := 0, sources;
    while active != [] && |selected| < slots
      invariant Mid(pool, first, caps, p, r, active, ahead, b, selected, taken, picks)
      invariant |selected| < slots ==> ahead == active
      invariant |selected| <= slots && b.Keys == b0.Keys
      invariant OnlyAt(pool, selected0, selected, p)
      invariant forall s :: s in active ==> Item(p, s) in b
      decreases slots - |selected|, |active|
    {
      var progressed;
      active, progressed, b, selected, taken, picks, ahead :=
        Pass(pool, first, caps, slots, p, active, b, selected, taken, picks, r);
      if !progressed {
        break;
      }
      if |selected| < slots {
        NextRound(pool, first, caps, p, r, active, b, selected, taken, picks);
        r := r + 1;
        ahead := active;
      }
    }
    RoundIsFair(pool, caps, selected, p, active, r);
  }

  ghost predicate Descending(ps: seq<int>) { forall i, j :: 0 <= i < j < |ps| ==> ps[i] > ps[j] }

  function InsertDescending(ps: seq<int>, p: int): seq<int> {
    if ps == [] || p > ps[0] then [p] + ps else [ps[0]] + InsertDescending(ps[1..], p)
  }

  lemma DescendingCons(h: int, tail: seq<int>)
    requires Descending(tail) && forall x :: x in tail ==> x < h
    ensures Descending([h] + tail)
  {
    var r := [h] + tail;
    forall i, j | 0 <= i < j < |r| ensures r[i] > r[j] {
      assert r[j] == tail[j - 1] && tail[j - 1] in tail;
    }
  }

  lemma {:induction false} InsertDescendingSorts(ps: seq<int>, p: int)
    requires Descending(ps) && p !in ps
    ensures Descending(InsertDescending(ps, p))
    ensures forall x :: x in InsertDescending(ps, p) <==> x in ps || x == p
  {
    if ps == [] || p > ps[0] {
      DescendingCons(p, ps);
    } else {
      assert ps[0] in ps && ps == [ps[0]] + ps[1..];
      InsertDescendingSorts(ps[1..], p);
      DescendingCons(ps[0], InsertDescending(ps[1..], p));
    }
  }

  method SortDescending(xs: seq<int>) returns (ps: seq<int>)
    requires Distinct(xs)
    ensures Descending(ps) && Distinct(ps) && forall p :: p in ps <==> p in xs
  {
    ps := [];
    for n := 0 to |xs|
      invariant Descending(ps) && forall p :: p in ps <==> p in xs[..n]
    {
      assert xs[..n + 1] == xs[..n] + [xs[n]];
      InsertDescendingSorts(ps, xs[n]);
      ps := InsertDescending(ps, xs[n]);
    }
    assert xs[..|xs|] == xs;
  }

  lemma FairStep(pool: Pool, caps: Caps, xs: set<string>, ys: set<string>, p: int)
    requires OnlyAt(pool, xs, ys, p) && (forall a :: a in xs ==> a in pool && pool[a].priority > p)
    requires ClosedAbove(pool, caps, ys, p) && FairAt(pool, caps, ys, p)
    ensures Fair(pool, caps, ys)
  {
    forall q, s, t | Waiting(pool, caps, ys, q, s)
      ensures |With(pool, ys, Item(q, t))| <= |With(pool, ys, Item(q, s))| + 1
    {
      if q < p {
        assert With(pool, ys, Item(q, t)) == {};
      }
    }
  }

  /** What the selection returns: a complete greedy choice among the candidates, fair between
      the sources of one priority and oldest first within each. */
  ghost predicate Selects(e: seq<Job>, consumed: set<string>, caps: Caps, slots: nat, selected: set<string>,
    pool: Pool, first: map<string, int>, picks: seq<string>)
  {
    && IsPool(e, consumed, pool, first)
    && GreedyRun(pool, caps, picks) && Complete(pool, caps, slots, picks) && selected == Elems(picks)
    && Fair(pool, caps, selected) && OldestFirst(pool, first, selected)
  }

  lemma NothingSelected(pool: Pool, first: map<string, int>, caps: Caps, b: Buckets)
    requires Bucketed(pool, first, pool.Keys, b) && first.Keys == pool.Keys
    ensures State(pool, first, caps, b, {}, map[], [])
    ensures Fair(pool, caps, {})
    ensures forall k :: With(pool, {}, k) == {}
  {
    assert Elems<string>([]) == {};
    assert pool.Keys - {} == pool.Keys;
    forall s ensures Of(pool, {}, s) == {} {}
    forall k ensures With(pool, {}, k) == {} {}
  }

  /** Between levels: the priorities of ps[..i] are done, those of ps[i..] untouched. */
  ghost predicate Between(pool: Pool, caps: Caps, slots: nat, b: Buckets, levels: map<int, seq<string>>,
    selected: set<string>, ps: seq<int>, i: nat)
  {
    && i <= |ps| && Descending(ps) && Levelled(b.Keys, levels, ps)
    && |selected| <= slots && Fair(pool, caps, selected)
    && (forall a :: a in pool && a !in selected ==> pool[a] in b)
    && (forall a :: a in selected ==> a in pool && pool[a].priority in ps[..i])
    && (|selected| < slots ==>
          forall a :: a in pool && a !in selected && pool[a].priority !in ps[i..] ==> Closed(pool, caps, selected, pool[a].source))
  }

  lemma LevelStart(pool: Pool, caps: Caps, slots: nat, b: Buckets, levels: map<int, seq<string>>,
    selected: set<string>, ps: seq<int>, i: nat)
    requires Between(pool, caps, slots, b, levels, selected, ps, i) && i < |ps| && |selected| < slots
    ensures ps[i] in levels
    ensures ClosedAbove(pool, caps, selected, ps[i]) && Settled(pool, caps, selected, ps[i], levels[ps[i]])
    ensures Distinct(levels[ps[i]]) && forall s :: s in levels[ps[i]] ==> Item(ps[i], s) in b
    ensures forall a :: a in selected ==> a in pool && pool[a].priority > ps[i]
    ensures forall s :: With(pool, selected, Item(ps[i], s)) == {}
  {
    var p := ps[i];
    assert p in ps;
    forall a | a in pool && a !in selected && pool[a].priority == p ensures pool[a].source in levels[p] {
      assert pool[a] == Item(p, pool[a].source);
    }
  }

  lemma LevelDone(pool: Pool, caps: Caps, slots: nat, b: Buckets, levels: map<int, seq<string>>,
    xs: set<string>, ys: set<string>, b': Buckets, ps: seq<int>, i: nat)
    requires Between(pool, caps, slots, b, levels, xs, ps, i) && i < |ps| && |xs| < slots
    requires OnlyAt(pool, xs, ys, ps[i]) && |ys| <= slots && b'.Keys == b.Keys
    requires ClosedAbove(pool, caps, ys, ps[i]) && FairAt(pool, caps, ys, ps[i])
    requires |ys| < slots ==> ClosedAbove(pool, caps, ys, ps[i] - 1)
    ensures Between(pool, caps, slots, b', levels, ys, ps, i + 1)
  {
    LevelStart(pool, caps, slots, b, levels, xs, ps, i);
    FairStep(pool, caps, xs, ys, ps[i]);
    assert ps[..i + 1] == ps[..i] + [ps[i]] && ps[i..] == [ps[i]] + ps[i + 1..];
    if |ys| < slots {
      forall a | a in pool && a !in ys && pool[a].priority !in ps[i + 1..]
        ensures Closed(pool, caps, ys, pool[a].source)
      {
        assert pool[a] in b;
      }
    }
  }

  lemma AllDone(pool: Pool, caps: Caps, slots: nat, b: Buckets, levels: map<int, seq<string>>,
    picks: seq<string>, ps: seq<int>, i: nat)
    requires Between(pool, caps, slots, b, levels, Elems(picks), ps, i) && |Elems(picks)| == |picks|
    requires i == |ps| || |picks| == slots
    ensures Complete(pool, caps, slots, picks)
  {
    if |picks| < slots {
      forall a ensures !Choosable(pool, caps, Elems(picks), a) {
        assert ps[i..] == [];
      }
    }
  }

  method SelectNewArticles(e: seq<Job>, consumed: set<string>, counts: map<string, int>, slots: int, limit: int)
    returns (selected: set<string>, ghost pool: Pool, ghost first: map<string, int>, ghost picks: seq<string>)
    ensures Selects(e, consumed, Caps(limit, counts), Max(0, slots), selected, pool, first, picks)
  {
    var caps := Caps(limit, counts);
    var candidates, created, order := GroupArticles(e, consumed);
    pool, first := candidates, created;
    var b, levels, ps := FillBuckets(candidates, created, order);
    NothingSelected(pool, first, caps, b);
    selected, picks := {}, [];
    if slots <= 0 {
      return;
    }
    ps := SortDescending(ps);
    var taken := map[];
    var i := 0;
    assert ps[0..] == ps;
    while i < |ps| && |selected| < slots
      invariant State(pool, first, caps, b, selected, taken, picks)
      invariant 0 <= i && Between(pool, caps, slots, b, levels, selected, ps, i)
    {
      LevelStart(pool, caps, slots, b, levels, selected, ps, i);
      ghost var xs, was := selected, b;
      b, selected, taken, picks :=
        SelectLevel(pool, first, caps, slots, ps[i], levels[ps[i]], b, selected, taken, picks);
      LevelDone(pool, caps, slots, was, levels, xs, selected, b, ps, i);
      i := i + 1;
    }
    AllDone(pool, caps, slots, b, levels, picks, ps, i);
  }

  /** The main result about the selection: at or above every priority it admits exactly as many
      articles as the free slots and the per-source room allow. */
  lemma SelectionCount(e: seq<Job>, consumed: set<string>, caps: Caps, slots: nat, selected: set<string>,
    pool: Pool, first: map<string, int>, picks: seq<string>, p: int)
    requires Selects(e, consumed, caps, slots, selected, pool, first, picks)
    ensures |AtLeast(pool, selected, p)| == Min(slots, Capacity(pool, caps, p))
    ensures forall other :: Feasible(pool, caps, slots, other) ==> |AtLeast(pool, other, p)| <= |AtLeast(pool, selected, p)|
  {
    GreedyCount(pool, caps, slots, picks, p);
    forall other | Feasible(pool, caps, slots, other) ensures |AtLeast(pool, other, p)| <= |AtLeast(pool, selected, p)| {
      GreedyOptimal(pool, caps, slots, picks, other, p);
    }
  }
}
