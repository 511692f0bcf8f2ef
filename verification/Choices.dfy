/** Which jobs a claim takes, in terms of the rows: the engine's single job and the processor's batch. */
module Choices {
  import opened Base
  import opened Tables
  import opened Greedy
  import opened Selection
  import opened Views
  import opened Claiming
  import opened Commits
  import opened Engine
  import opened Processor
  import opened Columns

  // ----- a listing and the waiting jobs -----------------------------------------------------

  /** Every listed job waits. */
  ghost predicate AllWait(t: Tables, now: int, e: seq<Job>) {
    forall i :: 0 <= i < |e| ==> Waits(t, now, e[i].slot) && t.jobs[e[i].slot] == e[i]
  }

  /** Every waiting job is listed. */
  ghost predicate AllListed(t: Tables, now: int, e: seq<Job>) {
    forall k :: Waits(t, now, k) ==> exists i :: 0 <= i < |e| && e[i].slot == k
  }

  lemma PlaceOf(t: Tables, now: int, e: seq<Job>, k: Slot) returns (i: nat)
    requires AllListed(t, now, e) && Waits(t, now, k)
    ensures i < |e| && e[i].slot == k
  {
    i :| 0 <= i < |e| && e[i].slot == k;
  }

  lemma WellListed(t: Tables, now: int, e: seq<Job>)
    requires t.WellFormed() && EligibleListing(t, now, e)
    ensures AllWait(t, now, e) && AllListed(t, now, e)
  {
    ListedExactly(t, now, e);
  }

  // ----- the engine -------------------------------------------------------------------------

  /** The slot was delivered lately, and the job is not newer than that delivery. */
  predicate Served(t: Tables, now: int, k: Slot)
    requires k in t.jobs
  {
    DeliveredLately(t, now, k) && t.jobs[k].createdAt <= t.history[k].createdAt
  }

  /** A waiting job of an article that takes up a slot already. */
  ghost predicate Follows(t: Tables, now: int, k: Slot) {
    Waits(t, now, k) && !Served(t, now, k) && Occupies(t, now, k.article)
  }

  /** A waiting job of another article, whose source is below its limit. */
  ghost predicate MayOpen(t: Tables, now: int, counts: map<string, int>, limit: int, k: Slot) {
    && Waits(t, now, k) && !Served(t, now, k) && !Occupies(t, now, k.article)
    && Count(counts, t.jobs[k].source) < limit
  }

  predicate SameGroup(t: Tables, k: Slot, h: Slot)
    requires k in t.jobs && h in t.jobs
  {
    t.jobs[k].priority == t.jobs[h].priority && t.jobs[k].source == t.jobs[h].source
  }

  /** h is a waiting job of k's priority and source, and none of these is older. */
  ghost predicate Oldest(t: Tables, now: int, k: Slot, h: Slot)
    requires k in t.jobs
  {
    && Waits(t, now, h) && SameGroup(t, k, h)
    && forall x :: Waits(t, now, x) && SameGroup(t, k, x) ==> t.jobs[h].createdAt <= t.jobs[x].createdAt
  }

  /** An oldest job of k's priority and source was delivered already. */
  ghost predicate Behind(t: Tables, now: int, k: Slot)
    requires k in t.jobs
  {
    exists h :: Oldest(t, now, k, h) && Served(t, now, h)
  }

  /** The first listed job of a priority and source is an oldest one. */
  lemma HeadIsOldest(t: Tables, now: int, e: seq<Job>, i: nat)
    requires t.WellFormed() && EligibleListing(t, now, e) && i < |e|
    ensures e[i].slot in t.jobs && Oldest(t, now, e[i].slot, e[HeadOf(e, i)].slot)
  {
    ListedExactly(t, now, e);
    var h := HeadOf(e, i);
    forall x | Waits(t, now, x) && SameGroup(t, e[i].slot, x) ensures e[h].createdAt <= t.jobs[x].createdAt {
      var j :| 0 <= j < |e| && e[j].slot == x;
      assert GroupOf(e[j]) == GroupOf(e[i]);
      assert h <= j;
    }
  }

  lemma NewerMeans(t: Tables, now: int, e: seq<Job>, i: nat)
    requires t.WellFormed() && EligibleListing(t, now, e) && i < |e|
    ensures e[i].slot in t.jobs && (Newer(RecentRecords(t, now), e[i]) <==> !Served(t, now, e[i].slot))
  {
  }

  lemma FanMeans(t: Tables, now: int, e: seq<Job>)
    requires t.WellFormed() && EligibleListing(t, now, e)
    ensures forall i :: 0 <= i < |e| ==> (Fan(Consumed(t, now), RecentRecords(t, now), e[i]) <==> Follows(t, now, e[i].slot))
  {
    ListedExactly(t, now, e);
    forall i | 0 <= i < |e| ensures Fan(Consumed(t, now), RecentRecords(t, now), e[i]) <==> Follows(t, now, e[i].slot) {
      NewerMeans(t, now, e, i);
      OccupiesExactly(t, now, e[i].slot.article);
    }
  }

  /** j comes before k: by priority; within priority and source by age; between sources of one
      priority by the age of their oldest waiting jobs. */
  ghost predicate Ahead(t: Tables, now: int, j: Slot, k: Slot)
    requires j in t.jobs && k in t.jobs
  {
    || t.jobs[j].priority > t.jobs[k].priority
    || (SameGroup(t, j, k) && t.jobs[j].createdAt <= t.jobs[k].createdAt)
    || (t.jobs[j].priority == t.jobs[k].priority && t.jobs[j].source != t.jobs[k].source
        && exists h, x :: Oldest(t, now, j, h) && Oldest(t, now, k, x) && t.jobs[h].createdAt <= t.jobs[x].createdAt)
  }

  lemma PrecedesIsAhead(t: Tables, now: int, e: seq<Job>, i: nat, j: nat)
    requires t.WellFormed() && EligibleListing(t, now, e) && i < |e| && j < |e| && Precedes(e, i, j)
    ensures e[i].slot in t.jobs && e[j].slot in t.jobs && Ahead(t, now, e[i].slot, e[j].slot)
  {
    ListedExactly(t, now, e);
    HeadIsOldest(t, now, e, i);
    HeadIsOldest(t, now, e, j);
    var h, x := HeadOf(e, i), HeadOf(e, j);
    assert GroupOf(e[h]) == GroupOf(e[i]) && GroupOf(e[x]) == GroupOf(e[j]);
    assert e[h].priority >= e[x].priority;
    if e[h].priority == e[x].priority && e[h].source != e[x].source {
      assert Oldest(t, now, e[i].slot, e[h].slot) && Oldest(t, now, e[j].slot, e[x].slot);
    }
  }

  lemma FanIsAhead(t: Tables, now: int, e: seq<Job>, i: nat, k: Slot)
    requires t.WellFormed() && EligibleListing(t, now, e) && FanPick(e, Consumed(t, now), RecentRecords(t, now), i)
    requires Follows(t, now, k)
    ensures e[i].slot in t.jobs && Ahead(t, now, e[i].slot, k)
  {
    WellListed(t, now, e);
    FanMeans(t, now, e);
    var j := PlaceOf(t, now, e, k);
    if j != i {
      PrecedesIsAhead(t, now, e, i, j);
    }
  }

  lemma FanIsPicked(t: Tables, now: int, e: seq<Job>, caps: Caps, slots: int, r: Option<nat>, k: Slot)
    requires t.WellFormed() && EligibleListing(t, now, e) && Follows(t, now, k)
    requires EngineChoice(e, Consumed(t, now), RecentRecords(t, now), caps, slots, r)
    ensures r.Some? && FanPick(e, Consumed(t, now), RecentRecords(t, now), r.value) && Follows(t, now, e[r.value].slot)
  {
    WellListed(t, now, e);
    FanMeans(t, now, e);
    var j := PlaceOf(t, now, e, k);
    assert Fan(Consumed(t, now), RecentRecords(t, now), e[j]);
  }

  /** Fan-out comes first: if any waiting job belongs to an article that takes up a slot already and was
      not served since its creation, the claim takes such a job, and one that is ahead of all others. */
  lemma FansOutFirst(cfg: Config, t: Tables, now: int, e: seq<Job>, counts: map<string, int>, tags: map<string, string>,
    r: Option<nat>)
    requires t.WellFormed() && EngineClaims(cfg, t, now, e, counts, tags, r)
    requires exists k :: Follows(t, now, k)
    ensures r.Some? && Follows(t, now, e[r.value].slot)
    ensures forall k :: Follows(t, now, k) ==> Ahead(t, now, e[r.value].slot, k)
  {
    var caps, slots := Caps(cfg.sourceLimit, counts), cfg.globalLimit - |Consumed(t, now)|;
    var some :| Follows(t, now, some);
    FanIsPicked(t, now, e, caps, slots, r, some);
    forall k | Follows(t, now, k) ensures Ahead(t, now, e[r.value].slot, k) {
      FanIsAhead(t, now, e, r.value, k);
    }
  }

  lemma OpenableMeans(cfg: Config, t: Tables, now: int, e: seq<Job>, counts: map<string, int>, i: nat)
    requires t.WellFormed() && EligibleListing(t, now, e) && i < |e|
    ensures e[i].slot in t.jobs
    ensures Openable(Consumed(t, now), RecentRecords(t, now), Caps(cfg.sourceLimit, counts), e[i]) <==>
      MayOpen(t, now, counts, cfg.sourceLimit, e[i].slot)
  {
    ListedExactly(t, now, e);
    NewerMeans(t, now, e, i);
    OccupiesExactly(t, now, e[i].slot.article);
  }

  /** A job that could be opened and stands behind no served one has an open head. */
  lemma OpenInFront(cfg: Config, t: Tables, now: int, e: seq<Job>, counts: map<string, int>, k: Slot) returns (h: nat)
    requires t.WellFormed() && EligibleListing(t, now, e) && forall j :: !Follows(t, now, j)
    requires MayOpen(t, now, counts, cfg.sourceLimit, k) && !Behind(t, now, k)
    ensures h < |e| && OpenHead(e, Consumed(t, now), RecentRecords(t, now), Caps(cfg.sourceLimit, counts), h)
    ensures e[h].priority == t.jobs[k].priority && e[h].createdAt <= t.jobs[k].createdAt
  {
    WellListed(t, now, e);
    var i := PlaceOf(t, now, e, k);
    h := HeadOf(e, i);
    HeadIsOldest(t, now, e, i);
    assert GroupOf(e[h]) == GroupOf(e[i]);
    OpenableMeans(cfg, t, now, e, counts, h);
    assert !Follows(t, now, e[h].slot);
    assert HeadOf(e, h) == h;
  }

  /** k comes no later than j: its priority is higher, or equal with k not younger. */
  predicate NoLater(t: Tables, k: Slot, j: Slot)
    requires k in t.jobs && j in t.jobs
  {
    || t.jobs[j].priority < t.jobs[k].priority
    || (t.jobs[j].priority == t.jobs[k].priority && t.jobs[k].createdAt <= t.jobs[j].createdAt)
  }

  lemma ListedNoLater(t: Tables, now: int, e: seq<Job>, i: nat, j: nat)
    requires t.WellFormed() && EligibleListing(t, now, e) && i <= j < |e|
    ensures e[i].slot in t.jobs && e[j].slot in t.jobs && NoLater(t, e[i].slot, e[j].slot)
    ensures t.jobs[e[j].slot] == e[j]
  {
    ListedExactly(t, now, e);
  }

  lemma NothingFollows(t: Tables, now: int, e: seq<Job>)
    requires t.WellFormed() && EligibleListing(t, now, e) && forall k :: !Follows(t, now, k)
    ensures NoFan(e, Consumed(t, now), RecentRecords(t, now))
  {
    FanMeans(t, now, e);
  }

  lemma OpenedFirst(cfg: Config, t: Tables, now: int, e: seq<Job>, counts: map<string, int>, r: Option<nat>, j: Slot)
    requires t.WellFormed() && EligibleListing(t, now, e) && forall k :: !Follows(t, now, k)
    requires EngineChoice(e, Consumed(t, now), RecentRecords(t, now), Caps(cfg.sourceLimit, counts), cfg.globalLimit - |Consumed(t, now)|, r)
    requires MayOpen(t, now, counts, cfg.sourceLimit, j) && !Behind(t, now, j) && |Consumed(t, now)| < cfg.globalLimit
    ensures r.Some? && e[r.value].slot in t.jobs && NoLater(t, e[r.value].slot, j)
  {
    var h := OpenInFront(cfg, t, now, e, counts, j);
    NothingFollows(t, now, e);
    ListedNoLater(t, now, e, r.value, h);
  }

  lemma OpenedIsOldest(cfg: Config, t: Tables, now: int, e: seq<Job>, counts: map<string, int>, i: nat)
    requires t.WellFormed() && EligibleListing(t, now, e)
    requires OpenHead(e, Consumed(t, now), RecentRecords(t, now), Caps(cfg.sourceLimit, counts), i)
    ensures MayOpen(t, now, counts, cfg.sourceLimit, e[i].slot) && Oldest(t, now, e[i].slot, e[i].slot)
  {
    OpenableMeans(cfg, t, now, e, counts, i);
    HeadIsOldest(t, now, e, i);
  }

  /** Otherwise a new article is opened if the global limit leaves a slot: the claimed job is an oldest of
      its priority and source, its source is below its limit, and it comes no later than any other job
      that could be opened, unless that one stands behind a served job. */
  lemma OpensInOrder(cfg: Config, t: Tables, now: int, e: seq<Job>, counts: map<string, int>, tags: map<string, string>,
    r: Option<nat>)
    requires t.WellFormed() && EngineClaims(cfg, t, now, e, counts, tags, r)
    requires forall k :: !Follows(t, now, k)
    ensures r.Some? ==>
      && |Consumed(t, now)| < cfg.globalLimit
      && MayOpen(t, now, counts, cfg.sourceLimit, e[r.value].slot) && Oldest(t, now, e[r.value].slot, e[r.value].slot)
    ensures forall j :: |Consumed(t, now)| < cfg.globalLimit && MayOpen(t, now, counts, cfg.sourceLimit, j) && !Behind(t, now, j) ==>
      r.Some? && NoLater(t, e[r.value].slot, j)
  {
    if r.Some? {
      NothingFollows(t, now, e);
      OpenedIsOldest(cfg, t, now, e, counts, r.value);
    }
    forall j | |Consumed(t, now)| < cfg.globalLimit && MayOpen(t, now, counts, cfg.sourceLimit, j) && !Behind(t, now, j)
      ensures r.Some? && NoLater(t, e[r.value].slot, j)
    {
      OpenedFirst(cfg, t, now, e, counts, r, j);
    }
  }

  // ----- the processor ----------------------------------------------------------------------

  lemma SkippedInBatch(t: Tables, now: int, k: Slot)
    ensures Delivered(t, now, k) <==>
      && DeliveredLately(t, now, k)
      && !(k.article in t.articles && DatedAfter(t.articles[k.article], t.history[k].createdAt))
  {
  }

  lemma ClaimableMeans(t: Tables, now: int, e: seq<Job>, wanted: set<string>, k: Slot)
    requires AllWait(t, now, e) && AllListed(t, now, e)
    ensures k in Claimable(t, now, e, wanted) <==> Waits(t, now, k) && k.article in wanted && !Delivered(t, now, k)
  {
    if Waits(t, now, k) {
      var i := PlaceOf(t, now, e, k);
    }
  }

  /** The batch is exactly the waiting jobs of the articles that take up a slot or were selected to, less
      those whose slot had a success within the hour that the article's time is not later than. */
  lemma BatchedExactly(cfg: Config, t: Tables, now: int, claimed: set<Slot>, e: seq<Job>, counts: map<string, int>,
    tags: map<string, string>, selected: set<string>, pool: Pool, first: map<string, int>, picks: seq<string>, k: Slot)
    requires t.WellFormed() && ProcessorClaims(cfg, t, now, claimed, e, counts, tags, selected, pool, first, picks)
    ensures k in claimed <==>
      && Waits(t, now, k) && (Occupies(t, now, k.article) || k.article in selected)
      && (DeliveredLately(t, now, k) ==> k.article in t.articles && DatedAfter(t.articles[k.article], t.history[k].createdAt))
  {
    assert claimed == Claimable(t, now, e, Consumed(t, now) + selected);
    WellListed(t, now, e);
    ClaimableMeans(t, now, e, Consumed(t, now) + selected, k);
    SkippedInBatch(t, now, k);
    OccupiesExactly(t, now, k.article);
  }

  /** An update that is later than the recorded delivery of the version before goes out at once: its
      waiting job is in every batch, and needs no free slot. */
  lemma UpdateIsBatched(cfg: Config, t: Tables, now: int, claimed: set<Slot>, e: seq<Job>, counts: map<string, int>,
    tags: map<string, string>, selected: set<string>, pool: Pool, first: map<string, int>, picks: seq<string>, k: Slot)
    requires t.WellFormed() && ProcessorClaims(cfg, t, now, claimed, e, counts, tags, selected, pool, first, picks)
    requires Waits(t, now, k) && DeliveredLately(t, now, k) && k.article in t.articles
    requires var a := t.articles[k.article];
      a.updatedAt.Some? && a.updatedAt.value != 0 && a.updatedAt.value > t.history[k].createdAt
    ensures k in claimed
  {
    BatchedExactly(cfg, t, now, claimed, e, counts, tags, selected, pool, first, picks, k);
    assert Occupies(t, now, k.article);
  }

  /** The best priority among the article's waiting jobs. */
  ghost predicate Best(t: Tables, now: int, a: string, p: int) {
    && (exists k :: Waits(t, now, k) && k.article == a && t.jobs[k].priority == p)
    && (forall k :: Waits(t, now, k) && k.article == a ==> t.jobs[k].priority <= p)
  }

  /** An article with waiting jobs that takes up no slot. */
  ghost predicate Candidate(t: Tables, now: int, a: string) {
    !Occupies(t, now, a) && exists k :: Waits(t, now, k) && k.article == a
  }

  ghost predicate FromSource(t: Tables, now: int, a: string, s: string) {
    forall k :: Waits(t, now, k) && k.article == a ==> t.jobs[k].source == s
  }

  /** Some waiting job of a is no younger than any of b. */
  ghost predicate Elder(t: Tables, now: int, a: string, b: string) {
    exists k :: Waits(t, now, k) && k.article == a &&
      forall j :: Waits(t, now, j) && j.article == b ==> t.jobs[k].createdAt <= t.jobs[j].createdAt
  }

  lemma ListedAreCandidates(t: Tables, now: int, e: seq<Job>, a: string)
    requires AllWait(t, now, e) && a in Listed(e) - Consumed(t, now)
    ensures Candidate(t, now, a)
  {
    OccupiesExactly(t, now, a);
    var i :| 0 <= i < |e| && e[i].slot.article == a;
    assert Waits(t, now, e[i].slot);
  }

  lemma CandidatesAreListed(t: Tables, now: int, e: seq<Job>, a: string)
    requires AllListed(t, now, e) && Candidate(t, now, a)
    ensures a in Listed(e) - Consumed(t, now)
  {
    OccupiesExactly(t, now, a);
    var k :| Waits(t, now, k) && k.article == a;
    var i := PlaceOf(t, now, e, k);
  }

  /** The best priority, the source and the age that the selection works with. */
  lemma BestInPool(t: Tables, now: int, e: seq<Job>, a: string, item: Item, time: int, k: Slot, i: nat)
    requires AllWait(t, now, e) && Describes(e, a, item, time) && Waits(t, now, k)
    requires Best(t, now, a, t.jobs[k].priority) && k.article == a && i < |e| && e[i].slot == k
    ensures item.priority == t.jobs[k].priority
  {
    var j :| JobOf(e, j, a) && e[j].priority == item.priority;
    assert Waits(t, now, e[j].slot);
    assert JobOf(e, i, a);
  }

  lemma BestIsPriority(t: Tables, now: int, e: seq<Job>, a: string, item: Item, time: int, p: int)
    requires AllWait(t, now, e) && AllListed(t, now, e) && Describes(e, a, item, time) && Best(t, now, a, p)
    ensures item.priority == p
  {
    var k :| Waits(t, now, k) && k.article == a && t.jobs[k].priority == p;
    var i := PlaceOf(t, now, e, k);
    BestInPool(t, now, e, a, item, time, k, i);
  }

  lemma ElderInPool(t: Tables, now: int, e: seq<Job>, a: string, b: string, x: Item, y: Item, s: int, u: int)
    requires AllWait(t, now, e) && AllListed(t, now, e) && Describes(e, a, x, s) && Describes(e, b, y, u) && s <= u
    ensures Elder(t, now, a, b)
  {
    var i :| JobOf(e, i, a) && e[i].createdAt == s;
    var k := e[i].slot;
    assert Waits(t, now, k);
    forall j | Waits(t, now, j) && j.article == b ensures t.jobs[k].createdAt <= t.jobs[j].createdAt {
      var z := PlaceOf(t, now, e, j);
      assert JobOf(e, z, b);
    }
  }

  /** Of the article's waiting jobs, k has the lowest priority, and is as young as any of that priority. */
  ghost predicate ListedLast(t: Tables, now: int, a: string, k: Slot) {
    && Waits(t, now, k) && k.article == a
    && forall j :: Waits(t, now, j) && j.article == a ==>
         t.jobs[j].priority > t.jobs[k].priority || (t.jobs[j].priority == t.jobs[k].priority && t.jobs[j].createdAt <= t.jobs[k].createdAt)
  }

  lemma LastInListing(t: Tables, now: int, e: seq<Job>, a: string, i: nat)
    requires t.WellFormed() && EligibleListing(t, now, e) && JobOf(e, i, a) && forall j :: JobOf(e, j, a) ==> j <= i
    ensures ListedLast(t, now, a, e[i].slot)
  {
    WellListed(t, now, e);
    forall j | Waits(t, now, j) && j.article == a ensures NoLater(t, j, e[i].slot) {
      var x := PlaceOf(t, now, e, j);
      assert JobOf(e, x, a);
      ListedNoLater(t, now, e, x, i);
    }
  }

  /** An article whose jobs differ in source counts for the source of the last listed one. */
  lemma SourceOfLast(t: Tables, now: int, e: seq<Job>, pool: Pool, first: map<string, int>, a: string)
    requires t.WellFormed() && EligibleListing(t, now, e) && IsPool(e, Consumed(t, now), pool, first) && a in pool
    ensures exists k :: ListedLast(t, now, a, k) && t.jobs[k].source == pool[a].source
  {
    assert Describes(e, a, pool[a], first[a]);
    var i :| JobOf(e, i, a) && e[i].source == pool[a].source && forall j :: JobOf(e, j, a) ==> j <= i;
    LastInListing(t, now, e, a, i);
    ListedNoLater(t, now, e, i, i);
  }

  /** A source whose articles are still choosable before a pick was not passed over for a lower priority. */
  lemma {:induction false} RanksFirst(pool: Pool, caps: Caps, picks: seq<string>, a: string, b: string)
    requires GreedyRun(pool, caps, picks) && a in picks && b in pool && b !in picks
    requires a in pool && pool[a].priority < pool[b].priority
    ensures !Choosable(pool, caps, Elems(picks), b)
  {
    var n := |picks| - 1;
    var front := picks[..n];
    assert Of(pool, Elems(front), pool[b].source) <= Of(pool, Elems(picks), pool[b].source);
    SubsetSize(Of(pool, Elems(front), pool[b].source), Of(pool, Elems(picks), pool[b].source));
    if a in front {
      RanksFirst(pool, caps, front, a, b);
    } else {
      assert a == picks[n];
      assert !Choosable(pool, caps, Elems(front), b);
    }
  }

  ghost function From(xs: set<string>, src: string -> string, s: string): set<string> { set a | a in xs && src(a) == s }

  /** The source has no room left after the selection. */
  ghost predicate Full(cfg: Config, counts: map<string, int>, selected: set<string>, src: string -> string, s: string) {
    Count(counts, s) + |From(selected, src, s)| >= cfg.sourceLimit
  }

  lemma NotChoosableIsFull(cfg: Config, counts: map<string, int>, pool: Pool, selected: set<string>, src: string -> string, b: string)
    requires selected <= pool.Keys && b in pool && b !in selected && forall a :: a in pool ==> pool[a].source == src(a)
    ensures Full(cfg, counts, selected, src, src(b)) <==> !Choosable(pool, Caps(cfg.sourceLimit, counts), selected, b)
  {
    assert From(selected, src, src(b)) == Of(pool, selected, src(b));
  }

  lemma PicksFillSlots(pool: Pool, caps: Caps, slots: nat, picks: seq<string>, b: string)
    requires GreedyRun(pool, caps, picks) && Complete(pool, caps, slots, picks)
    ensures Elems(picks) <= pool.Keys && |Elems(picks)| <= slots
    ensures !Choosable(pool, caps, Elems(picks), b) || |Elems(picks)| == slots
  {
    GreedyFeasible(pool, caps, picks);
    DistinctSize(picks);
  }

  lemma SelectedAre(t: Tables, now: int, e: seq<Job>, caps: Caps, slots: nat, selected: set<string>, pool: Pool,
    first: map<string, int>, picks: seq<string>, a: string)
    requires AllWait(t, now, e) && Selects(e, Consumed(t, now), caps, slots, selected, pool, first, picks)
    ensures |selected| <= slots && (a in selected ==> Candidate(t, now, a))
  {
    PicksFillSlots(pool, caps, slots, picks, a);
    if a in selected {
      ListedAreCandidates(t, now, e, a);
    }
  }

  /** Only articles with waiting jobs that take up no slot are selected, and no more than slots are free. */
  lemma SelectedAreCandidates(cfg: Config, t: Tables, now: int, claimed: set<Slot>, e: seq<Job>, counts: map<string, int>,
    tags: map<string, string>, selected: set<string>, pool: Pool, first: map<string, int>, picks: seq<string>, a: string)
    requires t.WellFormed() && ProcessorClaims(cfg, t, now, claimed, e, counts, tags, selected, pool, first, picks)
    ensures |selected| <= Max(0, cfg.globalLimit - |Consumed(t, now)|)
    ensures a in selected ==> Candidate(t, now, a)
  {
    WellListed(t, now, e);
    SelectedAre(t, now, e, Caps(cfg.sourceLimit, counts), Max(0, cfg.globalLimit - |Consumed(t, now)|), selected, pool, first, picks, a);
  }

  /** src tells which source each candidate counts for. */
  ghost predicate Attributes(pool: Pool, src: string -> string) { forall a :: a in pool ==> pool[a].source == src(a) }

  /** What the greedy choice says about a candidate that stays out. */
  lemma StaysOut(cfg: Config, counts: map<string, int>, slots: nat, pool: Pool, picks: seq<string>, src: string -> string, b: string)
    requires Attributes(pool, src)
    requires GreedyRun(pool, Caps(cfg.sourceLimit, counts), picks) && Complete(pool, Caps(cfg.sourceLimit, counts), slots, picks)
    requires b in pool && b !in Elems(picks)
    ensures Full(cfg, counts, Elems(picks), src, src(b)) || |Elems(picks)| == slots
    ensures forall a :: a in Elems(picks) ==>
      a in pool && (pool[a].priority < pool[b].priority ==> Full(cfg, counts, Elems(picks), src, src(b)))
  {
    var caps := Caps(cfg.sourceLimit, counts);
    PicksFillSlots(pool, caps, slots, picks, b);
    NotChoosableIsFull(cfg, counts, pool, Elems(picks), src, b);
    forall a | a in picks && pool[a].priority < pool[b].priority ensures !Choosable(pool, caps, Elems(picks), b) {
      RanksFirst(pool, caps, picks, a, b);
    }
  }

  /** A candidate stays out only when the slots are used up or its source is full. */
  lemma StaysOutExactly(cfg: Config, t: Tables, now: int, e: seq<Job>, counts: map<string, int>, slots: nat,
    selected: set<string>, pool: Pool, first: map<string, int>, picks: seq<string>, src: string -> string, b: string)
    requires AllListed(t, now, e) && Attributes(pool, src) && Candidate(t, now, b) && b !in selected
    requires Selects(e, Consumed(t, now), Caps(cfg.sourceLimit, counts), slots, selected, pool, first, picks)
    ensures b in pool && (Full(cfg, counts, selected, src, src(b)) || |selected| == slots)
    ensures forall a :: a in selected ==>
      a in pool && (pool[a].priority < pool[b].priority ==> Full(cfg, counts, selected, src, src(b)))
  {
    CandidatesAreListed(t, now, e, b);
    StaysOut(cfg, counts, slots, pool, picks, src, b);
  }

  /** Among equals the oldest get in. */
  lemma OlderGetsIn(t: Tables, now: int, e: seq<Job>, pool: Pool, first: map<string, int>, selected: set<string>, a: string, b: string)
    requires AllWait(t, now, e) && AllListed(t, now, e) && IsPool(e, Consumed(t, now), pool, first)
    requires OldestFirst(pool, first, selected) && a in pool && b in pool && a in selected && b !in selected && pool[a] == pool[b]
    ensures Elder(t, now, a, b)
  {
    assert Describes(e, a, pool[a], first[a]) && Describes(e, b, pool[b], first[b]);
    ElderInPool(t, now, e, a, b, pool[a], pool[b], first[a], first[b]);
  }

  lemma GetsIn(t: Tables, now: int, e: seq<Job>, pool: Pool, first: map<string, int>, selected: set<string>,
    src: string -> string, a: string, p: int, b: string, q: int)
    requires AllWait(t, now, e) && AllListed(t, now, e) && IsPool(e, Consumed(t, now), pool, first) && Attributes(pool, src)
    requires OldestFirst(pool, first, selected) && a in pool && b in pool && a in selected && b !in selected
    requires Best(t, now, a, p) && Best(t, now, b, q)
    ensures pool[a].priority == p && pool[b].priority == q
    ensures p == q && src(a) == src(b) ==> Elder(t, now, a, b)
  {
    assert Describes(e, a, pool[a], first[a]) && Describes(e, b, pool[b], first[b]);
    BestIsPriority(t, now, e, a, pool[a], first[a], p);
    BestIsPriority(t, now, e, b, pool[b], first[b], q);
    if p == q && src(a) == src(b) {
      OlderGetsIn(t, now, e, pool, first, selected, a, b);
    }
  }

  lemma SelectionInOrder(cfg: Config, t: Tables, now: int, e: seq<Job>, counts: map<string, int>, slots: nat,
    selected: set<string>, pool: Pool, first: map<string, int>, picks: seq<string>, src: string -> string,
    a: string, p: int, b: string, q: int)
    requires AllWait(t, now, e) && AllListed(t, now, e) && Attributes(pool, src)
    requires Selects(e, Consumed(t, now), Caps(cfg.sourceLimit, counts), slots, selected, pool, first, picks)
    requires Candidate(t, now, b) && b !in selected && Best(t, now, b, q)
    ensures Full(cfg, counts, selected, src, src(b)) || |selected| == slots
    ensures a in selected && Best(t, now, a, p) && p < q ==> Full(cfg, counts, selected, src, src(b))
    ensures a in selected && Best(t, now, a, p) && p == q && src(a) == src(b) ==> Elder(t, now, a, b)
  {
    StaysOutExactly(cfg, t, now, e, counts, slots, selected, pool, first, picks, src, b);
    if a in selected && Best(t, now, a, p) {
      GetsIn(t, now, e, pool, first, selected, src, a, p, b, q);
    }
  }

  /** A candidate stays out only when the slots are used up or its source is full; and whenever one of a
      lower best priority got in, its source is full. Of two candidates with one source and one best
      priority, the one that gets in has a job at least as old as all jobs of the one that stays out. */
  lemma SelectedInOrder(cfg: Config, t: Tables, now: int, claimed: set<Slot>, e: seq<Job>, counts: map<string, int>,
    tags: map<string, string>, selected: set<string>, pool: Pool, first: map<string, int>, picks: seq<string>,
    src: string -> string, a: string, p: int, b: string, q: int)
    requires t.WellFormed() && ProcessorClaims(cfg, t, now, claimed, e, counts, tags, selected, pool, first, picks)
    requires Attributes(pool, src) && Candidate(t, now, b) && Best(t, now, b, q) && b !in selected
    ensures Full(cfg, counts, selected, src, src(b)) || |selected| >= cfg.globalLimit - |Consumed(t, now)|
    ensures a in selected && Best(t, now, a, p) ==>
      && (p < q ==> Full(cfg, counts, selected, src, src(b)))
      && (p == q && src(a) == src(b) ==> Elder(t, now, a, b))
  {
    var slots := Max(0, cfg.globalLimit - |Consumed(t, now)|);
    WellListed(t, now, e);
    SelectionInOrder(cfg, t, now, e, counts, slots, selected, pool, first, picks, src, a, p, b, q);
  }

  /** The selected articles of one best priority and one source. */
  ghost function SelectedAt(t: Tables, now: int, selected: set<string>, src: string -> string, p: int, s: string): set<string> {
    set a | a in selected && Best(t, now, a, p) && src(a) == s
  }

  lemma SelectedAtIs(t: Tables, now: int, e: seq<Job>, pool: Pool, first: map<string, int>, selected: set<string>,
    src: string -> string, p: int, s: string)
    requires AllWait(t, now, e) && AllListed(t, now, e) && IsPool(e, Consumed(t, now), pool, first) && Attributes(pool, src)
    requires selected <= pool.Keys
    ensures SelectedAt(t, now, selected, src, p, s) == With(pool, selected, Item(p, s))
  {
    forall a | a in selected ensures Best(t, now, a, p) <==> pool[a].priority == p {
      assert Describes(e, a, pool[a], first[a]);
      BestInDescription(t, now, e, a, pool[a], first[a]);
      if Best(t, now, a, p) {
        BestIsPriority(t, now, e, a, pool[a], first[a], p);
      }
    }
  }

  lemma BestInDescription(t: Tables, now: int, e: seq<Job>, a: string, item: Item, time: int)
    requires AllWait(t, now, e) && AllListed(t, now, e) && Describes(e, a, item, time)
    ensures Best(t, now, a, item.priority)
  {
    var i :| JobOf(e, i, a) && e[i].priority == item.priority;
    assert Waits(t, now, e[i].slot);
    forall k | Waits(t, now, k) && k.article == a ensures t.jobs[k].priority <= item.priority {
      var j := PlaceOf(t, now, e, k);
      assert JobOf(e, j, a);
    }
  }

  lemma EvenlySelected(cfg: Config, t: Tables, now: int, e: seq<Job>, counts: map<string, int>, slots: nat,
    selected: set<string>, pool: Pool, first: map<string, int>, picks: seq<string>, src: string -> string,
    b: string, q: int, s: string)
    requires AllWait(t, now, e) && AllListed(t, now, e) && Attributes(pool, src)
    requires Selects(e, Consumed(t, now), Caps(cfg.sourceLimit, counts), slots, selected, pool, first, picks)
    requires Candidate(t, now, b) && Best(t, now, b, q) && b !in selected && !Full(cfg, counts, selected, src, src(b))
    ensures |SelectedAt(t, now, selected, src, q, s)| <= |SelectedAt(t, now, selected, src, q, src(b))| + 1
  {
    CandidatesAreListed(t, now, e, b);
    assert Describes(e, b, pool[b], first[b]);
    BestIsPriority(t, now, e, b, pool[b], first[b], q);
    PicksFillSlots(pool, Caps(cfg.sourceLimit, counts), slots, picks, b);
    NotChoosableIsFull(cfg, counts, pool, selected, src, b);
    SelectedAtIs(t, now, e, pool, first, selected, src, q, s);
    SelectedAtIs(t, now, e, pool, first, selected, src, q, src(b));
    assert Waiting(pool, Caps(cfg.sourceLimit, counts), selected, q, src(b));
  }

  /** Fairness: while a source that is not full still has a candidate of some best priority left, no other
      source got more than one article of that priority more than it. */
  lemma SelectedEvenly(cfg: Config, t: Tables, now: int, claimed: set<Slot>, e: seq<Job>, counts: map<string, int>,
    tags: map<string, string>, selected: set<string>, pool: Pool, first: map<string, int>, picks: seq<string>,
    src: string -> string, b: string, q: int, s: string)
    requires t.WellFormed() && ProcessorClaims(cfg, t, now, claimed, e, counts, tags, selected, pool, first, picks)
    requires Attributes(pool, src) && Candidate(t, now, b) && Best(t, now, b, q) && b !in selected
    requires !Full(cfg, counts, selected, src, src(b))
    ensures |SelectedAt(t, now, selected, src, q, s)| <= |SelectedAt(t, now, selected, src, q, src(b))| + 1
  {
    WellListed(t, now, e);
    EvenlySelected(cfg, t, now, e, counts, Max(0, cfg.globalLimit - |Consumed(t, now)|), selected, pool, first, picks, src, b, q, s);
  }
}
