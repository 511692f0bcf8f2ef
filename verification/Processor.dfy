/** The batch processor over the store: one claim transaction for many jobs, then each job
    delivered and acknowledged in turn. */
module Processor {
  import opened Base
  import opened Tables
  import opened Greedy
  import opened Selection
  import opened Views
  import opened Commits
  import opened Engine

  function NewsOf(t: Tables, article: string): Option<int> {
    if article in t.articles then t.articles[article].NewsTimestamp() else None
  }

  /** The version at hand was delivered to this destination within the hour. */
  ghost predicate Delivered(t: Tables, now: int, k: Slot) {
    k in RecentRecords(t, now) && NotAfter(NewsOf(t, k.article), t.history[k].createdAt)
  }

  /** The listed jobs of the wanted articles, less those whose version was already delivered. */
  ghost function Claimable(t: Tables, now: int, e: seq<Job>, wanted: set<string>): set<Slot> {
    set i | 0 <= i < |e| && e[i].slot.article in wanted && !Delivered(t, now, e[i].slot) :: e[i].slot
  }

  /** What one batch claim may do to a state. */
  ghost predicate ProcessorClaims(cfg: Config, t: Tables, now: int, claimed: set<Slot>,
    e: seq<Job>, counts: map<string, int>, tags: map<string, string>,
    selected: set<string>, pool: Pool, first: map<string, int>, picks: seq<string>)
  {
    && EligibleListing(t, now, e)
    && Attributed(t, now, false, counts, tags)
    && Selects(e, Consumed(t, now), Caps(cfg.sourceLimit, counts), Max(0, cfg.globalLimit - |Consumed(t, now)|),
               selected, pool, first, picks)
    && claimed == Claimable(t, now, e, Consumed(t, now) + selected)
  }

  /** Handling the claimed jobs one after the other. */
  function HandleAll(cfg: Config, t: Tables, jobs: seq<Job>, publishers: set<string>, publishes: Slot -> bool, at: int): Tables {
    if jobs == [] then t
    else
      var n := |jobs| - 1;
      Handle(cfg, Worker.Processor, HandleAll(cfg, t, jobs[..n], publishers, publishes, at), jobs[n], publishers,
             publishes(jobs[n].slot), at)
  }

  /** What handling them returns: one result each, except for jobs without article or publisher. */
  function ResultsOf(cfg: Config, t: Tables, jobs: seq<Job>, publishers: set<string>, publishes: Slot -> bool, at: int): seq<Outcome> {
    if jobs == [] then []
    else
      var n := |jobs| - 1;
      var before := HandleAll(cfg, t, jobs[..n], publishers, publishes, at);
      var result := Deliver(Worker.Processor, before, jobs[n].slot, publishers, publishes(jobs[n].slot));
      ResultsOf(cfg, t, jobs[..n], publishers, publishes, at) + if result.Handled? then [result] else []
  }

  /** Distinct rows of the queue as they are stored. */
  ghost predicate Current(jobs: map<Slot, Job>, rows: seq<Job>) {
    && (forall i :: 0 <= i < |rows| ==> rows[i].slot in jobs && rows[i] == jobs[rows[i].slot])
    && (forall i, j :: 0 <= i < j < |rows| ==> rows[i].slot != rows[j].slot)
  }

  /** A selection made from equal figures is a selection from the tables. */
  lemma SelectsEqually(e: seq<Job>, consumed: set<string>, slots: nat, caps: Caps, selected: set<string>, pool: Pool,
    first: map<string, int>, picks: seq<string>, other: set<string>, free: nat)
    requires Selects(e, consumed, caps, slots, selected, pool, first, picks) && other == consumed && free == slots
    ensures Selects(e, other, caps, free, selected, pool, first, picks)
  {
  }

  lemma SelectsFrom(cfg: Config, t: Tables, now: int, consumed: set<string>, slots: nat, e: seq<Job>,
    counts: map<string, int>, selected: set<string>, pool: Pool, first: map<string, int>, picks: seq<string>)
    requires consumed == Consumed(t, now) && slots == Max(0, cfg.globalLimit - |consumed|)
    requires Selects(e, consumed, Caps(cfg.sourceLimit, counts), slots, selected, pool, first, picks)
    ensures Selects(e, Consumed(t, now), Caps(cfg.sourceLimit, counts), Max(0, cfg.globalLimit - |Consumed(t, now)|),
      selected, pool, first, picks)
  {
    SelectsEqually(e, consumed, slots, Caps(cfg.sourceLimit, counts), selected, pool, first, picks,
      Consumed(t, now), Max(0, cfg.globalLimit - |Consumed(t, now)|));
  }

  /** The parts of one batch claim, put together. */
  lemma ClaimsAssembled(cfg: Config, t: Tables, now: int, consumed: set<string>, slots: nat, batch: seq<Job>, e: seq<Job>,
    counts: map<string, int>, tags: map<string, string>, selected: set<string>, pool: Pool, first: map<string, int>,
    picks: seq<string>)
    requires EligibleListing(t, now, e) && Attributed(t, now, false, counts, tags)
    requires consumed == Consumed(t, now) && slots == Max(0, cfg.globalLimit - |consumed|)
    requires Selects(e, consumed, Caps(cfg.sourceLimit, counts), slots, selected, pool, first, picks)
    requires Slots(batch) == Claimable(t, now, e, consumed + selected)
    ensures ProcessorClaims(cfg, t, now, Slots(batch), e, counts, tags, selected, pool, first, picks)
  {
    SelectsFrom(cfg, t, now, consumed, slots, e, counts, selected, pool, first, picks);
    assert Slots(batch) == Claimable(t, now, e, Consumed(t, now) + selected);
  }

  class QueueProcessor {
    const store: Store
    const cfg: Config
    const publishers: set<string>

    constructor (store: Store, cfg: Config, publishers: set<string>)
      ensures this.store == store && this.cfg == cfg && this.publishers == publishers
    {
      this.store, this.cfg, this.publishers := store, cfg, publishers;
    }

    /** The rows to claim, in listing order. */
    method ChooseBatch(now: int)
      returns (batch: seq<Job>, ghost e: seq<Job>, ghost counts: map<string, int>, ghost tags: map<string, string>,
        ghost selected: set<string>, ghost pool: Pool, ghost first: map<string, int>, ghost picks: seq<string>)
      requires store.Snapshot().WellFormed()
      ensures ProcessorClaims(cfg, store.Snapshot(), now, Slots(batch), e, counts, tags, selected, pool, first, picks)
      ensures Current(store.jobs, batch) && Sorted(batch, QueueOrder())
    {
      var eligible := store.GetEligibleJobs(now);
      e := eligible;
      var recent, consumed, sourceCounts;
      recent, consumed, sourceCounts, tags := RecentDeliveryState(store, now, false);
      counts := sourceCounts;
      var chosen;
      var slots := Max(0, cfg.globalLimit - |consumed|);
      chosen, pool, first, picks := SelectNewArticles(eligible, consumed, sourceCounts, slots, cfg.sourceLimit);
      selected := chosen;
      batch := KeepUndelivered(store, eligible, recent, consumed + chosen, now);
      ClaimsAssembled(cfg, store.Snapshot(), now, consumed, slots, batch, e, counts, tags, selected, pool, first, picks);
    }

    method ClaimBatch(now: int)
      returns (batch: seq<Job>, ghost e: seq<Job>, ghost counts: map<string, int>, ghost tags: map<string, string>,
        ghost selected: set<string>, ghost pool: Pool, ghost first: map<string, int>, ghost picks: seq<string>)
      requires store.Snapshot().WellFormed()
      modifies store`jobs
      ensures ProcessorClaims(cfg, old(store.Snapshot()), now, Slots(batch), e, counts, tags, selected, pool, first, picks)
      ensures store.Snapshot() == ClaimRows(old(store.Snapshot()), Slots(batch), now, cfg.lease)
      ensures store.Snapshot().WellFormed()
      ensures forall i :: 0 <= i < |batch| ==> batch[i].slot in store.jobs && batch[i] == store.jobs[batch[i].slot]
      ensures Sorted(batch, QueueOrder())
    {
      var rows;
      rows, e, counts, tags, selected, pool, first, picks := ChooseBatch(now);
      batch := LeaseAll(store, rows, now, cfg.lease);
      ClaimingKeepsOrder(rows, batch, now, cfg.lease);
    }

    method HandleOne(job: Job, publishes: bool, now: int) returns (result: Outcome)
      requires store.Snapshot().WellFormed()
      modifies store
      ensures store.Snapshot() == Handle(cfg, Worker.Processor, old(store.Snapshot()), job, publishers, publishes, now)
      ensures result == Deliver(Worker.Processor, old(store.Snapshot()), job.slot, publishers, publishes)
      ensures store.Snapshot().WellFormed()
    {
      var k := job.slot;
      ghost var t := store.Snapshot();
      if k.article !in store.articles || k.destination !in publishers {
        store.AddJob(DeadRow(job));
        return Missing;
      }
      var article := store.articles[k.article];
      var skipped := ProcessorSkips(store.Snapshot(), k, article);
      var success := skipped || publishes;
      result := Handled(success, skipped);
      store.Add(Record(k, success, job.attempts, now));
      if success {
        store.Mark(Legacy(k));
        store.Mark(Version(k, article.NewsTimestamp()));
        store.Save(article.(channelAt := Some(now)));
        store.AddJob(SucceededRow(job));
      } else {
        store.AddJob(FailedRow(job, now, job.maxAttempts, cfg.processorRetryBase));
      }
      CommitsInOrder(cfg, t, job, article, now, success);
    }

    /** One cycle: take back stale leases, claim a batch, handle it. */
    method ProcessCycle(publishes: Slot -> bool, now: int)
      returns (results: seq<Outcome>, ghost batch: seq<Job>, ghost e: seq<Job>, ghost counts: map<string, int>,
        ghost tags: map<string, string>, ghost selected: set<string>, ghost pool: Pool, ghost first: map<string, int>,
        ghost picks: seq<string>)
      requires store.Snapshot().WellFormed()
      modifies store
      ensures ProcessorClaims(cfg, RecoverRows(old(store.Snapshot()), now), now, Slots(batch), e, counts, tags,
        selected, pool, first, picks)
      ensures store.Snapshot() == HandleAll(cfg,
        ClaimRows(RecoverRows(old(store.Snapshot()), now), Slots(batch), now, cfg.lease), batch, publishers, publishes, now)
      ensures results == ResultsOf(cfg,
        ClaimRows(RecoverRows(old(store.Snapshot()), now), Slots(batch), now, cfg.lease), batch, publishers, publishes, now)
      ensures Sorted(batch, QueueOrder())
    {
      var count := RecoverLeases(store, now);
      var jobs;
      jobs, e, counts, tags, selected, pool, first, picks := ClaimBatch(now);
      batch := jobs;
      results := HandleBatch(jobs, publishes, now);
    }

    method HandleBatch(jobs: seq<Job>, publishes: Slot -> bool, now: int) returns (results: seq<Outcome>)
      requires store.Snapshot().WellFormed()
      modifies store
      ensures store.Snapshot() == HandleAll(cfg, old(store.Snapshot()), jobs, publishers, publishes, now)
      ensures results == ResultsOf(cfg, old(store.Snapshot()), jobs, publishers, publishes, now)
    {
      results := [];
      for n := 0 to |jobs|
        invariant store.Snapshot().WellFormed()
        invariant store.Snapshot() == HandleAll(cfg, old(store.Snapshot()), jobs[..n], publishers, publishes, now)
        invariant results == ResultsOf(cfg, old(store.Snapshot()), jobs[..n], publishers, publishes, now)
      {
        var result := HandleOne(jobs[n], publishes(jobs[n].slot), now);
        if result.Handled? {
          results := results + [result];
        }
        assert jobs[..n + 1][..n] == jobs[..n];
      }
      assert jobs[..|jobs|] == jobs;
    }
  }

  /** The article has a row, and its time is known and later than the given one. */
  predicate NewerThan(articles: map<string, Article>, a: string, time: int) {
    a in articles && articles[a].NewsTimestamp().Some? && articles[a].NewsTimestamp().value > time
  }

  /** Drops the jobs of other articles, and those whose version was already delivered. */
  method KeepUndelivered(store: Store, eligible: seq<Job>, recent: map<Slot, Record>, wanted: set<string>, now: int)
    returns (batch: seq<Job>)
    requires recent == RecentRecords(store.Snapshot(), now)
    requires EligibleListing(store.Snapshot(), now, eligible)
    ensures Slots(batch) == Claimable(store.Snapshot(), now, eligible, wanted)
    ensures forall i :: 0 <= i < |eligible| ==>
      var k := eligible[i].slot;
      k in Slots(batch) <==> k.article in wanted && (k in recent ==> NewerThan(store.articles, k.article, recent[k].createdAt))
    ensures Current(store.jobs, batch) && Sorted(batch, QueueOrder())
  {
    batch := [];
    for n := 0 to |eligible|
      invariant forall i :: 0 <= i < |batch| ==> batch[i] in eligible[..n]
      invariant Sorted(batch, QueueOrder())
      invariant Slots(batch) == Claimable(store.Snapshot(), now, eligible[..n], wanted)
    {
      var job := eligible[n];
      assert eligible[..n + 1] == eligible[..n] + [job];
      var news := if job.slot.article in store.articles then store.articles[job.slot.article].NewsTimestamp() else None;
      var delivered := job.slot in recent && NotAfter(news, recent[job.slot].createdAt);
      ClaimableAdd(store.Snapshot(), now, eligible[..n], job, wanted);
      if job.slot.article in wanted && !delivered {
        SlotsAdd(batch, job);
        batch := batch + [job];
      }
    }
    assert eligible[..|eligible|] == eligible;
    ClaimableIs(store.Snapshot(), now, eligible, recent, wanted);
  }

  lemma ClaimableIs(t: Tables, now: int, e: seq<Job>, recent: map<Slot, Record>, wanted: set<string>)
    requires recent == RecentRecords(t, now)
    ensures forall i :: 0 <= i < |e| ==>
      var k := e[i].slot;
      k in Claimable(t, now, e, wanted) <==> k.article in wanted && (k in recent ==> NewerThan(t.articles, k.article, recent[k].createdAt))
  {
  }

  lemma ClaimableAdd(t: Tables, now: int, e: seq<Job>, job: Job, wanted: set<string>)
    ensures Claimable(t, now, e + [job], wanted) == Claimable(t, now, e, wanted) +
      (if job.slot.article in wanted && !Delivered(t, now, job.slot) then {job.slot} else {})
  {
    var more := e + [job];
    assert more[|e|] == job && forall i :: 0 <= i < |e| ==> more[i] == e[i];
  }

  /** Leasing the chosen rows, one update each within the transaction. */
  method LeaseAll(store: Store, rows: seq<Job>, now: int, lease: int) returns (batch: seq<Job>)
    requires store.Snapshot().WellFormed()
    requires Current(store.jobs, rows)
    modifies store`jobs
    ensures store.Snapshot().WellFormed()
    ensures store.Snapshot() == ClaimRows(old(store.Snapshot()), Slots(rows), now, lease)
    ensures |batch| == |rows| && Slots(batch) == Slots(rows)
    ensures forall i :: 0 <= i < |batch| ==> batch[i] == Claimed(rows[i], now, lease)
    ensures forall i :: 0 <= i < |batch| ==> batch[i].slot in store.jobs && batch[i] == store.jobs[batch[i].slot]
  {
    batch := [];
    ghost var t := store.Snapshot();
    assert ClaimRows(t, Slots(rows[..0]), now, lease).jobs == store.jobs;
    for n := 0 to |rows|
      invariant |batch| == n && store.jobs == ClaimRows(t, Slots(rows[..n]), now, lease).jobs
      invariant forall i :: 0 <= i < n ==> batch[i] == Claimed(rows[i], now, lease)
    {
      assert rows[..n + 1] == rows[..n] + [rows[n]];
      SlotsAdd(rows[..n], rows[n]);
      ClaimRowsAdd(t, Slots(rows[..n]), rows[n].slot, now, lease);
      var job := Claimed(rows[n], now, lease);
      store.jobs := store.jobs[job.slot := job];
      batch := batch + [job];
    }
    assert rows[..|rows|] == rows;
    LeasedInStep(t, rows, batch, now, lease);
  }

  lemma ClaimingKeepsOrder(rows: seq<Job>, batch: seq<Job>, now: int, lease: int)
    requires Sorted(rows, QueueOrder()) && |batch| == |rows|
    requires forall i :: 0 <= i < |rows| ==> batch[i] == Claimed(rows[i], now, lease)
    ensures Sorted(batch, QueueOrder())
  {
    forall i, j | 0 <= i < j < |batch|
      ensures batch[i].slot != batch[j].slot && !Before(QueueOrder()(batch[j]), QueueOrder()(batch[i]))
    {
      assert !Before(QueueOrder()(rows[j]), QueueOrder()(rows[i]));
    }
  }

  lemma ClaimRowsAdd(t: Tables, slots: set<Slot>, k: Slot, now: int, lease: int)
    requires k in t.jobs
    ensures ClaimRows(t, slots + {k}, now, lease).jobs
         == ClaimRows(t, slots, now, lease).jobs[k := Claimed(t.jobs[k], now, lease)]
  {
  }

  lemma LeasedInStep(t: Tables, rows: seq<Job>, batch: seq<Job>, now: int, lease: int)
    requires t.WellFormed() && |batch| == |rows|
    requires forall i :: 0 <= i < |rows| ==> rows[i].slot in t.jobs && rows[i] == t.jobs[rows[i].slot]
    requires forall i :: 0 <= i < |rows| ==> batch[i] == Claimed(rows[i], now, lease)
    ensures var t' := ClaimRows(t, Slots(rows), now, lease);
      t'.WellFormed() && forall i :: 0 <= i < |batch| ==> batch[i].slot in t'.jobs && batch[i] == t'.jobs[batch[i].slot]
    ensures Slots(batch) == Slots(rows) && forall i :: 0 <= i < |batch| ==> batch[i].slot == rows[i].slot
  {
    forall i | 0 <= i < |batch| ensures batch[i].slot == rows[i].slot && rows[i].slot in Slots(rows) {}
  }

  lemma CommitsInOrder(cfg: Config, t: Tables, job: Job, a: Article, at: int, ok: bool)
    requires t.WellFormed()
    ensures CommitFrom(cfg, Worker.Processor, t, job, a, at, ok, 0) ==
      if ok then
        SaveJob(SaveArticle(MarkKey(MarkKey(AddRecord(t, Record(job.slot, true, job.attempts, at)), Legacy(job.slot)),
          Version(job.slot, a.NewsTimestamp())), a.(channelAt := Some(at))), SucceededRow(job))
      else
        SaveJob(AddRecord(t, Record(job.slot, false, job.attempts, at)), FailedRow(job, at, job.maxAttempts, cfg.processorRetryBase))
  {
  }
}
