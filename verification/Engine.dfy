/** The single-job engine over the store. */
module Engine {
  import opened Base
  import opened Tables
  import opened Greedy
  import opened Selection
  import opened Views
  import opened Claiming
  import opened Commits

  type Lists = map<Item, seq<nat>>

  /** Positions of each group's jobs in listing order. */
  ghost predicate Grouped(e: seq<Job>, n: nat, lists: Lists) {
    && n <= |e|
    && (forall i: nat :: i < n ==> GroupOf(e[i]) in lists && i in lists[GroupOf(e[i])])
    && (forall k :: k in lists ==> lists[k] != [] && Positions(e, n, k, lists[k]))
  }

  /** Increasing positions, below n, of jobs of group k. */
  ghost predicate Positions(e: seq<Job>, n: nat, k: Item, list: seq<nat>)
    requires n <= |e|
  {
    && (forall x :: 0 <= x < |list| ==> list[x] < n && GroupOf(e[list[x]]) == k)
    && (forall x, y :: 0 <= x < y < |list| ==> list[x] < list[y])
  }

  /** Each priority lists its sources in order of first appearance. */
  ghost predicate InOrder(lists: Lists, levels: map<int, seq<string>>) {
    forall p, x, y :: p in levels && 0 <= x < y < |levels[p]| && Item(p, levels[p][x]) in lists && Item(p, levels[p][y]) in lists
      && lists[Item(p, levels[p][x])] != [] && lists[Item(p, levels[p][y])] != []
      ==> lists[Item(p, levels[p][x])][0] < lists[Item(p, levels[p][y])][0]
  }

  function Appended(lists: Lists, k: Item, n: nat): Lists {
    lists[k := (if k in lists then lists[k] else []) + [n]]
  }

  lemma GroupStep(e: seq<Job>, n: nat, lists: Lists)
    requires n < |e| && Grouped(e, n, lists)
    ensures Grouped(e, n + 1, Appended(lists, GroupOf(e[n]), n))
  {
    var k := GroupOf(e[n]);
    var more := Appended(lists, k, n);
    assert n in more[k];
    forall i: nat | i < n ensures GroupOf(e[i]) in more && i in more[GroupOf(e[i])] {
      assert i in lists[GroupOf(e[i])];
    }
    forall j | j in more ensures Positions(e, n + 1, j, more[j]) {
      assert j in lists ==> Positions(e, n, j, lists[j]);
    }
  }

  lemma OrderStep(e: seq<Job>, n: nat, lists: Lists, levels: map<int, seq<string>>, next: map<int, seq<string>>)
    requires n < |e| && Grouped(e, n, lists) && InOrder(lists, levels)
    requires var k := GroupOf(e[n]);
      if k in lists then next == levels
      else next == levels[k.priority := (if k.priority in levels then levels[k.priority] else []) + [k.source]]
    requires forall p, s :: p in levels ==> (s in levels[p] <==> Item(p, s) in lists)
    ensures InOrder(Appended(lists, GroupOf(e[n]), n), next)
  {
    var k := GroupOf(e[n]);
    var more := Appended(lists, k, n);
    forall p, x, y | p in next && 0 <= x < y < |next[p]| && Item(p, next[p][x]) in more && Item(p, next[p][y]) in more
      && more[Item(p, next[p][x])] != [] && more[Item(p, next[p][y])] != []
      ensures more[Item(p, next[p][x])][0] < more[Item(p, next[p][y])][0]
    {
      if k !in lists && p == k.priority {
        var was := if p in levels then levels[p] else [];
        assert next[p] == was + [k.source];
        assert was[x] in was;
      }
    }
  }

  method GroupJobs(e: seq<Job>) returns (lists: Lists, levels: map<int, seq<string>>, ps: seq<int>)
    ensures Grouped(e, |e|, lists) && Levelled(lists.Keys, levels, ps) && InOrder(lists, levels)
  {
    lists, levels, ps := map[], map[], [];
    for n := 0 to |e|
      invariant Grouped(e, n, lists) && Levelled(lists.Keys, levels, ps) && InOrder(lists, levels)
    {
      var k := GroupOf(e[n]);
      ghost var was := levels;
      if k !in lists {
        levels, ps := NoteSource(lists.Keys, k, levels, ps);
      }
      GroupStep(e, n, lists);
      OrderStep(e, n, lists, was, levels);
      assert Appended(lists, k, n).Keys == lists.Keys + {k};
      lists := Appended(lists, k, n);
    }
  }

  lemma HeadIsFirst(e: seq<Job>, lists: Lists, i: nat)
    requires Grouped(e, |e|, lists) && i < |e|
    ensures HeadOf(e, i) == lists[GroupOf(e[i])][0]
  {
    var h := HeadOf(e, i);
    assert h in lists[GroupOf(e[h])];
  }

  /** All the groupings of one listing that the loops walk through. */
  ghost predicate Walk(e: seq<Job>, lists: Lists, levels: map<int, seq<string>>, ps: seq<int>) {
    && Sorted(e, QueueOrder()) && Grouped(e, |e|, lists)
    && Levelled(lists.Keys, levels, ps) && InOrder(lists, levels) && Descending(ps)
  }

  lemma HigherComesFirst(e: seq<Job>, i: nat, j: nat)
    requires Sorted(e, QueueOrder()) && i < |e| && j < |e| && e[i].priority > e[j].priority
    ensures i < j && HeadOf(e, i) < HeadOf(e, j)
  {
    var hi, hj := HeadOf(e, i), HeadOf(e, j);
    assert e[hi].priority == e[i].priority && e[hj].priority == e[j].priority;
    assert Before(QueueOrder()(e[i]), QueueOrder()(e[j]));
    assert Before(QueueOrder()(e[hi]), QueueOrder()(e[hj]));
  }

  method FanInSource(e: seq<Job>, list: seq<nat>, consumed: set<string>, recent: map<Slot, Record>) returns (r: Option<nat>)
    requires forall x :: 0 <= x < |list| ==> list[x] < |e|
    requires forall x, y :: 0 <= x < y < |list| ==> list[x] < list[y]
    ensures match r
      case Some(i) => i in list && i < |e| && Fan(consumed, recent, e[i]) && forall j :: j in list && j < i ==> !Fan(consumed, recent, e[j])
      case None => forall j :: j in list ==> !Fan(consumed, recent, e[j])
  {
    for x := 0 to |list|
      invariant forall y :: 0 <= y < x ==> !Fan(consumed, recent, e[list[y]])
    {
      if Fan(consumed, recent, e[list[x]]) {
        return Some(list[x]);
      }
    }
    r := None;
  }

  lemma SameGroupOrder(e: seq<Job>, lists: Lists, levels: map<int, seq<string>>, ps: seq<int>, p: int, x: nat, i: nat, j: nat)
    requires Walk(e, lists, levels, ps) && p in levels && x < |levels[p]| && i < |e| && j < |e|
    requires GroupOf(e[i]) == Item(p, levels[p][x]) && e[j].priority == p && e[j].source !in levels[p][..x]
    requires e[j].source == levels[p][x] ==> i < j
    ensures Precedes(e, i, j)
  {
    HeadIsFirst(e, lists, i);
    HeadIsFirst(e, lists, j);
    assert GroupOf(e[j]) == Item(p, e[j].source);
    assert e[j].source in levels[p];
    var y :| 0 <= y < |levels[p]| && levels[p][y] == e[j].source;
    assert forall z :: 0 <= z < x ==> levels[p][z] in levels[p][..x];
  }

  method FanAtPriority(e: seq<Job>, consumed: set<string>, recent: map<Slot, Record>,
    lists: Lists, levels: map<int, seq<string>>, ghost ps: seq<int>, p: int) returns (r: Option<nat>)
    requires Walk(e, lists, levels, ps) && p in levels
    ensures match r
      case Some(i) => i < |e| && e[i].priority == p && Fan(consumed, recent, e[i])
        && forall j :: 0 <= j < |e| && j != i && e[j].priority == p && Fan(consumed, recent, e[j]) ==> Precedes(e, i, j)
      case None => forall j :: 0 <= j < |e| && e[j].priority == p ==> !Fan(consumed, recent, e[j])
  {
    for x := 0 to |levels[p]|
      invariant forall j :: 0 <= j < |e| && e[j].priority == p && e[j].source in levels[p][..x] ==> !Fan(consumed, recent, e[j])
    {
      var k := Item(p, levels[p][x]);
      assert levels[p][x] in levels[p];
      r := FanInSource(e, lists[k], consumed, recent);
      if r.Some? {
        forall j: nat | j < |e| && j != r.value && e[j].priority == p && Fan(consumed, recent, e[j])
          ensures Precedes(e, r.value, j)
        {
          assert j in lists[GroupOf(e[j])];
          SameGroupOrder(e, lists, levels, ps, p, x, r.value, j);
        }
        return;
      }
      forall j: nat | j < |e| && GroupOf(e[j]) == k ensures !Fan(consumed, recent, e[j]) {
        assert j in lists[k];
      }
      assert levels[p][..x + 1] == levels[p][..x] + [levels[p][x]];
    }
    forall j: nat | j < |e| && e[j].priority == p ensures e[j].source in levels[p][..|levels[p]|] {
      assert GroupOf(e[j]) in lists;
      assert GroupOf(e[j]) == Item(p, e[j].source);
    }
    r := None;
  }

  method FindFanOut(e: seq<Job>, consumed: set<string>, recent: map<Slot, Record>,
    lists: Lists, levels: map<int, seq<string>>, ps: seq<int>) returns (r: Option<nat>)
    requires Walk(e, lists, levels, ps)
    ensures match r
      case Some(i) => FanPick(e, consumed, recent, i)
      case None => NoFan(e, consumed, recent)
  {
    for n := 0 to |ps|
      invariant forall j :: 0 <= j < |e| && e[j].priority in ps[..n] ==> !Fan(consumed, recent, e[j])
    {
      assert ps[n] in ps;
      r := FanAtPriority(e, consumed, recent, lists, levels, ps, ps[n]);
      if r.Some? {
        forall j: nat | j < |e| && j != r.value && Fan(consumed, recent, e[j]) ensures Precedes(e, r.value, j) {
          if e[j].priority != ps[n] {
            LowerPriority(e, lists, levels, ps, n, j);
            HigherComesFirst(e, r.value, j);
          }
        }
        return;
      }
      assert ps[..n + 1] == ps[..n] + [ps[n]];
    }
    AllPriorities(e, lists, levels, ps);
    assert ps[..|ps|] == ps;
    r := None;
  }

  lemma AllPriorities(e: seq<Job>, lists: Lists, levels: map<int, seq<string>>, ps: seq<int>)
    requires Walk(e, lists, levels, ps)
    ensures forall j :: 0 <= j < |e| ==> e[j].priority in ps
  {
    forall j: nat | j < |e| ensures e[j].priority in ps {
      assert GroupOf(e[j]) in lists;
    }
  }

  lemma LowerPriority(e: seq<Job>, lists: Lists, levels: map<int, seq<string>>, ps: seq<int>, n: nat, j: nat)
    requires Walk(e, lists, levels, ps) && n < |ps| && j < |e| && e[j].priority !in ps[..n] && e[j].priority != ps[n]
    ensures e[j].priority < ps[n]
  {
    AllPriorities(e, lists, levels, ps);
    var m :| 0 <= m < |ps| && ps[m] == e[j].priority;
    assert forall z :: 0 <= z < n ==> ps[z] in ps[..n];
  }

  /** Among the heads of a priority whose source was not looked at yet, the next source's is first. */
  lemma FirstHeadOfRest(e: seq<Job>, lists: Lists, levels: map<int, seq<string>>, ps: seq<int>, p: int, x: nat, j: nat)
    requires Walk(e, lists, levels, ps) && p in levels && x < |levels[p]| && Item(p, levels[p][x]) in lists
    requires j < |e| && HeadOf(e, j) == j && e[j].priority == p && e[j].source !in levels[p][..x]
    ensures lists[Item(p, levels[p][x])][0] <= j
  {
    var h := lists[Item(p, levels[p][x])][0];
    HeadIsFirst(e, lists, h);
    HeadIsFirst(e, lists, j);
    if j != h && e[j].source != levels[p][x] {
      SameGroupOrder(e, lists, levels, ps, p, x, h, j);
    }
  }

  lemma SourceIsListed(e: seq<Job>, lists: Lists, levels: map<int, seq<string>>, ps: seq<int>, j: nat)
    requires Walk(e, lists, levels, ps) && j < |e| && e[j].priority in levels
    ensures e[j].source in levels[e[j].priority]
  {
    assert GroupOf(e[j]) in lists;
    assert GroupOf(e[j]) == Item(e[j].priority, e[j].source);
  }

  /** One pass over the sources of a priority: the head of each source with room is looked at. A
      pass that selects nothing ends the level, so every level gets one pass. */
  method OpenAtPriority(e: seq<Job>, consumed: set<string>, recent: map<Slot, Record>, caps: Caps,
    lists: Lists, levels: map<int, seq<string>>, ghost ps: seq<int>, p: int) returns (r: Option<nat>)
    requires Walk(e, lists, levels, ps) && p in levels
    ensures match r
      case Some(i) => OpenHead(e, consumed, recent, caps, i) && e[i].priority == p
        && forall j: nat :: OpenHead(e, consumed, recent, caps, j) && e[j].priority == p ==> i <= j
      case None => forall j: nat :: OpenHead(e, consumed, recent, caps, j) ==> e[j].priority != p
  {
    for x := 0 to |levels[p]|
      invariant forall j: nat :: OpenHead(e, consumed, recent, caps, j) && e[j].priority == p ==> e[j].source !in levels[p][..x]
    {
      var s := levels[p][x];
      assert s in levels[p];
      var h := lists[Item(p, s)][0];
      HeadIsFirst(e, lists, h);
      if caps.Left(s) > 0 && Newer(recent, e[h]) && e[h].slot.article !in consumed {
        forall j: nat | OpenHead(e, consumed, recent, caps, j) && e[j].priority == p ensures h <= j {
          FirstHeadOfRest(e, lists, levels, ps, p, x, j);
        }
        return Some(h);
      }
      forall j: nat | OpenHead(e, consumed, recent, caps, j) && e[j].priority == p ensures e[j].source != s {
        HeadIsFirst(e, lists, j);
      }
      assert levels[p][..x + 1] == levels[p][..x] + [s];
    }
    forall j: nat | OpenHead(e, consumed, recent, caps, j) ensures e[j].priority != p {
      SourceIsListed(e, lists, levels, ps, j);
    }
    r := None;
  }

  method FindOpenHead(e: seq<Job>, consumed: set<string>, recent: map<Slot, Record>, caps: Caps,
    lists: Lists, levels: map<int, seq<string>>, ps: seq<int>) returns (r: Option<nat>)
    requires Walk(e, lists, levels, ps)
    ensures match r
      case Some(i) => NewPick(e, consumed, recent, caps, i)
      case None => forall i: nat :: !OpenHead(e, consumed, recent, caps, i)
  {
    for n := 0 to |ps|
      invariant forall j: nat :: OpenHead(e, consumed, recent, caps, j) ==> e[j].priority !in ps[..n]
    {
      assert ps[n] in ps;
      r := OpenAtPriority(e, consumed, recent, caps, lists, levels, ps, ps[n]);
      if r.Some? {
        forall j: nat | OpenHead(e, consumed, recent, caps, j) ensures r.value <= j {
          if e[j].priority != ps[n] {
            LowerPriority(e, lists, levels, ps, n, j);
            HigherComesFirst(e, r.value, j);
          }
        }
        return;
      }
      assert ps[..n + 1] == ps[..n] + [ps[n]];
    }
    AllPriorities(e, lists, levels, ps);
    assert ps[..|ps|] == ps;
    r := None;
  }

  method ChooseJob(e: seq<Job>, consumed: set<string>, recent: map<Slot, Record>, caps: Caps, slots: int)
    returns (r: Option<nat>)
    requires Sorted(e, QueueOrder())
    ensures EngineChoice(e, consumed, recent, caps, slots, r)
  {
    var lists, levels, order := GroupJobs(e);
    var ps := SortDescending(order);
    r := FindFanOut(e, consumed, recent, lists, levels, ps);
    if r.None? && slots > 0 {
      r := FindOpenHead(e, consumed, recent, caps, lists, levels, ps);
    }
  }

  /** What one claim may do to a state: the job chosen from some listing and view of it. */
  ghost predicate EngineClaims(cfg: Config, t: Tables, now: int,
    e: seq<Job>, counts: map<string, int>, tags: map<string, string>, r: Option<nat>)
  {
    && EligibleListing(t, now, e)
    && Attributed(t, now, true, counts, tags)
    && EngineChoice(e, Consumed(t, now), RecentRecords(t, now), Caps(cfg.sourceLimit, counts),
                    cfg.globalLimit - |Consumed(t, now)|, r)
    && (r.Some? ==> r.value < |e|)
  }

  /** The read half of a claim. */
  method ChooseNext(store: Store, cfg: Config, now: int)
    returns (job: Option<Job>, ghost e: seq<Job>, ghost counts: map<string, int>, ghost tags: map<string, string>,
      ghost r: Option<nat>)
    requires store.Snapshot().WellFormed()
    ensures EngineClaims(cfg, store.Snapshot(), now, e, counts, tags, r)
    ensures job == if r.Some? then Some(e[r.value]) else None
  {
    var eligible := store.GetEligibleJobs(now);
    e := eligible;
    var recent, consumed, sourceCounts;
    recent, consumed, sourceCounts, tags := RecentDeliveryState(store, now, true);
    counts := sourceCounts;
    var choice := ChooseJob(eligible, consumed, recent, Caps(cfg.sourceLimit, sourceCounts), cfg.globalLimit - |consumed|);
    r := choice;
    job := if choice.Some? then Some(eligible[choice.value]) else None;
  }

  class QueueEngine {
    const store: Store
    const cfg: Config

    constructor (store: Store, cfg: Config)
      ensures this.store == store && this.cfg == cfg
    {
      this.store, this.cfg := store, cfg;
    }

    method ClaimNext(now: int)
      returns (job: Option<Job>, ghost e: seq<Job>, ghost counts: map<string, int>, ghost tags: map<string, string>,
        ghost r: Option<nat>)
      requires store.Snapshot().WellFormed()
      modifies store`jobs
      ensures EngineClaims(cfg, old(store.Snapshot()), now, e, counts, tags, r)
      ensures job.Some? == r.Some? && (r.Some? ==> job.value == Claimed(e[r.value], now, cfg.lease))
      ensures job.None? ==> store.Snapshot() == old(store.Snapshot())
      ensures job.Some? ==> store.Snapshot() == ClaimRows(old(store.Snapshot()), {job.value.slot}, now, cfg.lease)
      ensures job.Some? ==> job.value.slot in store.jobs && job.value == store.jobs[job.value.slot]
    {
      job, e, counts, tags, r := ChooseNext(store, cfg, now);
      if job.Some? {
        var selected := Claimed(job.value, now, cfg.lease);
        store.jobs := store.jobs[selected.slot := selected];
        job := Some(selected);
        ClaimOneRow(old(store.Snapshot()), selected.slot, now, cfg.lease);
      }
    }

    method MarkSuccess(k: Slot, now: int)
      requires store.Snapshot().WellFormed()
      modifies store
      ensures store.Snapshot() == AfterSuccess(old(store.Snapshot()), k, now)
    {
      if k !in store.jobs {
        return;
      }
      store.AddJob(SucceededRow(store.jobs[k]));
      store.Mark(Legacy(k));
      if k.article in store.articles {
        store.Mark(Version(k, store.articles[k.article].NewsTimestamp()));
      }
      store.Add(Record(k, true, store.jobs[k].attempts, now));
    }

    method MarkFailure(k: Slot, now: int) returns (job: Option<Job>)
      requires store.Snapshot().WellFormed()
      modifies store`jobs, store`history
      ensures k !in old(store.jobs) ==> job == None && store.Snapshot() == old(store.Snapshot())
      ensures k in old(store.jobs) ==>
        job == Some(FailedRow(old(store.jobs)[k], now, cfg.engineMaxAttempts, cfg.engineRetryBase))
      ensures k in old(store.jobs) ==>
        var was, row := old(store.jobs)[k], job.value;
        && row == was.(status := row.status, lease := None, nextAttempt := row.nextAttempt)
        && row.status == (if was.attempts >= cfg.engineMaxAttempts then DeadLetter else Retrying)
        && (1 <= was.attempts < cfg.engineMaxAttempts ==>
              row.nextAttempt == Some(now + cfg.engineRetryBase * Pow2(was.attempts - 1)))
      ensures k in old(store.jobs) ==> store.Snapshot() == old(store.Snapshot()).(
        jobs := old(store.jobs)[k := job.value],
        history := old(store.history)[k := Record(k, false, job.value.attempts, now)])
    {
      if k !in store.jobs {
        return None;
      }
      var row := store.jobs[k];
      if row.attempts >= cfg.engineMaxAttempts {
        row := row.(status := DeadLetter, lease := None);
      } else {
        var backoff := Backoff(cfg.engineRetryBase, row.attempts);
        if row.attempts >= 1 {
          DoubledIsPower(cfg.engineRetryBase, row.attempts - 1);
        }
        row := row.(status := Retrying, nextAttempt := Some(now + backoff), lease := None);
      }
      store.AddJob(row);
      store.Add(Record(k, false, row.attempts, now));
      job := Some(row);
    }

    method RecoverExpiredLeases(now: int) returns (count: nat)
      requires store.Snapshot().WellFormed()
      modifies store`jobs
      ensures store.Snapshot() == RecoverRows(old(store.Snapshot()), now)
      ensures forall k :: k in old(store.jobs) && Stale(old(store.jobs)[k], now) ==>
        var was := old(store.jobs)[k];
        k in store.jobs && store.jobs[k] == was.(status := if was.attempts > 0 then Retrying else Pending, lease := None)
      ensures count == |StaleKeys(old(store.Snapshot()), now)|
      ensures forall k :: k in store.jobs ==> !Stale(store.jobs[k], now)
    {
      count := RecoverLeases(store, now);
    }

    /** Capacity figures: those of the next claim's own view. */
    method Metrics(now: int) returns (publishedLastHour: nat, remaining: nat)
      requires store.Snapshot().WellFormed()
      ensures publishedLastHour == |Recent(store.Snapshot(), now)|
      ensures remaining == Max(0, cfg.globalLimit - |Consumed(store.Snapshot(), now)|)
    {
      var successes, recent := RecentSuccesses(store, now);
      var processing := ProcessingJobs(store, now);
      var published := set k | k in recent :: k.article;
      var active := set job | job in processing :: job.slot.article;
      assert published == Recent(store.Snapshot(), now);
      ProcessingIsInFlight(store.Snapshot(), now, processing);
      publishedLastHour := |published|;
      remaining := Max(0, cfg.globalLimit - |published + active|);
    }

    /** Deliver a claimed job and acknowledge it. `publishes` is the publisher's answer if asked. */
    method Settle(job: Job, publishers: set<string>, publishes: bool, now: int) returns (result: Outcome)
      requires store.Snapshot().WellFormed() && job.slot in store.jobs
      modifies store
      ensures result == Deliver(Engine, old(store.Snapshot()), job.slot, publishers, publishes)
      ensures store.Snapshot() == Handle(cfg, Engine, old(store.Snapshot()), job, publishers, publishes, now)
    {
      var k := job.slot;
      ghost var t := store.Snapshot();
      if k.article !in store.articles || k.destination !in publishers {
        store.AddJob(DeadRow(job));
        return Missing;
      }
      var article := store.articles[k.article];
      var skipped := EngineSkips(store.Snapshot(), k, article);
      var success := skipped || publishes;
      if success {
        MarkSuccess(k, now);
        SuccessCommits(cfg, t, job, article, now);
        store.Save(article.(channelAt := Some(now)));
      } else {
        var row := MarkFailure(k, now);
        FailureCommits(cfg, t, job, article, now);
      }
      result := Handled(success, skipped);
    }

    /** Claim one job, deliver it, acknowledge it. */
    method RunOnce(publishers: set<string>, publishes: bool, now: int)
      returns (result: Option<Outcome>, ghost claimed: Option<Job>,
        ghost e: seq<Job>, ghost counts: map<string, int>, ghost tags: map<string, string>, ghost r: Option<nat>)
      requires store.Snapshot().WellFormed()
      modifies store
      ensures EngineClaims(cfg, old(store.Snapshot()), now, e, counts, tags, r)
      ensures claimed.Some? == r.Some? && (r.Some? ==> claimed.value.slot == e[r.value].slot)
      ensures claimed.None? ==> result == None && store.Snapshot() == old(store.Snapshot())
      ensures claimed.Some? ==>
        var t := ClaimRows(old(store.Snapshot()), {claimed.value.slot}, now, cfg.lease);
        && claimed.value.slot in t.jobs && claimed.value == t.jobs[claimed.value.slot]
        && result == Some(Deliver(Engine, t, claimed.value.slot, publishers, publishes))
        && store.Snapshot() == Handle(cfg, Engine, t, claimed.value, publishers, publishes, now)
    {
      var job;
      job, e, counts, tags, r := ClaimNext(now);
      claimed := job;
      if job.Some? {
        var outcome := Settle(job.value, publishers, publishes, now);
        result := Some(outcome);
      } else {
        result := None;
      }
    }
  }

  /** Leasing one row. */
  lemma ClaimOneRow(t: Tables, k: Slot, now: int, lease: int)
    requires t.WellFormed() && k in t.jobs
    ensures ClaimRows(t, {k}, now, lease) == t.(jobs := t.jobs[k := Claimed(t.jobs[k], now, lease)])
    ensures ClaimRows(t, {k}, now, lease).WellFormed()
  {
  }

  /** The state after a success was acknowledged by the engine. */
  function AfterSuccess(t: Tables, k: Slot, now: int): Tables {
    if k !in t.jobs then t
    else Tables(
      t.jobs[k := SucceededRow(t.jobs[k])],
      t.history[k := Record(k, true, t.jobs[k].attempts, now)],
      t.keys + {Legacy(k)} +
        (if k.article in t.articles then {Version(k, t.articles[k.article].NewsTimestamp())} else {}),
      t.articles)
  }

  lemma SuccessCommits(cfg: Config, t: Tables, job: Job, a: Article, at: int)
    requires t.WellFormed() && job.slot in t.jobs
    ensures CommitFrom(cfg, Engine, t, job, a, at, true, 0) ==
      SaveArticle(AfterSuccess(t, job.slot, at), a.(channelAt := Some(at)))
  {
  }

  lemma FailureCommits(cfg: Config, t: Tables, job: Job, a: Article, at: int)
    requires t.WellFormed() && job.slot in t.jobs
    ensures var k := job.slot; var row := FailedRow(t.jobs[k], at, cfg.engineMaxAttempts, cfg.engineRetryBase);
      CommitFrom(cfg, Engine, t, job, a, at, false, 0) ==
      t.(jobs := t.jobs[k := row], history := t.history[k := Record(k, false, row.attempts, at)])
  {
  }

  ghost function StaleKeys(t: Tables, now: int): set<Slot> { set k | k in t.jobs && Stale(t.jobs[k], now) }

  lemma StaleSlots(t: Tables, now: int, stale: seq<Job>)
    requires t.WellFormed() && Listing(t, StaleAt(now), NoOrder(), stale)
    ensures Slots(stale) == StaleKeys(t, now) && |stale| == |StaleKeys(t, now)|
  {
    forall k | k in StaleKeys(t, now) ensures k in Slots(stale) {
      assert StaleAt(now)(t.jobs[k]);
      assert t.jobs[k] in stale;
    }
    SlotsSize(stale);
  }

  /** Recovery, shared by both workers: every stale row goes back to waiting in one transaction. */
  method RecoverLeases(store: Store, now: int) returns (count: nat)
    requires store.Snapshot().WellFormed()
    modifies store`jobs
    ensures store.Snapshot() == RecoverRows(old(store.Snapshot()), now) && store.Snapshot().WellFormed()
    ensures count == |StaleKeys(old(store.Snapshot()), now)|
    ensures forall k :: k in store.jobs ==> !Stale(store.jobs[k], now)
  {
    var stale := store.GetStaleLeasedJobs(now);
    ghost var was := store.jobs;
    count := 0;
    for n := 0 to |stale|
      invariant count == n && store.jobs.Keys == was.Keys
      invariant forall k :: k in was ==> store.jobs[k] == if k in Slots(stale[..n]) then Recovered(was[k]) else was[k]
    {
      assert stale[n] in stale;
      assert stale[..n + 1] == stale[..n] + [stale[n]];
      SlotsAdd(stale[..n], stale[n]);
      store.jobs := store.jobs[stale[n].slot := Recovered(stale[n])];
      count := count + 1;
    }
    assert stale[..|stale|] == stale;
    StaleSlots(old(store.Snapshot()), now, stale);
    assert store.jobs == RecoverRows(old(store.Snapshot()), now).jobs;
  }

  function Slots(rows: seq<Job>): set<Slot> { set i | 0 <= i < |rows| :: rows[i].slot }

  lemma SlotsAdd(rows: seq<Job>, job: Job)
    ensures Slots(rows + [job]) == Slots(rows) + {job.slot}
  {
    var more := rows + [job];
    assert more[|rows|] == job && forall i :: 0 <= i < |rows| ==> more[i] == rows[i];
  }

  lemma {:induction false} SlotsSize(rows: seq<Job>)
    requires forall i, j :: 0 <= i < j < |rows| ==> rows[i].slot != rows[j].slot
    ensures |Slots(rows)| == |rows|
  {
    if rows != [] {
      var n := |rows| - 1;
      SlotsSize(rows[..n]);
      assert Slots(rows) == Slots(rows[..n]) + {rows[n].slot};
    }
  }
}
