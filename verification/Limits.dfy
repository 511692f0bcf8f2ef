/** The hourly limits over every run: the global one and the one per source. */
module Limits {
  import opened Base
  import opened Tables
  import opened Greedy
  import opened Selection
  import opened Views
  import opened Claiming
  import opened Commits
  import opened Engine
  import opened Processor
  import opened Protocol
  import opened Exclusion

  ghost function Window(s: Sys): set<string> {
    set i | 0 <= i < |s.tasks| && InWindow(s.tasks[i]) :: s.tasks[i].job.slot.article
  }

  ghost function Load(s: Sys): set<string> { Consumed(s.db, s.clock) + Window(s) }

  ghost function Part(xs: set<string>, f: string -> bool): set<string> { set a | a in xs && f(a) }

  ghost function Articles(slots: seq<Slot>): set<string> { set k | k in slots :: k.article }

  /** The articles that count nowhere because an engine is between its two commits. */
  ghost function Uncounted(s: Sys): set<string> { Window(s) - Consumed(s.db, s.clock) }

  /** Timely, and a new article is admitted only while at most n articles are uncounted. */
  ghost predicate MeteredBy(cfg: Config, s: Sys, step: Step, n: nat) {
    && Timely(cfg, s, step)
    && (step.Take? ==> |Uncounted(s)| <= n || Articles(step.slots) <= Consumed(s.db, s.clock))
  }

  ghost function Metered(n: nat): Guard { (cfg, s, step) => MeteredBy(cfg, s, step, n) }

  // ----- what a claim admits --------------------------------------------------------------

  ghost predicate Admits(t: Tables, now: int, slots: seq<Slot>, f: string -> bool, limit: int) {
    var newcomers := Part(Articles(slots) - Consumed(t, now), f);
    newcomers == {} || |Part(Consumed(t, now), f)| + |newcomers| <= limit
  }

  function Any(): string -> bool { _ => true }

  function From(src: string -> string, s: string): string -> bool { a => src(a) == s }

  lemma PartAny(xs: set<string>)
    ensures Part(xs, Any()) == xs
  {
  }

  lemma ChoiceHasRoom(e: seq<Job>, consumed: set<string>, recent: map<Slot, Record>, caps: Caps, slots: int, r: nat)
    requires EngineChoice(e, consumed, recent, caps, slots, Some(r))
    ensures r < |e| && (e[r].slot.article in consumed || (slots > 0 && caps.Left(e[r].source) > 0))
  {
  }

  lemma OneAdmits(t: Tables, now: int, k: Slot, limit: int)
    requires k.article in Consumed(t, now) || limit - |Consumed(t, now)| > 0
    ensures Admits(t, now, [k], Any(), limit)
  {
    var consumed := Consumed(t, now);
    assert Articles([k]) == {k.article};
    PartAny(consumed);
    PartAny(Articles([k]) - consumed);
    assert Articles([k]) - consumed == if k.article in consumed then {} else {k.article};
  }

  lemma EngineAdmitsGlobal(cfg: Config, t: Tables, now: int,
    e: seq<Job>, counts: map<string, int>, tags: map<string, string>, r: nat)
    requires EngineClaims(cfg, t, now, e, counts, tags, Some(r))
    ensures Admits(t, now, [e[r].slot], Any(), cfg.globalLimit)
    ensures e[r].slot.article in Consumed(t, now) || Caps(cfg.sourceLimit, counts).Left(e[r].source) > 0
  {
    ChoiceHasRoom(e, Consumed(t, now), RecentRecords(t, now), Caps(cfg.sourceLimit, counts),
      cfg.globalLimit - |Consumed(t, now)|, r);
    OneAdmits(t, now, e[r].slot, cfg.globalLimit);
  }

  /** The count of a source is the part of the consumed articles that belongs to it. */
  lemma CountIsPart(t: Tables, now: int, counts: map<string, int>, tags: map<string, string>, src: string -> string, s: string)
    requires t.WellFormed() && Attributed(t, now, true, counts, tags) && Consistent(t, src) && t.history.Keys <= t.jobs.Keys
    ensures Count(counts, s) == |Part(Consumed(t, now), From(src, s))|
  {
    CountsAreLoads(t, now, true, counts, tags, src, s);
    assert Part(Consumed(t, now), From(src, s)) == SourceLoad(t, now, src, s);
  }

  lemma OneAdmitsSource(t: Tables, now: int, k: Slot, src: string -> string, s: string, limit: int)
    requires k.article in Consumed(t, now) || |Part(Consumed(t, now), From(src, src(k.article)))| < limit
    ensures Admits(t, now, [k], From(src, s), limit)
  {
    var newcomers := Part(Articles([k]) - Consumed(t, now), From(src, s));
    assert Articles([k]) == {k.article};
    if newcomers != {} {
      assert newcomers == {k.article};
    }
  }

  lemma EngineAdmitsSource(cfg: Config, t: Tables, now: int, e: seq<Job>, counts: map<string, int>,
    tags: map<string, string>, r: nat, src: string -> string, s: string)
    requires t.WellFormed() && r < |e| && e[r].slot in t.jobs && t.jobs[e[r].slot] == e[r]
    requires Attributed(t, now, true, counts, tags) && Consistent(t, src) && t.history.Keys <= t.jobs.Keys
    requires e[r].slot.article in Consumed(t, now) || Caps(cfg.sourceLimit, counts).Left(e[r].source) > 0
    ensures Admits(t, now, [e[r].slot], From(src, s), cfg.sourceLimit)
  {
    assert e[r].source == src(e[r].slot.article);
    CountIsPart(t, now, counts, tags, src, e[r].source);
    OneAdmitsSource(t, now, e[r].slot, src, s, cfg.sourceLimit);
  }

  lemma PoolSources(t: Tables, now: int, e: seq<Job>, consumed: set<string>, pool: Pool, first: map<string, int>, src: string -> string)
    requires t.WellFormed() && EligibleListing(t, now, e) && IsPool(e, consumed, pool, first) && Consistent(t, src)
    ensures forall a :: a in pool ==> pool[a].source == src(a)
  {
    forall a | a in pool ensures pool[a].source == src(a) {
      assert Describes(e, a, pool[a], first[a]);
      var i :| JobOf(e, i, a) && e[i].source == pool[a].source;
      assert e[i].slot in t.jobs;
    }
  }

  lemma FreshIsSelected(t: Tables, now: int, e: seq<Job>, slots: seq<Slot>, selected: set<string>)
    requires EligibleListing(t, now, e) && Elems(slots) == Claimable(t, now, e, Consumed(t, now) + selected)
    ensures Articles(slots) - Consumed(t, now) <= selected
  {
    ClaimableEligible(t, now, e, Consumed(t, now) + selected);
    assert forall k :: k in slots ==> k in Elems(slots);
  }

  lemma FewAdmitted(t: Tables, now: int, slots: seq<Slot>, free: nat, limit: int)
    requires |Articles(slots) - Consumed(t, now)| <= free == Max(0, limit - |Consumed(t, now)|)
    ensures Admits(t, now, slots, Any(), limit)
  {
    PartAny(Consumed(t, now));
    PartAny(Articles(slots) - Consumed(t, now));
  }

  lemma SelectionFits(e: seq<Job>, consumed: set<string>, caps: Caps, free: nat, selected: set<string>, pool: Pool,
    first: map<string, int>, picks: seq<string>)
    requires Selects(e, consumed, caps, free, selected, pool, first, picks)
    ensures |selected| <= free
  {
    GreedyFeasible(pool, caps, picks);
    DistinctSize(picks);
  }

  lemma SelectedAdmits(t: Tables, now: int, e: seq<Job>, slots: seq<Slot>, selected: set<string>, free: nat, limit: int)
    requires EligibleListing(t, now, e) && Elems(slots) == Claimable(t, now, e, Consumed(t, now) + selected)
    requires |selected| <= free == Max(0, limit - |Consumed(t, now)|)
    ensures Admits(t, now, slots, Any(), limit)
  {
    FreshIsSelected(t, now, e, slots, selected);
    SubsetSize(Articles(slots) - Consumed(t, now), selected);
    FewAdmitted(t, now, slots, free, limit);
  }

  lemma ProcessorAdmitsSource(t: Tables, now: int, slots: seq<Slot>, caps: Caps, selected: set<string>, pool: Pool,
    picks: seq<string>, tags: map<string, string>, src: string -> string, s: string)
    requires GreedyRun(pool, caps, picks) && selected == Elems(picks) && Articles(slots) - Consumed(t, now) <= selected
    requires forall a :: a in pool ==> pool[a].source == src(a)
    requires t.WellFormed() && Attributed(t, now, false, caps.used, tags) && Consistent(t, src)
    requires forall k :: k in t.history ==> k.article in t.articles
    ensures Admits(t, now, slots, From(src, s), caps.limit)
  {
    GreedyFeasible(pool, caps, picks);
    CountsAreLoads(t, now, false, caps.used, tags, src, s);
    var newcomers := Part(Articles(slots) - Consumed(t, now), From(src, s));
    assert Part(Consumed(t, now), From(src, s)) == SourceLoad(t, now, src, s);
    assert newcomers <= Of(pool, selected, s);
    SubsetSize(newcomers, Of(pool, selected, s));
    if newcomers == {} {
      assert |newcomers| == 0;
    }
  }

  lemma EngineTakesAdmit(cfg: Config, t: Tables, now: int, slots: seq<Slot>)
    requires EngineTakes(cfg, t, now, slots)
    ensures Admits(t, now, slots, Any(), cfg.globalLimit)
  {
    var e: seq<Job>, counts, tags, r: Option<nat> :|
      EngineClaims(cfg, t, now, e, counts, tags, r) && r.Some? && slots == [e[r.value].slot];
    EngineAdmitsGlobal(cfg, t, now, e, counts, tags, r.value);
  }

  lemma FewSelected(cfg: Config, t: Tables, now: int, claimed: set<Slot>, e: seq<Job>, counts: map<string, int>,
    tags: map<string, string>, selected: set<string>, pool: Pool, first: map<string, int>, picks: seq<string>)
    requires ProcessorClaims(cfg, t, now, claimed, e, counts, tags, selected, pool, first, picks)
    ensures |selected| <= Max(0, cfg.globalLimit - |Consumed(t, now)|)
  {
    var free := Max(0, cfg.globalLimit - |Consumed(t, now)|);
    SelectionFits(e, Consumed(t, now), Caps(cfg.sourceLimit, counts), free, selected, pool, first, picks);
  }

  lemma ProcessorClaimAdmits(cfg: Config, t: Tables, now: int, slots: seq<Slot>, e: seq<Job>, counts: map<string, int>,
    tags: map<string, string>, selected: set<string>, pool: Pool, first: map<string, int>, picks: seq<string>)
    requires ProcessorClaims(cfg, t, now, Elems(slots), e, counts, tags, selected, pool, first, picks)
    ensures Admits(t, now, slots, Any(), cfg.globalLimit)
  {
    FewSelected(cfg, t, now, Elems(slots), e, counts, tags, selected, pool, first, picks);
    SelectedAdmits(t, now, e, slots, selected, Max(0, cfg.globalLimit - |Consumed(t, now)|), cfg.globalLimit);
  }

  lemma ProcessorTakesAdmit(cfg: Config, t: Tables, now: int, slots: seq<Slot>)
    requires ProcessorTakes(cfg, t, now, slots)
    ensures Admits(t, now, slots, Any(), cfg.globalLimit)
  {
    var e, counts, tags, selected, pool, first, picks :|
      ProcessorClaims(cfg, t, now, Elems(slots), e, counts, tags, selected, pool, first, picks);
    ProcessorClaimAdmits(cfg, t, now, slots, e, counts, tags, selected, pool, first, picks);
  }

  /** Every claim transaction admits new articles only within both limits. */
  lemma TakesAdmit(cfg: Config, w: Worker, t: Tables, now: int, slots: seq<Slot>)
    requires Takes(cfg, w, t, now, slots)
    ensures Admits(t, now, slots, Any(), cfg.globalLimit)
  {
    if w == Worker.Engine {
      EngineTakesAdmit(cfg, t, now, slots);
    } else {
      ProcessorTakesAdmit(cfg, t, now, slots);
    }
  }

  lemma TakesAdmitSource(cfg: Config, w: Worker, t: Tables, now: int, slots: seq<Slot>, src: string -> string, s: string)
    requires Takes(cfg, w, t, now, slots) && t.WellFormed() && Consistent(t, src)
    requires forall k :: k in t.history ==> k in t.jobs && k.article in t.articles
    ensures Admits(t, now, slots, From(src, s), cfg.sourceLimit)
  {
    if w == Worker.Engine {
      var e: seq<Job>, counts, tags, r: Option<nat> :|
        EngineClaims(cfg, t, now, e, counts, tags, r) && r.Some? && slots == [e[r.value].slot];
      EngineAdmitsGlobal(cfg, t, now, e, counts, tags, r.value);
      EngineAdmitsSource(cfg, t, now, e, counts, tags, r.value, src, s);
    } else {
      var e, counts, tags, selected, pool, first, picks :|
        ProcessorClaims(cfg, t, now, Elems(slots), e, counts, tags, selected, pool, first, picks);
      FreshIsSelected(t, now, e, slots, selected);
      PoolSources(t, now, e, Consumed(t, now), pool, first, src);
      ProcessorAdmitsSource(t, now, slots, Caps(cfg.sourceLimit, counts), selected, pool, picks, tags, src, s);
    }
  }

  // ----- what the other steps do to the load ----------------------------------------------

  lemma ConsumedShrinks(t: Tables, t': Tables, now: int, now': int)
    requires now <= now'
    requires forall k :: k in t'.jobs && Live(t'.jobs[k], now') ==> k in t.jobs && Live(t.jobs[k], now)
    requires forall k :: k in t'.history && RecentSuccess(t'.history[k], now') ==> k in t.history && RecentSuccess(t.history[k], now)
    ensures Consumed(t', now') <= Consumed(t, now)
  {
  }

  lemma WindowSame(s: Sys, s': Sys)
    requires |s'.tasks| == |s.tasks|
    requires forall i :: 0 <= i < |s.tasks| && InWindow(s'.tasks[i]) ==>
      InWindow(s.tasks[i]) && s'.tasks[i].job == s.tasks[i].job
    ensures Window(s') <= Window(s)
  {
  }

  lemma LookLoad(cfg: Config, s: Sys, i: nat, publishers: set<string>)
    requires Sound(cfg, s) && i < |s.tasks| && s.tasks[i].phase.Ready?
    ensures Load(AfterLook(s, i, publishers)) <= Load(s)
  {
    var s' := AfterLook(s, i, publishers);
    assert SoundTask(cfg, s, s.tasks[i]);
    WindowSame(s, s');
    ConsumedShrinks(s.db, s'.db, s.clock, s'.clock);
  }

  lemma RecordConsumed(t: Tables, r: Record, now: int)
    ensures if RecentSuccess(r, now) then Consumed(AddRecord(t, r), now) == Consumed(t, now) + {r.slot.article}
      else Consumed(AddRecord(t, r), now) <= Consumed(t, now)
  {
    var t' := AddRecord(t, r);
    if RecentSuccess(r, now) {
      assert t'.history[r.slot] == r;
      forall j | j in t.history && RecentSuccess(t.history[j], now) ensures j.article in Recent(t', now) {
        if j != r.slot { assert t'.history[j] == t.history[j]; }
      }
      assert Recent(t', now) == Recent(t, now) + {r.slot.article};
    } else {
      ConsumedShrinks(t, t', now, now);
    }
  }

  lemma RowConsumed(t: Tables, t': Tables, now: int, k: Slot)
    requires t'.history == t.history && t'.jobs.Keys == t.jobs.Keys && k in t.jobs && !Live(t'.jobs[k], now)
    requires forall j :: j in t.jobs && j != k ==> t'.jobs[j] == t.jobs[j]
    ensures Consumed(t', now) <= Consumed(t, now)
  {
    ConsumedShrinks(t, t', now, now);
  }

  /** A write adds at most its own article to the consumed ones. */
  lemma WriteConsumed(cfg: Config, s: Sys, i: nat)
    requires Sound(cfg, s) && i < |s.tasks| && s.tasks[i].phase.Acking?
    ensures Consumed(AfterWrite(cfg, s, i).db, s.clock) <= Consumed(s.db, s.clock) + {s.tasks[i].job.slot.article}
    ensures !RecordsSuccess(s.tasks[i]) ==> Consumed(AfterWrite(cfg, s, i).db, s.clock) <= Consumed(s.db, s.clock)
  {
    var task := s.tasks[i];
    var Acking(a, ok, n) := task.phase;
    var t' := AfterWrite(cfg, s, i).db;
    assert SoundTask(cfg, s, task);
    CommitRows(cfg, task.worker, s.db, task.job, a, task.at, ok, n);
    if n == RecordStage(task.worker, ok) {
      RecordConsumed(s.db, RecordOf(s.db, task), s.clock);
    } else if n == RowStage(task.worker, ok) {
      RowConsumed(s.db, t', s.clock, task.job.slot);
    } else {
      ConsumedShrinks(s.db, t', s.clock, s.clock);
    }
  }

  function RecordStage(w: Worker, ok: bool): nat { if w == Worker.Engine then (if ok then 3 else 1) else 0 }

  function RecordOf(t: Tables, task: Task): Record
    requires task.phase.Acking? && task.job.slot in t.jobs
  {
    Record(task.job.slot, task.phase.ok,
      if task.worker == Worker.Engine then t.jobs[task.job.slot].attempts else task.job.attempts, task.at)
  }

  /** The next write records a success. */
  predicate RecordsSuccess(task: Task) {
    task.phase.Acking? && task.phase.ok && task.phase.stage == RecordStage(task.worker, true)
  }

  lemma WriteLoad(cfg: Config, s: Sys, i: nat)
    requires Sound(cfg, s) && Exclusive(cfg, s) && i < |s.tasks| && s.tasks[i].phase.Acking?
    requires Holding(s.tasks[i]) ==> s.clock < Until(cfg, s.tasks[i])
    ensures Load(AfterWrite(cfg, s, i)) <= Load(s)
  {
    var task, s' := s.tasks[i], AfterWrite(cfg, s, i);
    WriteConsumed(cfg, s, i);
    if Holding(task) {
      assert LiveHold(cfg, s, i);
      HolderIsLeased(cfg, s, i);
      assert task.job.slot.article in InFlight(s.db, s.clock);
    } else if InWindow(task) {
      assert task.job.slot.article in Window(s);
    }
    assert task.job.slot.article in Load(s) || !RecordsSuccess(task);
    forall j | 0 <= j < |s'.tasks| && InWindow(s'.tasks[j]) ensures s'.tasks[j].job.slot.article in Load(s) {
      if j != i { assert s'.tasks[j] == s.tasks[j]; }
    }
  }

  lemma TakeLoad(cfg: Config, s: Sys, w: Worker, slots: seq<Slot>)
    requires forall k :: k in slots ==> k in s.db.jobs
    ensures Load(AfterTake(cfg, s, w, slots)) <= Load(s) + Articles(slots)
  {
    var s' := AfterTake(cfg, s, w, slots);
    forall k | k in s'.db.jobs && Live(s'.db.jobs[k], s.clock) ensures k.article in Consumed(s.db, s.clock) + Articles(slots) {
      if k !in slots {
        assert s'.db.jobs[k] == s.db.jobs[k];
      }
    }
    assert Window(s') <= Window(s);
  }

  lemma QuietLoad(cfg: Config, s: Sys, step: Step)
    requires Enabled(cfg, s, step) && !step.Take? && !step.Look? && !step.Write?
    ensures Load(Next(cfg, s, step)) <= Load(s)
  {
    WindowSame(s, Next(cfg, s, step));
    ConsumedShrinks(s.db, Next(cfg, s, step).db, s.clock, Next(cfg, s, step).clock);
  }

  /** Only claims add to the load. */
  lemma LoadShrinks(cfg: Config, s: Sys, step: Step)
    requires Sound(cfg, s) && Exclusive(cfg, s) && Enabled(cfg, s, step) && Timely(cfg, s, step) && !step.Take?
    ensures Load(Next(cfg, s, step)) <= Load(s)
  {
    match step
    case Look(i, publishers) => LookLoad(cfg, s, i, publishers);
    case Write(i) => WriteLoad(cfg, s, i);
    case _ => QuietLoad(cfg, s, step);
  }

  ghost predicate Within(s: Sys, f: string -> bool, limit: int) { |Part(Load(s), f)| <= limit }

  lemma UnionSize(xs: set<string>, a: set<string>, b: set<string>, c: set<string>)
    requires xs <= a + b + c
    ensures |xs| <= |a| + |b| + |c|
  {
    SubsetSize(xs, a + b + c);
    assert |a + b| <= |a| + |b| && |a + b + c| <= |a + b| + |c|;
  }

  lemma PartGrows(after: set<string>, consumed: set<string>, window: set<string>, articles: set<string>, f: string -> bool)
    requires after <= consumed + window + articles
    ensures Part(after, f) <= Part(consumed, f) + Part(articles - consumed, f) + (window - consumed)
    ensures Part(articles - consumed, f) == {} ==> Part(after, f) <= Part(consumed + window, f)
  {
    forall a | a in Part(after, f) && a !in Part(consumed + window, f) ensures a in Part(articles - consumed, f) {}
  }

  lemma WithinTake(cfg: Config, s: Sys, w: Worker, slots: seq<Slot>, f: string -> bool, limit: int, n: nat)
    requires forall k :: k in slots ==> k in s.db.jobs
    requires Within(s, f, limit + n) && Admits(s.db, s.clock, slots, f, limit)
    requires |Uncounted(s)| <= n || Articles(slots) <= Consumed(s.db, s.clock)
    ensures Within(AfterTake(cfg, s, w, slots), f, limit + n)
  {
    var s', consumed := AfterTake(cfg, s, w, slots), Consumed(s.db, s.clock);
    var newcomers := Part(Articles(slots) - consumed, f);
    TakeLoad(cfg, s, w, slots);
    PartGrows(Load(s'), consumed, Window(s), Articles(slots), f);
    if newcomers == {} {
      SubsetSize(Part(Load(s'), f), Part(Load(s), f));
    } else {
      UnionSize(Part(Load(s'), f), Part(consumed, f), newcomers, Uncounted(s));
    }
  }

  lemma WithinStep(cfg: Config, s: Sys, step: Step, f: string -> bool, limit: int, n: nat)
    requires Sound(cfg, s) && Exclusive(cfg, s) && Enabled(cfg, s, step) && MeteredBy(cfg, s, step, n)
    requires Within(s, f, limit + n)
    requires step.Take? ==> Admits(s.db, s.clock, step.slots, f, limit)
    ensures Within(Next(cfg, s, step), f, limit + n)
  {
    if step.Take? {
      TakesOnlyEligible(cfg, step.worker, s.db, s.clock, step.slots);
      WithinTake(cfg, s, step.worker, step.slots, f, limit, n);
    } else {
      LoadShrinks(cfg, s, step);
      SubsetSize(Part(Load(Next(cfg, s, step)), f), Part(Load(s), f));
    }
  }

  lemma AdmitsMore(t: Tables, now: int, slots: seq<Slot>, f: string -> bool, limit: int, more: int)
    requires Admits(t, now, slots, f, limit) && limit <= more
    ensures Admits(t, now, slots, f, more)
  {
  }

  lemma {:induction false} RunWithinGlobal(cfg: Config, s: Sys, steps: seq<Step>, limit: int, n: nat)
    requires Sound(cfg, s) && Exclusive(cfg, s) && Run(cfg, s, steps, Metered(n))
    requires Within(s, Any(), limit + n) && limit >= cfg.globalLimit
    ensures Within(After(cfg, s, steps, Metered(n)), Any(), limit + n)
    decreases |steps|
  {
    if steps != [] {
      var step := steps[0];
      SoundStep(cfg, s, step);
      ExclusiveStep(cfg, s, step);
      if step.Take? {
        TakesAdmit(cfg, step.worker, s.db, s.clock, step.slots);
        AdmitsMore(s.db, s.clock, step.slots, Any(), cfg.globalLimit, limit);
      }
      WithinStep(cfg, s, step, Any(), limit, n);
      RunWithinGlobal(cfg, Next(cfg, s, step), steps[1..], limit, n);
    }
  }

  lemma FreshLoad(cfg: Config, s: Sys, f: string -> bool)
    requires Fresh(s)
    ensures Sound(cfg, s) && Exclusive(cfg, s) && Part(Load(s), f) == {}
  {
    assert Load(s) == {};
  }

  /** How far the hourly limit can be exceeded: from an empty store, however many workers take part, by
      at most as many articles as are uncounted whenever a new one is admitted. */
  lemma CapWithOvershoot(cfg: Config, s: Sys, steps: seq<Step>, n: nat)
    requires Fresh(s) && Run(cfg, s, steps, Metered(n))
    ensures var s' := After(cfg, s, steps, Metered(n)); |Consumed(s'.db, s'.clock)| <= Max(0, cfg.globalLimit) + n
  {
    FreshLoad(cfg, s, Any());
    RunWithinGlobal(cfg, s, steps, Max(0, cfg.globalLimit), n);
    var s' := After(cfg, s, steps, Metered(n));
    PartAny(Load(s'));
    SubsetSize(Consumed(s'.db, s'.clock), Load(s'));
  }

  /** The global hourly cap: when none is uncounted at an admission, the distinct articles delivered
      within the hour together with those being processed under a live lease never exceed the limit. */
  lemma GlobalCap(cfg: Config, s: Sys, steps: seq<Step>)
    requires Fresh(s) && Run(cfg, s, steps, Metered(0))
    ensures var s' := After(cfg, s, steps, Metered(0)); |Consumed(s'.db, s'.clock)| <= Max(0, cfg.globalLimit)
  {
    CapWithOvershoot(cfg, s, steps, 0);
  }

  /** Only batch processors claim. */
  ghost predicate ProcessorsOnly(cfg: Config, s: Sys, step: Step) {
    Timely(cfg, s, step) && (step.Take? ==> step.worker == Worker.Processor)
  }

  ghost predicate NoEngine(s: Sys) { forall i :: 0 <= i < |s.tasks| ==> s.tasks[i].worker == Worker.Processor }

  lemma NoEngineCounts(s: Sys)
    requires NoEngine(s)
    ensures |Uncounted(s)| == 0
  {
    assert Window(s) == {};
  }

  lemma NoEngineStep(cfg: Config, s: Sys, step: Step)
    requires NoEngine(s) && Enabled(cfg, s, step) && ProcessorsOnly(cfg, s, step)
    ensures NoEngine(Next(cfg, s, step))
  {
  }

  lemma {:induction false} ProcessorsAreMetered(cfg: Config, s: Sys, steps: seq<Step>)
    requires Run(cfg, s, steps, ProcessorsOnly) && NoEngine(s)
    ensures Run(cfg, s, steps, Metered(0)) && After(cfg, s, steps, Metered(0)) == After(cfg, s, steps, ProcessorsOnly)
    decreases |steps|
  {
    if steps != [] {
      NoEngineCounts(s);
      NoEngineStep(cfg, s, steps[0]);
      assert MeteredBy(cfg, s, steps[0], 0);
      ProcessorsAreMetered(cfg, Next(cfg, s, steps[0]), steps[1..]);
    }
  }

  /** The processor records the delivery before it gives up the row, so with processors alone the
      global limit needs no condition beyond timely acknowledgement. */
  lemma ProcessorCap(cfg: Config, s: Sys, steps: seq<Step>)
    requires Fresh(s) && Run(cfg, s, steps, ProcessorsOnly)
    ensures var s' := After(cfg, s, steps, ProcessorsOnly); |Consumed(s'.db, s'.clock)| <= Max(0, cfg.globalLimit)
  {
    ProcessorsAreMetered(cfg, s, steps);
    GlobalCap(cfg, s, steps);
  }

  // ----- per source -------------------------------------------------------------------------

  /** Jobs and articles are entered with the source the article has. */
  ghost predicate Sourced(src: string -> string, step: Step) {
    match step
    case Enqueue(job) => job.source == src(job.slot.article)
    case Ingest(a) => a.source == src(a.id)
    case _ => true
  }

  ghost function MeteredFor(src: string -> string, n: nat): Guard {
    (cfg, s, step) => MeteredBy(cfg, s, step, n) && Sourced(src, step)
  }

  ghost predicate ConsistentSys(s: Sys, src: string -> string) {
    && Consistent(s.db, src)
    && (forall i :: 0 <= i < |s.tasks| && (s.tasks[i].phase.Looked? || s.tasks[i].phase.Tested? || s.tasks[i].phase.Acking?) ==>
          s.tasks[i].phase.article.source == src(s.tasks[i].job.slot.article))
  }

  lemma WriteSources(cfg: Config, t: Tables, task: Task, src: string -> string)
    requires t.WellFormed() && Consistent(t, src) && task.phase.Acking? && task.job.slot in t.jobs
    requires task.phase.article.source == src(task.phase.article.id)
    requires task.phase.stage < Stages(task.phase.ok) && task.phase.article.id in t.articles
    ensures Consistent(Commit(cfg, task.worker, t, task.job, task.phase.article, task.at, task.phase.ok, task.phase.stage), src)
  {
    CommitRows(cfg, task.worker, t, task.job, task.phase.article, task.at, task.phase.ok, task.phase.stage);
    CommitArticles(cfg, task.worker, t, task.job, task.phase.article, task.at, task.phase.ok, task.phase.stage);
  }

  lemma ConsistentWrite(cfg: Config, s: Sys, i: nat, src: string -> string)
    requires Sound(cfg, s) && ConsistentSys(s, src) && i < |s.tasks| && s.tasks[i].phase.Acking?
    ensures ConsistentSys(AfterWrite(cfg, s, i), src)
  {
    assert SoundTask(cfg, s, s.tasks[i]);
    WriteSources(cfg, s.db, s.tasks[i], src);
  }

  lemma ConsistentLook(cfg: Config, s: Sys, i: nat, publishers: set<string>, src: string -> string)
    requires Sound(cfg, s) && ConsistentSys(s, src) && i < |s.tasks| && s.tasks[i].phase.Ready?
    ensures ConsistentSys(AfterLook(s, i, publishers), src)
  {
    assert SoundTask(cfg, s, s.tasks[i]);
  }

  lemma ConsistentQuiet(cfg: Config, s: Sys, step: Step, src: string -> string)
    requires Sound(cfg, s) && ConsistentSys(s, src) && Enabled(cfg, s, step) && Sourced(src, step)
    requires !step.Take? && !step.Look? && !step.Write?
    ensures ConsistentSys(Next(cfg, s, step), src)
  {
  }

  lemma ConsistentTake(cfg: Config, s: Sys, w: Worker, slots: seq<Slot>, src: string -> string)
    requires ConsistentSys(s, src) && forall k :: k in slots ==> k in s.db.jobs
    ensures ConsistentSys(AfterTake(cfg, s, w, slots), src)
  {
  }

  lemma ConsistentStep(cfg: Config, s: Sys, step: Step, src: string -> string)
    requires Sound(cfg, s) && ConsistentSys(s, src) && Enabled(cfg, s, step) && Sourced(src, step)
    ensures ConsistentSys(Next(cfg, s, step), src)
  {
    match step
    case Take(w, slots) =>
      TakesOnlyEligible(cfg, w, s.db, s.clock, slots);
      ConsistentTake(cfg, s, w, slots, src);
    case Look(i, publishers) => ConsistentLook(cfg, s, i, publishers, src);
    case Write(i) => ConsistentWrite(cfg, s, i, src);
    case _ => ConsistentQuiet(cfg, s, step, src);
  }

  lemma {:induction false} RunWithinSource(cfg: Config, s: Sys, steps: seq<Step>, src: string -> string, source: string,
    limit: int, n: nat)
    requires Sound(cfg, s) && Exclusive(cfg, s) && ConsistentSys(s, src) && Run(cfg, s, steps, MeteredFor(src, n))
    requires Within(s, From(src, source), limit + n) && limit >= cfg.sourceLimit
    ensures Within(After(cfg, s, steps, MeteredFor(src, n)), From(src, source), limit + n)
    decreases |steps|
  {
    if steps != [] {
      var step := steps[0];
      SoundStep(cfg, s, step);
      ExclusiveStep(cfg, s, step);
      ConsistentStep(cfg, s, step, src);
      if step.Take? {
        TakesAdmitSource(cfg, step.worker, s.db, s.clock, step.slots, src, source);
        AdmitsMore(s.db, s.clock, step.slots, From(src, source), cfg.sourceLimit, limit);
      }
      WithinStep(cfg, s, step, From(src, source), limit, n);
      RunWithinSource(cfg, Next(cfg, s, step), steps[1..], src, source, limit, n);
    }
  }

  /** The per-source cap, with the same overshoot: when jobs and articles are entered with consistent
      sources, no source has more distinct articles delivered within the hour or being processed than
      its limit and the articles uncounted at an admission. */
  lemma SourceCap(cfg: Config, s: Sys, steps: seq<Step>, src: string -> string, source: string, n: nat)
    requires Fresh(s) && Run(cfg, s, steps, MeteredFor(src, n))
    ensures var s' := After(cfg, s, steps, MeteredFor(src, n));
      |SourceLoad(s'.db, s'.clock, src, source)| <= Max(0, cfg.sourceLimit) + n
  {
    FreshLoad(cfg, s, From(src, source));
    RunWithinSource(cfg, s, steps, src, source, Max(0, cfg.sourceLimit), n);
    var s' := After(cfg, s, steps, MeteredFor(src, n));
    SubsetSize(SourceLoad(s'.db, s'.clock, src, source), Part(Load(s'), From(src, source)));
  }

  // ----- the condition is needed ------------------------------------------------------------

  lemma RecordCommit(cfg: Config, t: Tables, task: Task)
    requires RecordsSuccess(task) && task.job.slot in t.jobs
    ensures Commit(cfg, task.worker, t, task.job, task.phase.article, task.at, true, task.phase.stage) ==
      AddRecord(t, RecordOf(t, task))
  {
  }

  /** Recording a success keeps the global limit exactly when the article was still counted, the
      record is already too old to count, or a slot was free. */
  lemma RecordExactly(cfg: Config, s: Sys, i: nat, t': Tables)
    requires i < |s.tasks| && RecordsSuccess(s.tasks[i]) && s.tasks[i].job.slot in s.db.jobs
    requires |Consumed(s.db, s.clock)| <= cfg.globalLimit
    requires t' == AfterWrite(cfg, s, i).db
    ensures |Consumed(t', s.clock)| <= cfg.globalLimit <==>
      || s.tasks[i].job.slot.article in Consumed(s.db, s.clock)
      || s.tasks[i].at < s.clock - HOUR
      || |Consumed(s.db, s.clock)| < cfg.globalLimit
  {
    var r := RecordOf(s.db, s.tasks[i]);
    RecordCommit(cfg, s.db, s.tasks[i]);
    RecordConsumed(s.db, r, s.clock);
    var xs, ys := Consumed(s.db, s.clock), Consumed(t', s.clock);
    if RecentSuccess(r, s.clock) {
      assert ys == xs + {r.slot.article};
      assert r.slot.article in xs ==> ys == xs;
    } else {
      SubsetSize(ys, xs);
    }
  }

  // ----- which steps keep a limit -------------------------------------------------------------

  ghost predicate Capped(s: Sys, f: string -> bool, limit: int) { |Part(Consumed(s.db, s.clock), f)| <= Max(0, limit) }

  /** The step records a recent success of an article that no longer counts, when the limit is used up. */
  ghost predicate Overfills(s: Sys, step: Step, f: string -> bool, limit: int) {
    && step.Write? && step.i < |s.tasks| && RecordsSuccess(s.tasks[step.i])
    && f(s.tasks[step.i].job.slot.article) && s.tasks[step.i].job.slot.article !in Consumed(s.db, s.clock)
    && s.tasks[step.i].at >= s.clock - HOUR && |Part(Consumed(s.db, s.clock), f)| >= Max(0, limit)
  }

  lemma PartAdd(xs: set<string>, a: string, f: string -> bool)
    ensures |Part(xs + {a}, f)| == |Part(xs, f)| + One(f(a) && a !in xs)
  {
    if f(a) && a !in xs {
      assert Part(xs + {a}, f) == Part(xs, f) + {a};
    } else {
      assert Part(xs + {a}, f) == Part(xs, f);
    }
  }

  lemma CappedShrinks(s: Sys, s': Sys, f: string -> bool, limit: int)
    requires Capped(s, f, limit) && Consumed(s'.db, s'.clock) <= Consumed(s.db, s.clock)
    ensures Capped(s', f, limit)
  {
    SubsetSize(Part(Consumed(s'.db, s'.clock), f), Part(Consumed(s.db, s.clock), f));
  }

  lemma CappedRecord(cfg: Config, s: Sys, i: nat, f: string -> bool, limit: int)
    requires Sound(cfg, s) && Capped(s, f, limit) && i < |s.tasks| && RecordsSuccess(s.tasks[i])
    ensures Capped(AfterWrite(cfg, s, i), f, limit) <==> !Overfills(s, Write(i), f, limit)
  {
    assert SoundTask(cfg, s, s.tasks[i]);
    var r, s' := RecordOf(s.db, s.tasks[i]), AfterWrite(cfg, s, i);
    RecordCommit(cfg, s.db, s.tasks[i]);
    RecordConsumed(s.db, r, s.clock);
    if RecentSuccess(r, s.clock) {
      PartAdd(Consumed(s.db, s.clock), r.slot.article, f);
    } else {
      CappedShrinks(s, s', f, limit);
    }
  }

  lemma CappedWrite(cfg: Config, s: Sys, i: nat, f: string -> bool, limit: int)
    requires Sound(cfg, s) && Capped(s, f, limit) && i < |s.tasks| && s.tasks[i].phase.Acking?
    ensures Capped(AfterWrite(cfg, s, i), f, limit) <==> !Overfills(s, Write(i), f, limit)
  {
    if RecordsSuccess(s.tasks[i]) {
      CappedRecord(cfg, s, i, f, limit);
    } else {
      WriteConsumed(cfg, s, i);
      CappedShrinks(s, AfterWrite(cfg, s, i), f, limit);
    }
  }

  lemma TakeConsumed(cfg: Config, s: Sys, w: Worker, slots: seq<Slot>)
    requires forall k :: k in slots ==> k in s.db.jobs
    ensures Consumed(AfterTake(cfg, s, w, slots).db, s.clock) <= Consumed(s.db, s.clock) + Articles(slots)
  {
    var s' := AfterTake(cfg, s, w, slots);
    forall k | k in s'.db.jobs && Live(s'.db.jobs[k], s.clock) ensures k.article in Consumed(s.db, s.clock) + Articles(slots) {
      if k !in slots {
        assert s'.db.jobs[k] == s.db.jobs[k];
      }
    }
  }

  lemma AdmittedFits(now: set<string>, consumed: set<string>, articles: set<string>, f: string -> bool, limit: int)
    requires now <= consumed + articles && |Part(consumed, f)| <= Max(0, limit)
    requires var newcomers := Part(articles - consumed, f); newcomers == {} || |Part(consumed, f)| + |newcomers| <= limit
    ensures |Part(now, f)| <= Max(0, limit)
  {
    var newcomers := Part(articles - consumed, f);
    assert Part(now, f) <= Part(consumed, f) + newcomers;
    UnionSize(Part(now, f), Part(consumed, f), newcomers, {});
    if newcomers == {} {
      assert |newcomers| == 0;
    }
  }

  lemma CappedTake(cfg: Config, s: Sys, w: Worker, slots: seq<Slot>, f: string -> bool, limit: int)
    requires Capped(s, f, limit) && Admits(s.db, s.clock, slots, f, limit)
    requires forall k :: k in slots ==> k in s.db.jobs
    ensures Capped(AfterTake(cfg, s, w, slots), f, limit)
  {
    TakeConsumed(cfg, s, w, slots);
    AdmittedFits(Consumed(AfterTake(cfg, s, w, slots).db, s.clock), Consumed(s.db, s.clock), Articles(slots), f, limit);
  }

  lemma LookConsumed(cfg: Config, s: Sys, i: nat, publishers: set<string>)
    requires Sound(cfg, s) && i < |s.tasks|
    ensures Consumed(AfterLook(s, i, publishers).db, s.clock) <= Consumed(s.db, s.clock)
  {
    assert SoundTask(cfg, s, s.tasks[i]);
    ConsumedShrinks(s.db, AfterLook(s, i, publishers).db, s.clock, s.clock);
  }

  lemma QuietConsumed(cfg: Config, s: Sys, step: Step)
    requires Enabled(cfg, s, step) && !step.Take? && !step.Look? && !step.Write?
    ensures var s' := Next(cfg, s, step); Consumed(s'.db, s'.clock) <= Consumed(s.db, s.clock)
  {
    ConsumedShrinks(s.db, Next(cfg, s, step).db, s.clock, Next(cfg, s, step).clock);
  }

  lemma CappedStep(cfg: Config, s: Sys, step: Step, f: string -> bool, limit: int)
    requires Sound(cfg, s) && Enabled(cfg, s, step) && Capped(s, f, limit)
    requires step.Take? ==> Admits(s.db, s.clock, step.slots, f, limit)
    ensures Capped(Next(cfg, s, step), f, limit) <==> !Overfills(s, step, f, limit)
  {
    match step
    case Take(w, slots) =>
      TakesOnlyEligible(cfg, w, s.db, s.clock, slots);
      CappedTake(cfg, s, w, slots, f, limit);
    case Write(i) => CappedWrite(cfg, s, i, f, limit);
    case Look(i, publishers) =>
      LookConsumed(cfg, s, i, publishers);
      CappedShrinks(s, AfterLook(s, i, publishers), f, limit);
    case _ =>
      QuietConsumed(cfg, s, step);
      CappedShrinks(s, Next(cfg, s, step), f, limit);
  }

  /** Exactly which steps break the global limit, in any state and however late they come: recording a
      recent success of an article that no longer counts, when the limit is used up. */
  lemma CapExactly(cfg: Config, s: Sys, step: Step)
    requires Sound(cfg, s) && Enabled(cfg, s, step) && |Consumed(s.db, s.clock)| <= Max(0, cfg.globalLimit)
    ensures var s' := Next(cfg, s, step);
      |Consumed(s'.db, s'.clock)| <= Max(0, cfg.globalLimit) <==> !Overfills(s, step, Any(), cfg.globalLimit)
  {
    if step.Take? {
      TakesAdmit(cfg, step.worker, s.db, s.clock, step.slots);
    }
    PartAny(Consumed(s.db, s.clock));
    PartAny(Consumed(Next(cfg, s, step).db, Next(cfg, s, step).clock));
    CappedStep(cfg, s, step, Any(), cfg.globalLimit);
  }

  lemma LoadIsPart(t: Tables, now: int, src: string -> string, s: string)
    ensures SourceLoad(t, now, src, s) == Part(Consumed(t, now), From(src, s))
  {
  }

  /** The same for the limit of a source, when rows carry consistent sources. */
  lemma SourceCapExactly(cfg: Config, s: Sys, step: Step, src: string -> string, source: string)
    requires Sound(cfg, s) && Consistent(s.db, src) && Enabled(cfg, s, step)
    requires |SourceLoad(s.db, s.clock, src, source)| <= Max(0, cfg.sourceLimit)
    ensures var s' := Next(cfg, s, step);
      |SourceLoad(s'.db, s'.clock, src, source)| <= Max(0, cfg.sourceLimit) <==>
        !Overfills(s, step, From(src, source), cfg.sourceLimit)
  {
    if step.Take? {
      TakesAdmitSource(cfg, step.worker, s.db, s.clock, step.slots, src, source);
    }
    LoadIsPart(s.db, s.clock, src, source);
    LoadIsPart(Next(cfg, s, step).db, Next(cfg, s, step).clock, src, source);
    CappedStep(cfg, s, step, From(src, source), cfg.sourceLimit);
  }
}
