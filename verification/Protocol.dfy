/** Any number of workers over one store, at the granularity of committed writes. */
module Protocol {
  import opened Base
  import opened Tables
  import opened Views
  import opened Commits
  import opened Engine
  import opened Processor

  /** Where a claimed job stands with the worker that claimed it: the row it read of the article,
      whether the keys said to skip it, and while acknowledging the result and the next write. */
  datatype Phase =
    | Ready
    | Looked(article: Article)
    | Tested(article: Article, skip: bool)
    | Acking(article: Article, ok: bool, stage: nat)
    | Finished
    | Crashed

  /** One claim of one job: the worker's copy of the row and the time of the claim. */
  datatype Task = Task(worker: Worker, job: Job, at: int, phase: Phase)

  /** A call of a publisher that succeeded. */
  datatype Delivery = Delivery(slot: Slot, version: Option<int>)

  /** What happened to a job since it was last enqueued. */
  datatype Stats = Stats(claims: nat, failures: nat, expiries: nat, firstAt: int, lastAt: int)

  datatype Sys = Sys(db: Tables, clock: int, tasks: seq<Task>, log: seq<Delivery>, stats: map<Slot, Stats>)

  datatype Step =
    | Enqueue(job: Job)
    | Ingest(article: Article)
    | Tick(now: int)
    | Recover
    | Take(worker: Worker, slots: seq<Slot>)
    | Look(i: nat, publishers: set<string>)
    | Test(i: nat)
    | Call(i: nat, publishes: bool)
    | Write(i: nat)
    | Crash(i: nat)

  ghost predicate EngineTakes(cfg: Config, t: Tables, now: int, slots: seq<Slot>) {
    exists e: seq<Job>, counts, tags, r: Option<nat> ::
      EngineClaims(cfg, t, now, e, counts, tags, r) && r.Some? && slots == [e[r.value].slot]
  }

  ghost predicate ProcessorTakes(cfg: Config, t: Tables, now: int, slots: seq<Slot>) {
    exists e, counts, tags, selected, pool, first, picks ::
      ProcessorClaims(cfg, t, now, Elems(slots), e, counts, tags, selected, pool, first, picks)
  }

  /** A claim transaction of the given worker may lease exactly these jobs. */
  ghost predicate Takes(cfg: Config, w: Worker, t: Tables, now: int, slots: seq<Slot>) {
    Distinct(slots) &&
    if w == Worker.Engine then EngineTakes(cfg, t, now, slots) else ProcessorTakes(cfg, t, now, slots)
  }

  ghost predicate Enabled(cfg: Config, s: Sys, step: Step) {
    match step
    case Enqueue(job) => job.status == Pending && job.attempts == 0 && job.lease.None? && job.nextAttempt.None?
    case Ingest(_) => true
    case Tick(now) => s.clock <= now
    case Recover => true
    case Take(w, slots) => Takes(cfg, w, s.db, s.clock, slots)
    case Look(i, _) => i < |s.tasks| && s.tasks[i].phase.Ready?
    case Test(i) => i < |s.tasks| && s.tasks[i].phase.Looked?
    case Call(i, _) => i < |s.tasks| && s.tasks[i].phase.Tested?
    case Write(i) => i < |s.tasks| && s.tasks[i].phase.Acking? && s.tasks[i].phase.stage < Stages(s.tasks[i].phase.ok)
    case Crash(i) => i < |s.tasks| && !s.tasks[i].phase.Finished? && !s.tasks[i].phase.Crashed?
  }

  /** The write of an acknowledgement that changes the job row and so gives the job up. */
  function RowStage(w: Worker, ok: bool): nat {
    if w == Worker.Engine then 0 else if ok then 4 else 1
  }

  /** The publisher has not been called yet. */
  predicate Uncalled(phase: Phase) { phase.Ready? || phase.Looked? || phase.Tested? }

  predicate Holding(task: Task) {
    Uncalled(task.phase) || (task.phase.Acking? && task.phase.stage <= RowStage(task.worker, task.phase.ok))
  }

  /** An engine that has given up the job after a success but not yet recorded the delivery. */
  predicate InWindow(task: Task) {
    task.worker == Worker.Engine && task.phase.Acking? && task.phase.ok && 1 <= task.phase.stage <= 3
  }

  function Until(cfg: Config, task: Task): int { task.at + cfg.lease }

  /** Holding a job strictly before the lease ends. */
  predicate LiveHold(cfg: Config, s: Sys, i: nat)
    requires i < |s.tasks|
  {
    Holding(s.tasks[i]) && s.clock < Until(cfg, s.tasks[i])
  }

  function NewTasks(cfg: Config, w: Worker, t: Tables, slots: seq<Slot>, now: int): (r: seq<Task>)
    requires forall k :: k in slots ==> k in t.jobs
    ensures |r| == |slots|
    ensures forall i :: 0 <= i < |slots| ==> r[i] == Task(w, Claimed(t.jobs[slots[i]], now, cfg.lease), now, Ready)
  {
    if slots == [] then []
    else
      assert slots[0] in slots;
      [Task(w, Claimed(t.jobs[slots[0]], now, cfg.lease), now, Ready)] + NewTasks(cfg, w, t, slots[1..], now)
  }

  function Noticed(st: Stats, now: int): Stats {
    Stats(st.claims + 1, st.failures, st.expiries, if st.claims == 0 then now else st.firstAt, now)
  }

  function AfterEnqueue(s: Sys, job: Job): Sys {
    s.(db := SaveJob(s.db, job), stats := s.stats[job.slot := Stats(0, 0, 0, 0, 0)])
  }

  function AfterRecover(s: Sys): Sys {
    s.(db := RecoverRows(s.db, s.clock),
       stats := map k | k in s.stats ::
         if k in s.db.jobs && Stale(s.db.jobs[k], s.clock) then s.stats[k].(expiries := s.stats[k].expiries + 1) else s.stats[k])
  }

  function AfterTake(cfg: Config, s: Sys, w: Worker, slots: seq<Slot>): Sys
    requires forall k :: k in slots ==> k in s.db.jobs
  {
    s.(db := ClaimRows(s.db, Elems(slots), s.clock, cfg.lease),
       tasks := s.tasks + NewTasks(cfg, w, s.db, slots, s.clock),
       stats := map k | k in s.stats :: if k in slots then Noticed(s.stats[k], s.clock) else s.stats[k])
  }

  /** Reading the article. Without it, or without a publisher, the job is given up. This read and the
      write of the dead row are one step; as the publishers are free, it may come at any later time. */
  function AfterLook(s: Sys, i: nat, publishers: set<string>): Sys
    requires i < |s.tasks|
  {
    var task := s.tasks[i];
    var k := task.job.slot;
    if Lacks(s.db, k, publishers) then s.(db := SaveJob(s.db, DeadRow(task.job)), tasks := s.tasks[i := task.(phase := Finished)])
    else s.(tasks := s.tasks[i := task.(phase := Looked(s.db.articles[k.article]))])
  }

  /** Looking up the keys and the recorded delivery. */
  function AfterTest(s: Sys, i: nat): Sys
    requires i < |s.tasks| && s.tasks[i].phase.Looked?
  {
    var task := s.tasks[i];
    var a := task.phase.article;
    s.(tasks := s.tasks[i := task.(phase := Tested(a, Skips(task.worker, s.db, task.job.slot, a)))])
  }

  /** Calling the publisher with the article as it was read, unless the test said to skip it. */
  function AfterCall(s: Sys, i: nat, publishes: bool): Sys
    requires i < |s.tasks| && s.tasks[i].phase.Tested?
  {
    var task := s.tasks[i];
    var Tested(a, skip) := task.phase;
    s.(tasks := s.tasks[i := task.(phase := Acking(a, skip || publishes, 0))],
       log := if publishes && !skip then s.log + [Delivery(task.job.slot, a.NewsTimestamp())] else s.log)
  }

  function AfterWrite(cfg: Config, s: Sys, i: nat): Sys
    requires i < |s.tasks| && s.tasks[i].phase.Acking?
  {
    var task := s.tasks[i];
    var Acking(a, ok, n) := task.phase;
    var k := task.job.slot;
    s.(db := Commit(cfg, task.worker, s.db, task.job, a, task.at, ok, n),
       tasks := s.tasks[i := task.(phase := if n + 1 >= Stages(ok) then Finished else Acking(a, ok, n + 1))],
       stats := if !ok && n == RowStage(task.worker, ok) && k in s.stats
                then s.stats[k := s.stats[k].(failures := s.stats[k].failures + 1)] else s.stats)
  }

  lemma EngineTakesEligible(cfg: Config, t: Tables, now: int, slots: seq<Slot>)
    requires EngineTakes(cfg, t, now, slots)
    ensures forall k :: k in slots ==> k in t.jobs && Eligible(t.jobs[k], now)
  {
    var e: seq<Job>, counts, tags, r: Option<nat> :|
      EngineClaims(cfg, t, now, e, counts, tags, r) && r.Some? && slots == [e[r.value].slot];
  }

  lemma ClaimableEligible(t: Tables, now: int, e: seq<Job>, wanted: set<string>)
    requires EligibleListing(t, now, e)
    ensures forall k :: k in Claimable(t, now, e, wanted) ==>
      k in t.jobs && Eligible(t.jobs[k], now) && k.article in wanted
  {
  }

  lemma ProcessorTakesEligible(cfg: Config, t: Tables, now: int, slots: seq<Slot>)
    requires ProcessorTakes(cfg, t, now, slots)
    ensures forall k :: k in slots ==> k in t.jobs && Eligible(t.jobs[k], now)
  {
    var e, counts, tags, selected, pool, first, picks :|
      ProcessorClaims(cfg, t, now, Elems(slots), e, counts, tags, selected, pool, first, picks);
    ClaimableEligible(t, now, e, Consumed(t, now) + selected);
    assert forall k :: k in slots ==> k in Elems(slots);
  }

  lemma TakesOnlyEligible(cfg: Config, w: Worker, t: Tables, now: int, slots: seq<Slot>)
    requires Takes(cfg, w, t, now, slots)
    ensures forall k :: k in slots ==> k in t.jobs && Eligible(t.jobs[k], now)
  {
    if w == Worker.Engine {
      EngineTakesEligible(cfg, t, now, slots);
    } else {
      ProcessorTakesEligible(cfg, t, now, slots);
    }
  }

  ghost function Next(cfg: Config, s: Sys, step: Step): Sys
    requires Enabled(cfg, s, step)
  {
    match step
    case Enqueue(job) => AfterEnqueue(s, job)
    case Ingest(article) => s.(db := SaveArticle(s.db, article))
    case Tick(now) => s.(clock := now)
    case Recover => AfterRecover(s)
    case Take(w, slots) => TakesOnlyEligible(cfg, w, s.db, s.clock, slots); AfterTake(cfg, s, w, slots)
    case Look(i, publishers) => AfterLook(s, i, publishers)
    case Test(i) => AfterTest(s, i)
    case Call(i, publishes) => AfterCall(s, i, publishes)
    case Write(i) => AfterWrite(cfg, s, i)
    case Crash(i) => s.(tasks := s.tasks[i := s.tasks[i].(phase := Crashed)])
  }

  ghost predicate LeasedWhileProcessing(jobs: map<Slot, Job>) {
    forall k :: k in jobs ==> (jobs[k].status == Processing <==> jobs[k].lease.Some?)
  }

  ghost predicate SoundRows(t: Tables) {
    && t.WellFormed() && LeasedWhileProcessing(t.jobs)
    && (forall k :: k in t.history ==> k in t.jobs && k.article in t.articles)
  }

  /** What holds in every run, whatever the workers do. */
  ghost predicate Sound(cfg: Config, s: Sys) {
    && SoundRows(s.db)
    && s.stats.Keys == s.db.jobs.Keys
    && (forall i :: 0 <= i < |s.tasks| ==> SoundTask(cfg, s, s.tasks[i]))
  }

  ghost predicate SoundTask(cfg: Config, s: Sys, task: Task) {
    && task.job.slot in s.db.jobs && task.at <= s.clock
    && task.job.status == Processing && task.job.lease == Some(task.at + cfg.lease)
    && (task.phase.Looked? || task.phase.Tested? || task.phase.Acking? ==>
          task.phase.article.id == task.job.slot.article && task.phase.article.id in s.db.articles)
    && (task.phase.Acking? ==> task.phase.stage < Stages(task.phase.ok))
  }

  lemma CommitFrame(cfg: Config, w: Worker, t: Tables, job: Job, a: Article, at: int, ok: bool, n: nat)
    requires job.slot in t.jobs && t.jobs[job.slot].slot == job.slot && n < Stages(ok)
    ensures var t' := Commit(cfg, w, t, job, a, at, ok, n);
      && job.slot in t'.jobs && t'.jobs == t.jobs[job.slot := t'.jobs[job.slot]]
      && (n != RowStage(w, ok) ==> t'.jobs == t.jobs)
  {
  }

  lemma CommitOwnRow(cfg: Config, w: Worker, t: Tables, job: Job, a: Article, at: int, ok: bool, n: nat)
    requires job.slot in t.jobs && t.jobs[job.slot].slot == job.slot && n < Stages(ok)
    ensures var t' := Commit(cfg, w, t, job, a, at, ok, n);
      && job.slot in t'.jobs
      && t'.jobs[job.slot].slot == job.slot && t'.jobs[job.slot].source == t.jobs[job.slot].source
      && (n == RowStage(w, ok) ==> t'.jobs[job.slot].lease.None? && t'.jobs[job.slot].status in {Succeeded, DeadLetter, Retrying})
  {
  }

  /** What one write of an acknowledgement may touch. */
  lemma CommitRows(cfg: Config, w: Worker, t: Tables, job: Job, a: Article, at: int, ok: bool, n: nat)
    requires job.slot in t.jobs && t.jobs[job.slot].slot == job.slot && n < Stages(ok)
    ensures var t' := Commit(cfg, w, t, job, a, at, ok, n);
      && t'.jobs.Keys == t.jobs.Keys
      && (forall k :: k in t.jobs && k != job.slot ==> t'.jobs[k] == t.jobs[k])
      && (n != RowStage(w, ok) ==> t'.jobs == t.jobs)
      && t'.jobs[job.slot].slot == job.slot && t'.jobs[job.slot].source == t.jobs[job.slot].source
      && (n == RowStage(w, ok) ==> t'.jobs[job.slot].lease.None? && t'.jobs[job.slot].status in {Succeeded, DeadLetter, Retrying})
  {
    CommitFrame(cfg, w, t, job, a, at, ok, n);
    CommitOwnRow(cfg, w, t, job, a, at, ok, n);
  }

  lemma CommitOthers(cfg: Config, w: Worker, t: Tables, job: Job, a: Article, at: int, ok: bool, n: nat)
    requires t.WellFormed() && job.slot in t.jobs && n < Stages(ok)
    ensures var t' := Commit(cfg, w, t, job, a, at, ok, n);
      && t'.history.Keys <= t.history.Keys + {job.slot} && t.keys <= t'.keys
      && (job.slot in t'.history ==> t'.history[job.slot].slot == job.slot)
      && (forall k :: k in t.history && k != job.slot ==> t'.history[k] == t.history[k])
  {
  }

  /** Which version the third write of a success marks. */
  function MarkedVersion(w: Worker, t: Tables, a: Article): Option<int> {
    if w == Worker.Engine && a.id in t.articles then t.articles[a.id].NewsTimestamp() else a.NewsTimestamp()
  }

  lemma CommitKeys(cfg: Config, w: Worker, t: Tables, job: Job, a: Article, at: int, ok: bool, n: nat)
    requires job.slot in t.jobs && n < Stages(ok) && a.id == job.slot.article && a.id in t.articles
    ensures var t' := Commit(cfg, w, t, job, a, at, ok, n);
      t'.keys == t.keys + if !ok || n > 2 || n == 0 then {} else if n == 1 then {Legacy(job.slot)}
                          else {Version(job.slot, MarkedVersion(w, t, a))}
  {
  }

  lemma CommitArticles(cfg: Config, w: Worker, t: Tables, job: Job, a: Article, at: int, ok: bool, n: nat)
    requires t.WellFormed() && n < Stages(ok)
    ensures var t' := Commit(cfg, w, t, job, a, at, ok, n);
      t'.articles == t.articles || t'.articles == t.articles[a.id := a.(channelAt := Some(at))]
  {
  }

  lemma SoundTasks(cfg: Config, s: Sys, s': Sys)
    requires Sound(cfg, s)
    requires s.db.jobs.Keys <= s'.db.jobs.Keys && s.db.articles.Keys <= s'.db.articles.Keys && s.clock <= s'.clock
    requires |s'.tasks| == |s.tasks|
    requires forall i :: 0 <= i < |s.tasks| ==> s'.tasks[i] == s.tasks[i] || SoundTask(cfg, s', s'.tasks[i])
    ensures forall i :: 0 <= i < |s'.tasks| ==> SoundTask(cfg, s', s'.tasks[i])
  {
    forall i | 0 <= i < |s'.tasks| ensures SoundTask(cfg, s', s'.tasks[i]) {
      assert SoundTask(cfg, s, s.tasks[i]);
    }
  }

  lemma SoundTake(cfg: Config, s: Sys, w: Worker, slots: seq<Slot>)
    requires Sound(cfg, s) && forall k :: k in slots ==> k in s.db.jobs
    ensures Sound(cfg, AfterTake(cfg, s, w, slots))
  {
    var s' := AfterTake(cfg, s, w, slots);
    forall i | 0 <= i < |s'.tasks| ensures SoundTask(cfg, s', s'.tasks[i]) {
      if i < |s.tasks| {
        assert SoundTask(cfg, s, s.tasks[i]);
      } else {
        var k := slots[i - |s.tasks|];
        assert k in slots;
      }
    }
  }

  lemma SoundLook(cfg: Config, s: Sys, i: nat, publishers: set<string>)
    requires Sound(cfg, s) && i < |s.tasks| && s.tasks[i].phase.Ready?
    ensures Sound(cfg, AfterLook(s, i, publishers))
  {
    assert SoundTask(cfg, s, s.tasks[i]);
    SoundTasks(cfg, s, AfterLook(s, i, publishers));
  }

  lemma SoundAsk(cfg: Config, s: Sys, step: Step)
    requires Sound(cfg, s) && Enabled(cfg, s, step) && (step.Test? || step.Call?)
    ensures Sound(cfg, Next(cfg, s, step))
  {
    assert SoundTask(cfg, s, s.tasks[step.i]);
    SoundTasks(cfg, s, Next(cfg, s, step));
  }

  lemma CommitLeases(cfg: Config, w: Worker, t: Tables, job: Job, a: Article, at: int, ok: bool, n: nat)
    requires t.WellFormed() && LeasedWhileProcessing(t.jobs) && job.slot in t.jobs && n < Stages(ok)
    ensures LeasedWhileProcessing(Commit(cfg, w, t, job, a, at, ok, n).jobs)
  {
    CommitRows(cfg, w, t, job, a, at, ok, n);
    var t' := Commit(cfg, w, t, job, a, at, ok, n);
    assert forall k :: k in t'.jobs && k != job.slot ==> t'.jobs[k] == t.jobs[k];
  }

  lemma SoundCommit(cfg: Config, t: Tables, w: Worker, job: Job, a: Article, at: int, ok: bool, n: nat)
    requires SoundRows(t) && job.slot in t.jobs && n < Stages(ok) && a.id == job.slot.article && a.id in t.articles
    ensures var t' := Commit(cfg, w, t, job, a, at, ok, n);
      SoundRows(t') && t'.jobs.Keys == t.jobs.Keys && t.articles.Keys <= t'.articles.Keys && t.keys <= t'.keys
  {
    CommitRows(cfg, w, t, job, a, at, ok, n);
    CommitOthers(cfg, w, t, job, a, at, ok, n);
    CommitArticles(cfg, w, t, job, a, at, ok, n);
    CommitLeases(cfg, w, t, job, a, at, ok, n);
  }

  lemma SoundWrite(cfg: Config, s: Sys, i: nat)
    requires Sound(cfg, s) && i < |s.tasks| && s.tasks[i].phase.Acking?
    ensures Sound(cfg, AfterWrite(cfg, s, i)) && s.db.keys <= AfterWrite(cfg, s, i).db.keys
  {
    var task, s' := s.tasks[i], AfterWrite(cfg, s, i);
    assert SoundTask(cfg, s, task);
    SoundCommit(cfg, s.db, task.worker, task.job, task.phase.article, task.at, task.phase.ok, task.phase.stage);
    SoundTasks(cfg, s, s');
  }

  lemma SoundEnqueue(cfg: Config, s: Sys, job: Job)
    requires Sound(cfg, s) && Enabled(cfg, s, Enqueue(job))
    ensures Sound(cfg, AfterEnqueue(s, job))
  {
    SoundTasks(cfg, s, AfterEnqueue(s, job));
  }

  lemma SoundRecover(cfg: Config, s: Sys)
    requires Sound(cfg, s)
    ensures Sound(cfg, AfterRecover(s))
  {
    SoundTasks(cfg, s, AfterRecover(s));
  }

  lemma SoundQuiet(cfg: Config, s: Sys, step: Step)
    requires Sound(cfg, s) && Enabled(cfg, s, step) && (step.Ingest? || step.Tick? || step.Crash?)
    ensures Sound(cfg, Next(cfg, s, step))
  {
    SoundTasks(cfg, s, Next(cfg, s, step));
  }

  /** Job rows are never lost, a job has a lease exactly while it is processing, and every recorded
      delivery belongs to a known job and article: kept by every step, at any time and in any order. */
  lemma SoundStep(cfg: Config, s: Sys, step: Step)
    requires Sound(cfg, s) && Enabled(cfg, s, step)
    ensures Sound(cfg, Next(cfg, s, step))
    ensures s.db.jobs.Keys <= Next(cfg, s, step).db.jobs.Keys
    ensures s.db.keys <= Next(cfg, s, step).db.keys
    ensures |s.tasks| <= |Next(cfg, s, step).tasks|
  {
    match step
    case Enqueue(job) => SoundEnqueue(cfg, s, job);
    case Recover => SoundRecover(cfg, s);
    case Take(w, slots) =>
      TakesOnlyEligible(cfg, w, s.db, s.clock, slots);
      SoundTake(cfg, s, w, slots);
    case Look(i, publishers) => SoundLook(cfg, s, i, publishers);
    case Test(_) => SoundAsk(cfg, s, step);
    case Call(_, _) => SoundAsk(cfg, s, step);
    case Write(i) => SoundWrite(cfg, s, i);
    case _ => SoundQuiet(cfg, s, step);
  }

  // ----- runs ---------------------------------------------------------------------------

  type Guard = (Config, Sys, Step) -> bool

  /** A sequence of enabled steps, each meeting the guard. */
  ghost predicate Run(cfg: Config, s: Sys, steps: seq<Step>, guard: Guard)
    decreases |steps|
  {
    steps != [] ==>
      && Enabled(cfg, s, steps[0]) && guard(cfg, s, steps[0])
      && Run(cfg, Next(cfg, s, steps[0]), steps[1..], guard)
  }

  ghost function After(cfg: Config, s: Sys, steps: seq<Step>, guard: Guard): Sys
    requires Run(cfg, s, steps, guard)
    decreases |steps|
  {
    if steps == [] then s else After(cfg, Next(cfg, s, steps[0]), steps[1..], guard)
  }

  ghost predicate Anything(cfg: Config, s: Sys, step: Step) { true }

  ghost predicate Linked(cfg: Config, s: Sys, step: Step, s': Sys, guard: Guard) {
    Enabled(cfg, s, step) && guard(cfg, s, step) && Next(cfg, s, step) == s'
  }

  /** The steps are a run from s to the last state. */
  ghost predicate Leads(cfg: Config, s: Sys, steps: seq<Step>, last: Sys, guard: Guard) {
    Run(cfg, s, steps, guard) && After(cfg, s, steps, guard) == last
  }

  lemma Prepend(cfg: Config, s: Sys, step: Step, s': Sys, rest: seq<Step>, last: Sys, guard: Guard) returns (steps: seq<Step>)
    requires Linked(cfg, s, step, s', guard) && Leads(cfg, s', rest, last, guard)
    ensures steps == [step] + rest && Leads(cfg, s, steps, last, guard)
  {
    steps := [step] + rest;
    assert steps[1..] == rest;
  }

  /** The writes of task i that are left, one step each. */
  lemma {:induction false} WritesInOneGo(cfg: Config, s: Sys, i: nat) returns (steps: seq<Step>, last: Sys)
    requires i < |s.tasks| && s.tasks[i].phase.Acking? && s.tasks[i].phase.stage < Stages(s.tasks[i].phase.ok)
    ensures Leads(cfg, s, steps, last, Anything)
    ensures var Task(w, job, at, Acking(a, ok, n)) := s.tasks[i];
      last.db == CommitFrom(cfg, w, s.db, job, a, at, ok, n)
    decreases Stages(s.tasks[i].phase.ok) - s.tasks[i].phase.stage
  {
    var next := AfterWrite(cfg, s, i);
    steps, last := [], next;
    if next.tasks[i].phase.Acking? {
      steps, last := WritesInOneGo(cfg, next, i);
    }
    steps := Prepend(cfg, s, Write(i), next, steps, last, Anything);
  }

  /** A worker that is not interrupted does what the methods of its class do with a claimed job. */
  lemma Uninterrupted(cfg: Config, s: Sys, i: nat, publishers: set<string>, publishes: bool)
    returns (steps: seq<Step>, last: Sys)
    requires i < |s.tasks| && s.tasks[i].phase.Ready?
    ensures Leads(cfg, s, steps, last, Anything)
    ensures var Task(w, job, at, _) := s.tasks[i]; last.db == Handle(cfg, w, s.db, job, publishers, publishes, at)
  {
    var looked := AfterLook(s, i, publishers);
    steps, last := [], looked;
    if !Lacks(s.db, s.tasks[i].job.slot, publishers) {
      var tested := AfterTest(looked, i);
      var called := AfterCall(tested, i, publishes);
      steps, last := WritesInOneGo(cfg, called, i);
      steps := Prepend(cfg, tested, Call(i, publishes), called, steps, last, Anything);
      steps := Prepend(cfg, looked, Test(i), tested, steps, last, Anything);
    }
    steps := Prepend(cfg, s, Look(i, publishers), looked, steps, last, Anything);
  }

  /** Nothing has happened yet. */
  ghost predicate Fresh(s: Sys) { s == Sys(Tables(map[], map[], {}, map[]), s.clock, [], [], map[]) }
}
