/** The other side of the retry bounds: a job is buried only when its attempts are used up, and until then
    it waits exactly as long as the backoff says. */
module Exhaustion {
  import opened Base
  import opened Tables
  import opened Commits
  import opened Protocol
  import opened Exclusion
  import opened Retry

  // ----- the limit a worker goes by -----------------------------------------------------------

  /** The copies of job k carry the limit of its row. */
  ghost predicate SameLimit(s: Sys, k: Slot) {
    forall i :: 0 <= i < |s.tasks| && s.tasks[i].job.slot == k ==> k in s.db.jobs && s.tasks[i].job.maxAttempts == s.db.jobs[k].maxAttempts
  }

  lemma LimitFrame(s: Sys, s': Sys, k: Slot)
    requires SameLimit(s, k) && |s'.tasks| == |s.tasks| && forall i :: 0 <= i < |s.tasks| ==> s'.tasks[i].job == s.tasks[i].job
    requires k in s.db.jobs ==> k in s'.db.jobs && s'.db.jobs[k].maxAttempts == s.db.jobs[k].maxAttempts
    ensures SameLimit(s', k)
  {
  }

  lemma WriteKeepsLimit(cfg: Config, w: Worker, t: Tables, job: Job, a: Article, at: int, ok: bool, n: nat)
    requires t.WellFormed() && job.slot in t.jobs && n < Stages(ok)
    ensures var t' := Commit(cfg, w, t, job, a, at, ok, n);
      job.slot in t'.jobs && t'.jobs[job.slot].maxAttempts == t.jobs[job.slot].maxAttempts
  {
  }

  lemma LimitWrite(cfg: Config, s: Sys, i: nat, k: Slot)
    requires Sound(cfg, s) && SameLimit(s, k) && i < |s.tasks| && s.tasks[i].phase.Acking?
    ensures SameLimit(AfterWrite(cfg, s, i), k)
  {
    var task := s.tasks[i];
    assert SoundTask(cfg, s, task);
    CommitRows(cfg, task.worker, s.db, task.job, task.phase.article, task.at, task.phase.ok, task.phase.stage);
    WriteKeepsLimit(cfg, task.worker, s.db, task.job, task.phase.article, task.at, task.phase.ok, task.phase.stage);
    LimitFrame(s, AfterWrite(cfg, s, i), k);
  }

  lemma LimitTake(cfg: Config, s: Sys, w: Worker, slots: seq<Slot>, k: Slot)
    requires Sound(cfg, s) && SameLimit(s, k) && forall j :: j in slots ==> j in s.db.jobs
    ensures SameLimit(AfterTake(cfg, s, w, slots), k)
  {
    var s' := AfterTake(cfg, s, w, slots);
    forall i | 0 <= i < |s'.tasks| && s'.tasks[i].job.slot == k
      ensures k in s'.db.jobs && s'.tasks[i].job.maxAttempts == s'.db.jobs[k].maxAttempts
    {
      if i >= |s.tasks| {
        assert slots[i - |s.tasks|] in slots;
      }
    }
  }

  lemma LimitLook(cfg: Config, s: Sys, i: nat, publishers: set<string>, k: Slot)
    requires Sound(cfg, s) && SameLimit(s, k) && i < |s.tasks| && s.tasks[i].phase.Ready?
    ensures SameLimit(AfterLook(s, i, publishers), k)
  {
    assert SoundTask(cfg, s, s.tasks[i]);
    LimitFrame(s, AfterLook(s, i, publishers), k);
  }

  lemma LimitEnqueue(cfg: Config, s: Sys, job: Job, k: Slot)
    requires Sound(cfg, s) && SameLimit(s, k)
    ensures SameLimit(AfterEnqueue(s, job), k)
  {
    forall i | 0 <= i < |s.tasks| && s.tasks[i].job.slot == k
      ensures k in AfterEnqueue(s, job).db.jobs && s.tasks[i].job.maxAttempts == AfterEnqueue(s, job).db.jobs[k].maxAttempts
    {
      assert SoundTask(cfg, s, s.tasks[i]);
    }
  }

  lemma LimitStep(cfg: Config, s: Sys, step: Step, k: Slot)
    requires Sound(cfg, s) && SameLimit(s, k) && Enabled(cfg, s, step)
    ensures SameLimit(Next(cfg, s, step), k)
  {
    match step
    case Enqueue(job) => LimitEnqueue(cfg, s, job, k);
    case Take(w, slots) =>
      TakesOnlyEligible(cfg, w, s.db, s.clock, slots);
      LimitTake(cfg, s, w, slots, k);
    case Look(i, publishers) => LimitLook(cfg, s, i, publishers, k);
    case Write(i) => LimitWrite(cfg, s, i, k);
    case _ => LimitFrame(s, Next(cfg, s, step), k);
  }

  lemma {:induction false} RunKeepsLimit(cfg: Config, s: Sys, steps: seq<Step>, guard: Guard, k: Slot)
    requires Sound(cfg, s) && SameLimit(s, k) && Run(cfg, s, steps, guard)
    ensures Sound(cfg, After(cfg, s, steps, guard)) && SameLimit(After(cfg, s, steps, guard), k)
    decreases |steps|
  {
    if steps != [] {
      SoundStep(cfg, s, steps[0]);
      LimitStep(cfg, s, steps[0], k);
      RunKeepsLimit(cfg, Next(cfg, s, steps[0]), steps[1..], guard, k);
    }
  }

  // ----- buried only at the limit -------------------------------------------------------------

  /** Whoever reads the article of job k finds it, and a publisher for it. */
  ghost predicate Provides(k: Slot, s: Sys, step: Step) {
    step.Look? && step.i < |s.tasks| && s.tasks[step.i].job.slot == k ==> !Lacks(s.db, k, step.publishers)
  }

  ghost function Provided(k: Slot): Guard { (cfg, s, step) => Provides(k, s, step) }

  predicate Buried(t: Tables, k: Slot) { k in t.jobs && t.jobs[k].status == DeadLetter }

  /** A buried job has used up its attempts by one of the two limits that may apply to it. */
  predicate UsedUp(cfg: Config, t: Tables, k: Slot) {
    Buried(t, k) ==> t.jobs[k].attempts >= Min(cfg.engineMaxAttempts, t.jobs[k].maxAttempts)
  }

  lemma WriteUsesUp(cfg: Config, w: Worker, t: Tables, job: Job, a: Article, at: int, ok: bool, n: nat)
    requires t.WellFormed() && job.slot in t.jobs && n < Stages(ok)
    requires job.maxAttempts == t.jobs[job.slot].maxAttempts && UsedUp(cfg, t, job.slot)
    ensures UsedUp(cfg, Commit(cfg, w, t, job, a, at, ok, n), job.slot)
  {
  }

  lemma UsedUpWrite(cfg: Config, s: Sys, i: nat, k: Slot)
    requires Sound(cfg, s) && SameLimit(s, k) && UsedUp(cfg, s.db, k) && i < |s.tasks| && s.tasks[i].phase.Acking?
    ensures UsedUp(cfg, AfterWrite(cfg, s, i).db, k)
  {
    var task := s.tasks[i];
    assert SoundTask(cfg, s, task);
    if task.job.slot == k {
      WriteUsesUp(cfg, task.worker, s.db, task.job, task.phase.article, task.at, task.phase.ok, task.phase.stage);
    } else {
      CommitRows(cfg, task.worker, s.db, task.job, task.phase.article, task.at, task.phase.ok, task.phase.stage);
    }
  }

  lemma UsedUpLook(cfg: Config, s: Sys, i: nat, publishers: set<string>, k: Slot)
    requires Sound(cfg, s) && UsedUp(cfg, s.db, k) && i < |s.tasks| && s.tasks[i].phase.Ready?
    requires s.tasks[i].job.slot == k ==> !Lacks(s.db, k, publishers)
    ensures UsedUp(cfg, AfterLook(s, i, publishers).db, k)
  {
    assert SoundTask(cfg, s, s.tasks[i]);
  }

  lemma UsedUpStep(cfg: Config, s: Sys, step: Step, k: Slot)
    requires Sound(cfg, s) && SameLimit(s, k) && UsedUp(cfg, s.db, k) && Enabled(cfg, s, step) && Provides(k, s, step)
    ensures UsedUp(cfg, Next(cfg, s, step).db, k)
  {
    match step
    case Take(w, slots) => TakesOnlyEligible(cfg, w, s.db, s.clock, slots);
    case Look(i, publishers) => UsedUpLook(cfg, s, i, publishers, k);
    case Write(i) => UsedUpWrite(cfg, s, i, k);
    case _ =>
  }

  lemma {:induction false} RunUsesUp(cfg: Config, s: Sys, steps: seq<Step>, guard: Guard, k: Slot)
    requires Sound(cfg, s) && SameLimit(s, k) && UsedUp(cfg, s.db, k) && Run(cfg, s, steps, guard)
    requires forall x: Sys, step: Step :: guard(cfg, x, step) ==> Provides(k, x, step)
    ensures UsedUp(cfg, After(cfg, s, steps, guard).db, k)
    decreases |steps|
  {
    if steps != [] {
      SoundStep(cfg, s, steps[0]);
      LimitStep(cfg, s, steps[0], k);
      UsedUpStep(cfg, s, steps[0], k);
      RunUsesUp(cfg, Next(cfg, s, steps[0]), steps[1..], guard, k);
    }
  }

  /** In any run, timely or not: from any moment at which a job is not buried - that of its enqueue, say -
      and as long as whoever reads its article finds it and a publisher, the job is buried only after
      as many attempts as the smaller of its two limits. */
  lemma BuriedIsUsedUp(cfg: Config, s: Sys, earlier: seq<Step>, later: seq<Step>, k: Slot)
    requires Fresh(s) && Run(cfg, s, earlier, Anything)
    requires var mid := After(cfg, s, earlier, Anything); !Buried(mid.db, k) && Run(cfg, mid, later, Provided(k))
    ensures var t := After(cfg, After(cfg, s, earlier, Anything), later, Provided(k)).db;
      Buried(t, k) ==> t.jobs[k].attempts >= Min(cfg.engineMaxAttempts, t.jobs[k].maxAttempts)
  {
    RunKeepsLimit(cfg, s, earlier, Anything, k);
    RunUsesUp(cfg, After(cfg, s, earlier, Anything), later, Provided(k), k);
  }

  ghost function TimelyProvided(k: Slot): Guard { (cfg, s, step) => Timely(cfg, s, step) && Provides(k, s, step) }

  lemma {:induction false} Weaken(cfg: Config, s: Sys, steps: seq<Step>, guard: Guard, weaker: Guard)
    requires Run(cfg, s, steps, guard) && forall x: Sys, step: Step :: guard(cfg, x, step) ==> weaker(cfg, x, step)
    ensures Run(cfg, s, steps, weaker) && After(cfg, s, steps, weaker) == After(cfg, s, steps, guard)
    decreases |steps|
  {
    if steps != [] {
      Weaken(cfg, Next(cfg, s, steps[0]), steps[1..], guard, weaker);
    }
  }

  /** In timely runs these attempts are claims made since the last enqueue. */
  lemma BuriedAfterClaims(cfg: Config, s: Sys, earlier: seq<Step>, later: seq<Step>, k: Slot)
    requires Fresh(s) && Run(cfg, s, earlier, Timely)
    requires var mid := After(cfg, s, earlier, Timely); !Buried(mid.db, k) && Run(cfg, mid, later, TimelyProvided(k))
    ensures var s' := After(cfg, After(cfg, s, earlier, Timely), later, TimelyProvided(k));
      Buried(s'.db, k) ==> k in s'.stats && s'.stats[k].claims >= Min(cfg.engineMaxAttempts, s'.db.jobs[k].maxAttempts)
  {
    var mid := After(cfg, s, earlier, Timely);
    RunKeepsLimit(cfg, s, earlier, Timely, k);
    RunUsesUp(cfg, mid, later, TimelyProvided(k), k);
    RunExclusive(cfg, s, earlier);
    RunTracked(cfg, s, earlier);
    Weaken(cfg, mid, later, TimelyProvided(k), Timely);
    RunTracked(cfg, mid, later);
  }

  // ----- the exact delay ------------------------------------------------------------------------

  /** A job that was claimed and waits again does so for base * 2^(claims - 1) after its last claim,
      base being that of the worker that failed. */
  ghost predicate Paused(cfg: Config, job: Job, st: Stats) {
    job.status in {Pending, Retrying} && st.claims >= 1 && st.expiries == 0 ==>
      job.nextAttempt.Some? && job.nextAttempt.value - st.lastAt in
        {cfg.engineRetryBase * Pow2(st.claims - 1), cfg.processorRetryBase * Pow2(st.claims - 1)}
  }

  ghost predicate AllPaused(cfg: Config, s: Sys) {
    forall k :: k in s.db.jobs && k in s.stats ==> Paused(cfg, s.db.jobs[k], s.stats[k])
  }

  lemma PausedElsewhere(cfg: Config, s: Sys, s': Sys, k: Slot)
    requires AllPaused(cfg, s) && s'.db.jobs.Keys == s.db.jobs.Keys && s'.stats.Keys == s.stats.Keys
    requires forall j :: j in s.db.jobs && j != k ==> s'.db.jobs[j] == s.db.jobs[j]
    requires forall j :: j in s.stats && j != k ==> s'.stats[j] == s.stats[j]
    requires k in s'.db.jobs && k in s'.stats ==> Paused(cfg, s'.db.jobs[k], s'.stats[k])
    ensures AllPaused(cfg, s')
  {
  }

  lemma PausedFailure(cfg: Config, w: Worker, job: Job, st: Stats, at: int, limit: int)
    requires Tracked(cfg, job, st) && job.status == Processing && job.lease == Some(at + cfg.lease)
    ensures Paused(cfg, FailedRow(job, at, limit, if w == Worker.Engine then cfg.engineRetryBase else cfg.processorRetryBase),
                   st.(failures := st.failures + 1))
  {
    DoubledIsPower(if w == Worker.Engine then cfg.engineRetryBase else cfg.processorRetryBase, st.claims - 1);
  }

  lemma PausedRelease(cfg: Config, s: Sys, i: nat)
    requires Sound(cfg, s) && Exclusive(cfg, s) && AllTracked(cfg, s)
    requires i < |s.tasks| && s.tasks[i].phase.Acking? && s.clock < Until(cfg, s.tasks[i])
    requires s.tasks[i].phase.stage == RowStage(s.tasks[i].worker, s.tasks[i].phase.ok)
    ensures var s', k := AfterWrite(cfg, s, i), s.tasks[i].job.slot;
      k in s'.db.jobs && k in s'.stats && Paused(cfg, s'.db.jobs[k], s'.stats[k])
  {
    var task := s.tasks[i];
    var k := task.job.slot;
    assert SoundTask(cfg, s, task) && LiveHold(cfg, s, i);
    assert s.db.jobs[k] == task.job && Tracked(cfg, s.db.jobs[k], s.stats[k]);
    RowWritten(cfg, task.worker, s.db, task.job, task.phase.article, task.at, task.phase.ok);
    PausedFailure(cfg, task.worker, task.job, s.stats[k], task.at,
      if task.worker == Worker.Engine then cfg.engineMaxAttempts else task.job.maxAttempts);
  }

  lemma PausedWrite(cfg: Config, s: Sys, i: nat)
    requires Sound(cfg, s) && Exclusive(cfg, s) && AllTracked(cfg, s) && AllPaused(cfg, s)
    requires i < |s.tasks| && s.tasks[i].phase.Acking?
    requires Holding(s.tasks[i]) ==> s.clock < Until(cfg, s.tasks[i])
    ensures AllPaused(cfg, AfterWrite(cfg, s, i))
  {
    var task := s.tasks[i];
    assert SoundTask(cfg, s, task);
    CommitRows(cfg, task.worker, s.db, task.job, task.phase.article, task.at, task.phase.ok, task.phase.stage);
    if task.phase.stage == RowStage(task.worker, task.phase.ok) {
      PausedRelease(cfg, s, i);
      PausedElsewhere(cfg, s, AfterWrite(cfg, s, i), task.job.slot);
    }
  }

  lemma PausedTake(cfg: Config, s: Sys, w: Worker, slots: seq<Slot>)
    requires AllPaused(cfg, s) && forall k :: k in slots ==> k in s.db.jobs && Eligible(s.db.jobs[k], s.clock)
    ensures AllPaused(cfg, AfterTake(cfg, s, w, slots))
  {
  }

  lemma PausedRecover(cfg: Config, s: Sys)
    requires AllPaused(cfg, s)
    ensures AllPaused(cfg, AfterRecover(s))
  {
  }

  lemma PausedLook(cfg: Config, s: Sys, i: nat, publishers: set<string>)
    requires Sound(cfg, s) && AllPaused(cfg, s) && i < |s.tasks| && s.tasks[i].phase.Ready?
    ensures AllPaused(cfg, AfterLook(s, i, publishers))
  {
    assert SoundTask(cfg, s, s.tasks[i]);
  }

  lemma PausedStep(cfg: Config, s: Sys, step: Step)
    requires Sound(cfg, s) && Exclusive(cfg, s) && AllTracked(cfg, s) && AllPaused(cfg, s)
    requires Enabled(cfg, s, step) && Timely(cfg, s, step)
    ensures AllPaused(cfg, Next(cfg, s, step))
  {
    match step
    case Recover => PausedRecover(cfg, s);
    case Take(w, slots) =>
      TakesOnlyEligible(cfg, w, s.db, s.clock, slots);
      PausedTake(cfg, s, w, slots);
    case Look(i, publishers) => PausedLook(cfg, s, i, publishers);
    case Write(i) => PausedWrite(cfg, s, i);
    case _ =>
  }

  lemma {:induction false} RunPaused(cfg: Config, s: Sys, steps: seq<Step>)
    requires Sound(cfg, s) && Exclusive(cfg, s) && AllTracked(cfg, s) && AllPaused(cfg, s) && Run(cfg, s, steps, Timely)
    ensures Sound(cfg, After(cfg, s, steps, Timely)) && AllPaused(cfg, After(cfg, s, steps, Timely))
    decreases |steps|
  {
    if steps != [] {
      SoundStep(cfg, s, steps[0]);
      ExclusiveStep(cfg, s, steps[0]);
      TrackedStep(cfg, s, steps[0]);
      PausedStep(cfg, s, steps[0]);
      RunPaused(cfg, Next(cfg, s, steps[0]), steps[1..]);
    }
  }

  lemma PausedIn(cfg: Config, s: Sys, k: Slot, base: nat)
    requires Sound(cfg, s) && AllPaused(cfg, s) && cfg.engineRetryBase == base && cfg.processorRetryBase == base
    ensures k in s.db.jobs && s.db.jobs[k].status in {Pending, Retrying} ==>
      k in s.stats && s.db.jobs[k].lease == None &&
      var st := s.stats[k];
      st.claims >= 1 && st.expiries == 0 ==> s.db.jobs[k].nextAttempt == Some(st.lastAt + base * Pow2(st.claims - 1))
  {
    if k in s.db.jobs && k in s.stats {
      assert Paused(cfg, s.db.jobs[k], s.stats[k]);
    }
  }

  /** Exact backoff: when both workers use one retry base and no lease has expired since the enqueue, a job
      that was claimed and waits again has no lease and its next attempt is base * 2^(claims - 1)
      after the last claim, neither sooner nor later. */
  lemma BackoffExactly(cfg: Config, s: Sys, steps: seq<Step>, k: Slot, base: nat)
    requires Fresh(s) && Run(cfg, s, steps, Timely) && cfg.engineRetryBase == base && cfg.processorRetryBase == base
    ensures var s' := After(cfg, s, steps, Timely);
      k in s'.db.jobs && s'.db.jobs[k].status in {Pending, Retrying} ==>
        k in s'.stats && s'.db.jobs[k].lease == None &&
        var st := s'.stats[k];
        st.claims >= 1 && st.expiries == 0 ==> s'.db.jobs[k].nextAttempt == Some(st.lastAt + base * Pow2(st.claims - 1))
  {
    RunPaused(cfg, s, steps);
    PausedIn(cfg, After(cfg, s, steps, Timely), k, base);
  }
}
