/** Bounded retry, exponential backoff and termination, per enqueue of a job. */
module Retry {
  import opened Base
  import opened Tables
  import opened Commits
  import opened Protocol
  import opened Exclusion

  /** The larger of the two workers' attempt limits; a first attempt is always made. */
  function Bound(cfg: Config, job: Job): (b: int)
    ensures b >= 1
  {
    Max(1, Max(cfg.engineMaxAttempts, job.maxAttempts))
  }

  function RetryBase(cfg: Config): nat { Min(cfg.engineRetryBase, cfg.processorRetryBase) }

  /** base * (2^n - 1) after the given time. */
  predicate Spaced(cfg: Config, first: int, n: nat, time: int) {
    time >= first + Doubled(RetryBase(cfg), n) - RetryBase(cfg)
  }

  ghost predicate Tracked(cfg: Config, job: Job, st: Stats) {
    && job.attempts == st.claims
    && (st.expiries == 0 && st.claims >= 1 ==> Spaced(cfg, st.firstAt, st.claims - 1, st.lastAt))
    && if job.status == Processing then
         && st.claims >= 1 && job.lease == Some(st.lastAt + cfg.lease)
         && st.claims <= Bound(cfg, job) + st.expiries && st.failures <= Min(st.claims - 1, Bound(cfg, job) - 1)
       else if Terminal(job.status) then
         st.claims <= Bound(cfg, job) + st.expiries && st.failures <= Bound(cfg, job)
       else
         && st.claims <= Bound(cfg, job) - 1 + st.expiries && st.failures <= Min(st.claims, Bound(cfg, job) - 1)
         && (st.expiries == 0 && st.claims >= 1 ==>
               job.nextAttempt.Some? && Spaced(cfg, st.firstAt, st.claims, job.nextAttempt.value))
  }

  ghost predicate AllTracked(cfg: Config, s: Sys) {
    forall k :: k in s.db.jobs && k in s.stats ==> Tracked(cfg, s.db.jobs[k], s.stats[k])
  }

  lemma TrackedClaim(cfg: Config, job: Job, st: Stats, now: int)
    requires Tracked(cfg, job, st) && Eligible(job, now)
    ensures Tracked(cfg, Claimed(job, now, cfg.lease), Noticed(st, now))
  {
  }

  lemma TrackedExpiry(cfg: Config, job: Job, st: Stats)
    requires Tracked(cfg, job, st) && job.status == Processing
    ensures Tracked(cfg, Recovered(job), st.(expiries := st.expiries + 1))
  {
  }

  lemma TrackedFailure(cfg: Config, job: Job, st: Stats, at: int, limit: int, base: nat)
    requires Tracked(cfg, job, st) && job.status == Processing && job.lease == Some(at + cfg.lease)
    requires limit <= Bound(cfg, job) && RetryBase(cfg) <= base
    ensures Tracked(cfg, FailedRow(job, at, limit, base), st.(failures := st.failures + 1))
  {
    DoubledMonotone(RetryBase(cfg), base, job.attempts - 1);
  }

  /** The row left behind by the worker whose copy of it is current. */
  lemma RowWritten(cfg: Config, w: Worker, t: Tables, job: Job, a: Article, at: int, ok: bool)
    requires job.slot in t.jobs && t.jobs[job.slot] == job && job.status == Processing
    ensures Commit(cfg, w, t, job, a, at, ok, RowStage(w, ok)).jobs[job.slot] ==
      if ok then SucceededRow(job)
      else if w == Worker.Engine then FailedRow(job, at, cfg.engineMaxAttempts, cfg.engineRetryBase)
      else FailedRow(job, at, job.maxAttempts, cfg.processorRetryBase)
  {
  }

  lemma TrackedRow(cfg: Config, task: Task, st: Stats, ok: bool)
    requires Tracked(cfg, task.job, st) && task.job.status == Processing && task.job.lease == Some(task.at + cfg.lease)
    ensures ok ==> Tracked(cfg, SucceededRow(task.job), st)
    ensures !ok ==> Tracked(cfg, FailedRow(task.job, task.at, cfg.engineMaxAttempts, cfg.engineRetryBase), st.(failures := st.failures + 1))
    ensures !ok ==> Tracked(cfg, FailedRow(task.job, task.at, task.job.maxAttempts, cfg.processorRetryBase), st.(failures := st.failures + 1))
  {
    TrackedFailure(cfg, task.job, st, task.at, cfg.engineMaxAttempts, cfg.engineRetryBase);
    TrackedFailure(cfg, task.job, st, task.at, task.job.maxAttempts, cfg.processorRetryBase);
  }

  lemma TrackedElsewhere(cfg: Config, s: Sys, s': Sys, k: Slot)
    requires AllTracked(cfg, s) && s'.db.jobs.Keys == s.db.jobs.Keys && s'.stats.Keys == s.stats.Keys
    requires forall j :: j in s.db.jobs && j != k ==> s'.db.jobs[j] == s.db.jobs[j]
    requires forall j :: j in s.stats && j != k ==> s'.stats[j] == s.stats[j]
    requires k in s'.db.jobs && k in s'.stats ==> Tracked(cfg, s'.db.jobs[k], s'.stats[k])
    ensures AllTracked(cfg, s')
  {
  }

  /** A task that gives up its job in time: the row is its own copy. */
  lemma TrackedRelease(cfg: Config, s: Sys, i: nat)
    requires Sound(cfg, s) && Exclusive(cfg, s) && AllTracked(cfg, s)
    requires i < |s.tasks| && s.tasks[i].phase.Acking? && s.clock < Until(cfg, s.tasks[i])
    requires s.tasks[i].phase.stage == RowStage(s.tasks[i].worker, s.tasks[i].phase.ok)
    ensures var s', k := AfterWrite(cfg, s, i), s.tasks[i].job.slot;
      k in s'.db.jobs && k in s'.stats && Tracked(cfg, s'.db.jobs[k], s'.stats[k])
  {
    var task := s.tasks[i];
    var k := task.job.slot;
    assert SoundTask(cfg, s, task) && LiveHold(cfg, s, i);
    assert s.db.jobs[k] == task.job && Tracked(cfg, s.db.jobs[k], s.stats[k]);
    RowWritten(cfg, task.worker, s.db, task.job, task.phase.article, task.at, task.phase.ok);
    TrackedRow(cfg, task, s.stats[k], task.phase.ok);
  }

  lemma TrackedWrite(cfg: Config, s: Sys, i: nat)
    requires Sound(cfg, s) && Exclusive(cfg, s) && AllTracked(cfg, s)
    requires i < |s.tasks| && s.tasks[i].phase.Acking?
    requires Holding(s.tasks[i]) ==> s.clock < Until(cfg, s.tasks[i])
    ensures AllTracked(cfg, AfterWrite(cfg, s, i))
  {
    var task := s.tasks[i];
    assert SoundTask(cfg, s, task);
    CommitRows(cfg, task.worker, s.db, task.job, task.phase.article, task.at, task.phase.ok, task.phase.stage);
    if task.phase.stage == RowStage(task.worker, task.phase.ok) {
      TrackedRelease(cfg, s, i);
      TrackedElsewhere(cfg, s, AfterWrite(cfg, s, i), task.job.slot);
    }
  }

  lemma TrackedLook(cfg: Config, s: Sys, i: nat, publishers: set<string>)
    requires Sound(cfg, s) && Exclusive(cfg, s) && AllTracked(cfg, s)
    requires i < |s.tasks| && s.tasks[i].phase.Ready?
    requires Lacks(s.db, s.tasks[i].job.slot, publishers) ==> s.clock < Until(cfg, s.tasks[i])
    ensures AllTracked(cfg, AfterLook(s, i, publishers))
  {
    assert SoundTask(cfg, s, s.tasks[i]);
    if Lacks(s.db, s.tasks[i].job.slot, publishers) {
      assert LiveHold(cfg, s, i);
      assert Tracked(cfg, s.tasks[i].job, s.stats[s.tasks[i].job.slot]);
    }
  }

  lemma TrackedTake(cfg: Config, s: Sys, w: Worker, slots: seq<Slot>)
    requires AllTracked(cfg, s) && forall k :: k in slots ==> k in s.db.jobs && Eligible(s.db.jobs[k], s.clock)
    ensures AllTracked(cfg, AfterTake(cfg, s, w, slots))
  {
    var s' := AfterTake(cfg, s, w, slots);
    forall k | k in s'.db.jobs && k in s'.stats ensures Tracked(cfg, s'.db.jobs[k], s'.stats[k]) {
      assert Tracked(cfg, s.db.jobs[k], s.stats[k]);
      if k in slots {
        TrackedClaim(cfg, s.db.jobs[k], s.stats[k], s.clock);
      }
    }
  }

  lemma TrackedRecover(cfg: Config, s: Sys)
    requires AllTracked(cfg, s)
    ensures AllTracked(cfg, AfterRecover(s))
  {
    var s' := AfterRecover(s);
    forall k | k in s'.db.jobs && k in s'.stats ensures Tracked(cfg, s'.db.jobs[k], s'.stats[k]) {
      assert Tracked(cfg, s.db.jobs[k], s.stats[k]);
      if Stale(s.db.jobs[k], s.clock) {
        TrackedExpiry(cfg, s.db.jobs[k], s.stats[k]);
      }
    }
  }

  lemma TrackedStep(cfg: Config, s: Sys, step: Step)
    requires Sound(cfg, s) && Exclusive(cfg, s) && AllTracked(cfg, s)
    requires Enabled(cfg, s, step) && Timely(cfg, s, step)
    ensures AllTracked(cfg, Next(cfg, s, step))
  {
    match step
    case Recover => TrackedRecover(cfg, s);
    case Take(w, slots) =>
      TakesOnlyEligible(cfg, w, s.db, s.clock, slots);
      TrackedTake(cfg, s, w, slots);
    case Look(i, publishers) => TrackedLook(cfg, s, i, publishers);
    case Write(i) => TrackedWrite(cfg, s, i);
    case _ =>
  }

  lemma {:induction false} RunTracked(cfg: Config, s: Sys, steps: seq<Step>)
    requires Sound(cfg, s) && Exclusive(cfg, s) && AllTracked(cfg, s) && Run(cfg, s, steps, Timely)
    ensures Sound(cfg, After(cfg, s, steps, Timely)) && AllTracked(cfg, After(cfg, s, steps, Timely))
    decreases |steps|
  {
    if steps != [] {
      SoundStep(cfg, s, steps[0]);
      ExclusiveStep(cfg, s, steps[0]);
      TrackedStep(cfg, s, steps[0]);
      RunTracked(cfg, Next(cfg, s, steps[0]), steps[1..]);
    }
  }

  /** Every timely run from nothing keeps the books. */
  lemma RunFromNothing(cfg: Config, s: Sys, steps: seq<Step>)
    requires Fresh(s) && Run(cfg, s, steps, Timely)
    ensures Sound(cfg, After(cfg, s, steps, Timely)) && AllTracked(cfg, After(cfg, s, steps, Timely))
  {
    RunTracked(cfg, s, steps);
  }

  /** Since a job was last enqueued: its attempts are its claims, acknowledged failures never exceed
      the limit, and attempts exceed the limit at most by the number of expired leases. */
  lemma BoundedRetry(cfg: Config, s: Sys, steps: seq<Step>, k: Slot)
    requires Fresh(s) && Run(cfg, s, steps, Timely) && k in After(cfg, s, steps, Timely).db.jobs
    ensures var s' := After(cfg, s, steps, Timely); var job := s'.db.jobs[k];
      && k in s'.stats && job.attempts == s'.stats[k].claims
      && s'.stats[k].failures <= Bound(cfg, job)
      && job.attempts <= Bound(cfg, job) + s'.stats[k].expiries
  {
    RunTracked(cfg, s, steps);
  }

  /** The delays before claims 2 to n + 1 add up to at least this much. */
  function LeastDelay(cfg: Config, n: nat): int { RetryBase(cfg) * (Pow2(n) - 1) }

  lemma SpacedIsPower(cfg: Config, job: Job, st: Stats)
    requires Tracked(cfg, job, st) && st.expiries == 0 && st.claims >= 1
    ensures st.lastAt >= st.firstAt + LeastDelay(cfg, st.claims - 1)
  {
    var n := st.claims - 1;
    DoubledIsPower(RetryBase(cfg), n);
    assert RetryBase(cfg) * (Pow2(n) - 1) == RetryBase(cfg) * Pow2(n) - RetryBase(cfg);
  }

  lemma SpacedIn(cfg: Config, s: Sys, k: Slot)
    requires AllTracked(cfg, s) && k in s.db.jobs && k in s.stats && s.stats[k].expiries == 0 && s.stats[k].claims >= 1
    ensures s.stats[k].lastAt >= s.stats[k].firstAt + LeastDelay(cfg, s.stats[k].claims - 1)
  {
    SpacedIsPower(cfg, s.db.jobs[k], s.stats[k]);
  }

  /** Cumulative backoff: as long as no lease expired, the n-th claim since the enqueue came no
      earlier than the first one plus base * (2^(n-1) - 1). */
  lemma CumulativeBackoff(cfg: Config, s: Sys, steps: seq<Step>, k: Slot)
    requires Fresh(s) && Run(cfg, s, steps, Timely) && k in After(cfg, s, steps, Timely).stats
    requires var st := After(cfg, s, steps, Timely).stats[k]; st.expiries == 0 && st.claims >= 1
    ensures var st := After(cfg, s, steps, Timely).stats[k];
      st.lastAt >= st.firstAt + LeastDelay(cfg, st.claims - 1)
  {
    RunFromNothing(cfg, s, steps);
    SpacedIn(cfg, After(cfg, s, steps, Timely), k);
  }

  // ----- termination ------------------------------------------------------------------------

  /** How often a job can still be claimed without a new enqueue or an expired lease. */
  function Chances(cfg: Config, job: Job): nat {
    if Terminal(job.status) then 0
    else if job.status == Processing then Max(0, Bound(cfg, job) - job.attempts)
    else Max(1, Bound(cfg, job) - job.attempts)
  }

  ghost function ChancesIn(cfg: Config, s: Sys): Slot -> int {
    k => if k in s.db.jobs then Chances(cfg, s.db.jobs[k]) else 0
  }

  ghost function Potential(cfg: Config, s: Sys): int { Sum(s.db.jobs.Keys, ChancesIn(cfg, s)) }

  ghost function Zero(): Slot -> int { k => 0 }

  /** No enqueue, and no lease that a recovery finds expired. */
  ghost predicate Closing(cfg: Config, s: Sys, step: Step) {
    && Timely(cfg, s, step) && !step.Enqueue?
    && (step.Recover? ==> forall k :: k in s.db.jobs ==> !Stale(s.db.jobs[k], s.clock))
  }

  lemma ChancesWrite(cfg: Config, s: Sys, i: nat, k: Slot)
    requires Sound(cfg, s) && Exclusive(cfg, s) && i < |s.tasks| && s.tasks[i].phase.Acking? && k in s.db.jobs
    requires Holding(s.tasks[i]) ==> s.clock < Until(cfg, s.tasks[i])
    ensures k in AfterWrite(cfg, s, i).db.jobs
    ensures Chances(cfg, AfterWrite(cfg, s, i).db.jobs[k]) <= Chances(cfg, s.db.jobs[k])
  {
    var task := s.tasks[i];
    assert SoundTask(cfg, s, task);
    CommitRows(cfg, task.worker, s.db, task.job, task.phase.article, task.at, task.phase.ok, task.phase.stage);
    if Holding(task) {
      assert LiveHold(cfg, s, i);
      assert s.db.jobs[task.job.slot] == task.job;
    }
  }

  lemma ChancesTake(cfg: Config, s: Sys, w: Worker, slots: seq<Slot>, k: Slot)
    requires k in s.db.jobs && forall j :: j in slots ==> j in s.db.jobs && Eligible(s.db.jobs[j], s.clock)
    ensures k in AfterTake(cfg, s, w, slots).db.jobs
    ensures Chances(cfg, AfterTake(cfg, s, w, slots).db.jobs[k]) + One(k in slots) <= Chances(cfg, s.db.jobs[k])
  {
  }

  lemma ChancesLook(cfg: Config, s: Sys, i: nat, publishers: set<string>, k: Slot)
    requires Sound(cfg, s) && i < |s.tasks| && s.tasks[i].phase.Ready? && k in s.db.jobs
    ensures k in AfterLook(s, i, publishers).db.jobs
    ensures Chances(cfg, AfterLook(s, i, publishers).db.jobs[k]) <= Chances(cfg, s.db.jobs[k])
  {
    assert SoundTask(cfg, s, s.tasks[i]);
  }

  /** Each claim of a job uses up one of its chances; nothing else adds any. */
  lemma ChancesDrop(cfg: Config, s: Sys, step: Step, k: Slot)
    requires Sound(cfg, s) && Exclusive(cfg, s) && Enabled(cfg, s, step) && Closing(cfg, s, step) && k in s.db.jobs
    ensures k in Next(cfg, s, step).db.jobs
    ensures Chances(cfg, Next(cfg, s, step).db.jobs[k]) + One(step.Take? && k in step.slots) <= Chances(cfg, s.db.jobs[k])
  {
    match step
    case Take(w, slots) =>
      TakesOnlyEligible(cfg, w, s.db, s.clock, slots);
      ChancesTake(cfg, s, w, slots, k);
    case Look(i, publishers) => ChancesLook(cfg, s, i, publishers, k);
    case Write(i) => ChancesWrite(cfg, s, i, k);
    case _ =>
  }

  lemma SameJobs(cfg: Config, s: Sys, step: Step)
    requires Sound(cfg, s) && Enabled(cfg, s, step) && Closing(cfg, s, step)
    ensures Next(cfg, s, step).db.jobs.Keys == s.db.jobs.Keys
    ensures |Next(cfg, s, step).tasks| == |s.tasks| + if step.Take? then |step.slots| else 0
  {
    match step
    case Take(w, slots) => TakesOnlyEligible(cfg, w, s.db, s.clock, slots);
    case Look(i, _) => assert SoundTask(cfg, s, s.tasks[i]);
    case Write(i) =>
      var task := s.tasks[i];
      assert SoundTask(cfg, s, task);
      CommitRows(cfg, task.worker, s.db, task.job, task.phase.article, task.at, task.phase.ok, task.phase.stage);
    case _ =>
  }

  function TakenBy(step: Step): set<Slot> { if step.Take? then Elems(step.slots) else {} }

  lemma PotentialStep(cfg: Config, s: Sys, step: Step)
    requires Sound(cfg, s) && Exclusive(cfg, s) && Enabled(cfg, s, step) && Closing(cfg, s, step)
    ensures Potential(cfg, Next(cfg, s, step)) + |Next(cfg, s, step).tasks| <= Potential(cfg, s) + |s.tasks|
  {
    var s' := Next(cfg, s, step);
    SameJobs(cfg, s, step);
    if step.Take? {
      TakesOnlyEligible(cfg, step.worker, s.db, s.clock, step.slots);
      DistinctSize(step.slots);
    }
    forall k | k in s.db.jobs ensures ChancesIn(cfg, s')(k) + One(k in TakenBy(step)) <= ChancesIn(cfg, s)(k) {
      ChancesDrop(cfg, s, step, k);
    }
    SumDrop(s.db.jobs.Keys, TakenBy(step), ChancesIn(cfg, s), ChancesIn(cfg, s'));
  }

  lemma PotentialIsNatural(cfg: Config, s: Sys)
    ensures Potential(cfg, s) >= 0
  {
    SumMonotone(s.db.jobs.Keys, Zero(), ChancesIn(cfg, s));
    SumZero(s.db.jobs.Keys);
  }

  lemma {:induction false} SumZero(ks: set<Slot>)
    ensures Sum(ks, Zero()) == 0
    decreases ks
  {
    if ks != {} {
      var k :| k in ks;
      SumSplit(ks, Zero(), k);
      SumZero(ks - {k});
    }
  }

  /** Without further enqueues and expiries only finitely many claims are made, at most as many as
      the jobs have chances left. */
  lemma {:induction false} FinitelyManyClaims(cfg: Config, s: Sys, steps: seq<Step>)
    requires Sound(cfg, s) && Exclusive(cfg, s) && Run(cfg, s, steps, Closing)
    ensures |After(cfg, s, steps, Closing).tasks| - |s.tasks| <= Potential(cfg, s)
    ensures var s' := After(cfg, s, steps, Closing); Potential(cfg, s') + |s'.tasks| <= Potential(cfg, s) + |s.tasks|
    decreases |steps|
  {
    if steps != [] {
      SoundStep(cfg, s, steps[0]);
      ExclusiveStep(cfg, s, steps[0]);
      PotentialStep(cfg, s, steps[0]);
      FinitelyManyClaims(cfg, Next(cfg, s, steps[0]), steps[1..]);
    }
    PotentialIsNatural(cfg, After(cfg, s, steps, Closing));
  }

  lemma EligibleHasChance(cfg: Config, s: Sys, slots: seq<Slot>)
    requires forall k :: k in slots ==> k in s.db.jobs && Eligible(s.db.jobs[k], s.clock)
    ensures slots != [] ==> Potential(cfg, s) >= 1
  {
    if slots != [] {
      var f, k := ChancesIn(cfg, s), slots[0];
      assert k in slots;
      SumSplit(s.db.jobs.Keys, f, k);
      SumMonotone(s.db.jobs.Keys - {k}, Zero(), f);
      SumZero(s.db.jobs.Keys - {k});
    }
  }

  /** With all chances used up, no worker can claim anything. */
  lemma SpentMeansNoClaim(cfg: Config, s: Sys, w: Worker, slots: seq<Slot>)
    requires Potential(cfg, s) == 0 && Takes(cfg, w, s.db, s.clock, slots)
    ensures slots == []
  {
    TakesOnlyEligible(cfg, w, s.db, s.clock, slots);
    EligibleHasChance(cfg, s, slots);
  }
}
