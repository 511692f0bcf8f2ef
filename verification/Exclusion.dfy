/** Lease exclusion: at most one worker holds a job strictly before its lease ends. */
module Exclusion {
  import opened Base
  import opened Tables
  import opened Commits
  import opened Protocol

  /** A row whose lease has not ended. */
  predicate Leased(job: Job, now: int) { job.status == Processing && job.lease.Some? && now < job.lease.value }

  /** A job is not enqueued again while it is leased, and a worker calls the publisher and gives up
      the job only before its lease ends. */
  predicate Timely(cfg: Config, s: Sys, step: Step) {
    match step
    case Enqueue(job) => job.slot in s.db.jobs ==> !Leased(s.db.jobs[job.slot], s.clock)
    case Look(i, publishers) =>
      i < |s.tasks| && Lacks(s.db, s.tasks[i].job.slot, publishers) ==> s.clock < Until(cfg, s.tasks[i])
    case Call(i, _) => i < |s.tasks| ==> s.clock < Until(cfg, s.tasks[i])
    case Write(i) => i < |s.tasks| && Holding(s.tasks[i]) ==> s.clock < Until(cfg, s.tasks[i])
    case _ => true
  }

  /** No two live holders share a job, and a live holder's copy of the row is the row. */
  ghost predicate Exclusive(cfg: Config, s: Sys) {
    && (forall i :: 0 <= i < |s.tasks| && LiveHold(cfg, s, i) ==>
          s.tasks[i].job.slot in s.db.jobs && s.db.jobs[s.tasks[i].job.slot] == s.tasks[i].job)
    && (forall i, j :: 0 <= i < j < |s.tasks| && LiveHold(cfg, s, i) && LiveHold(cfg, s, j) ==>
          s.tasks[i].job.slot != s.tasks[j].job.slot)
  }

  lemma HolderIsLeased(cfg: Config, s: Sys, i: nat)
    requires Sound(cfg, s) && Exclusive(cfg, s) && i < |s.tasks| && LiveHold(cfg, s, i)
    ensures s.tasks[i].job.slot in s.db.jobs && Leased(s.db.jobs[s.tasks[i].job.slot], s.clock)
  {
    assert SoundTask(cfg, s, s.tasks[i]);
  }

  /** Steps that add no holder and change no held row. */
  lemma ExclusiveFrame(cfg: Config, s: Sys, s': Sys)
    requires Exclusive(cfg, s) && |s'.tasks| == |s.tasks| && s.clock <= s'.clock
    requires forall i :: 0 <= i < |s.tasks| && LiveHold(cfg, s', i) ==>
      LiveHold(cfg, s, i) && s'.tasks[i].job == s.tasks[i].job
      && s.tasks[i].job.slot in s'.db.jobs && s'.db.jobs[s.tasks[i].job.slot] == s.db.jobs[s.tasks[i].job.slot]
    ensures Exclusive(cfg, s')
  {
  }

  lemma TakeHolder(cfg: Config, s: Sys, w: Worker, slots: seq<Slot>, i: nat)
    requires Sound(cfg, s) && Exclusive(cfg, s)
    requires forall k :: k in slots ==> k in s.db.jobs && Eligible(s.db.jobs[k], s.clock)
    requires var s' := AfterTake(cfg, s, w, slots); i < |s'.tasks| && LiveHold(cfg, s', i)
    ensures var s' := AfterTake(cfg, s, w, slots);
      s'.tasks[i].job.slot in s'.db.jobs && s'.db.jobs[s'.tasks[i].job.slot] == s'.tasks[i].job
    ensures i < |s.tasks| ==> LiveHold(cfg, s, i) && s.tasks[i].job.slot !in slots
    ensures i >= |s.tasks| ==> AfterTake(cfg, s, w, slots).tasks[i].job.slot == slots[i - |s.tasks|]
  {
    if i < |s.tasks| {
      assert LiveHold(cfg, s, i);
      HolderIsLeased(cfg, s, i);
    } else {
      var k := slots[i - |s.tasks|];
      assert k in slots && s.db.jobs[k].slot == k;
    }
  }

  lemma ExclusiveTake(cfg: Config, s: Sys, w: Worker, slots: seq<Slot>)
    requires Sound(cfg, s) && Exclusive(cfg, s) && Distinct(slots)
    requires forall k :: k in slots ==> k in s.db.jobs && Eligible(s.db.jobs[k], s.clock)
    ensures Exclusive(cfg, AfterTake(cfg, s, w, slots))
  {
    var s' := AfterTake(cfg, s, w, slots);
    forall i | 0 <= i < |s'.tasks| && LiveHold(cfg, s', i)
      ensures s'.tasks[i].job.slot in s'.db.jobs && s'.db.jobs[s'.tasks[i].job.slot] == s'.tasks[i].job
    {
      TakeHolder(cfg, s, w, slots, i);
    }
    forall i, j | 0 <= i < j < |s'.tasks| && LiveHold(cfg, s', i) && LiveHold(cfg, s', j)
      ensures s'.tasks[i].job.slot != s'.tasks[j].job.slot
    {
      TakeHolder(cfg, s, w, slots, i);
      TakeHolder(cfg, s, w, slots, j);
      assert j >= |s.tasks| ==> slots[j - |s.tasks|] in slots;
    }
  }

  // ----- which steps keep exclusion -----------------------------------------------------------

  ghost predicate Unheld(cfg: Config, s: Sys, k: Slot) {
    forall j: nat :: j < |s.tasks| && LiveHold(cfg, s, j) ==> s.tasks[j].job.slot != k
  }

  ghost predicate UnheldByOthers(cfg: Config, s: Sys, i: nat)
    requires i < |s.tasks|
  {
    forall j: nat :: j < |s.tasks| && j != i && LiveHold(cfg, s, j) ==> s.tasks[j].job.slot != s.tasks[i].job.slot
  }

  /** The task's next write changes the job row. */
  predicate Releases(task: Task) { task.phase.Acking? && task.phase.stage == RowStage(task.worker, task.phase.ok) }

  /** Nobody else currently holds the job whose row the step overwrites, if it overwrites one. */
  ghost predicate Undisturbed(cfg: Config, s: Sys, step: Step) {
    match step
    case Enqueue(job) => Unheld(cfg, s, job.slot)
    case Look(i, publishers) => i < |s.tasks| && Lacks(s.db, s.tasks[i].job.slot, publishers) ==> UnheldByOthers(cfg, s, i)
    case Write(i) => i < |s.tasks| && Releases(s.tasks[i]) ==> UnheldByOthers(cfg, s, i)
    case _ => true
  }

  /** A live holder whose row has no lease any more breaks exclusion. */
  lemma Disturbed(cfg: Config, s: Sys, s': Sys, j: nat)
    requires Sound(cfg, s) && j < |s.tasks| && j < |s'.tasks| && s'.tasks[j] == s.tasks[j] && LiveHold(cfg, s', j)
    requires s.tasks[j].job.slot in s'.db.jobs && s'.db.jobs[s.tasks[j].job.slot].lease.None?
    ensures !Exclusive(cfg, s')
  {
    assert SoundTask(cfg, s, s.tasks[j]);
  }

  lemma EnqueueExactly(cfg: Config, s: Sys, job: Job)
    requires Sound(cfg, s) && Exclusive(cfg, s) && Enabled(cfg, s, Enqueue(job))
    ensures Exclusive(cfg, AfterEnqueue(s, job)) <==> Unheld(cfg, s, job.slot)
  {
    var s' := AfterEnqueue(s, job);
    if j: nat :| j < |s.tasks| && LiveHold(cfg, s, j) && s.tasks[j].job.slot == job.slot {
      assert LiveHold(cfg, s', j);
      Disturbed(cfg, s, s', j);
    } else {
      ExclusiveFrame(cfg, s, s');
    }
  }

  lemma LookExactly(cfg: Config, s: Sys, i: nat, publishers: set<string>)
    requires Sound(cfg, s) && Exclusive(cfg, s) && i < |s.tasks| && s.tasks[i].phase.Ready?
    ensures Exclusive(cfg, AfterLook(s, i, publishers)) <==> Undisturbed(cfg, s, Look(i, publishers))
  {
    var s' := AfterLook(s, i, publishers);
    assert SoundTask(cfg, s, s.tasks[i]);
    if Lacks(s.db, s.tasks[i].job.slot, publishers) && !UnheldByOthers(cfg, s, i) {
      var j: nat :| j < |s.tasks| && j != i && LiveHold(cfg, s, j) && s.tasks[j].job.slot == s.tasks[i].job.slot;
      assert LiveHold(cfg, s', j);
      Disturbed(cfg, s, s', j);
    } else {
      ExclusiveFrame(cfg, s, s');
    }
  }

  lemma WriteBreaks(cfg: Config, s: Sys, i: nat, j: nat)
    requires Sound(cfg, s) && i < |s.tasks| && Releases(s.tasks[i])
    requires j < |s.tasks| && j != i && LiveHold(cfg, s, j) && s.tasks[j].job.slot == s.tasks[i].job.slot
    ensures !Exclusive(cfg, AfterWrite(cfg, s, i))
  {
    var task, s' := s.tasks[i], AfterWrite(cfg, s, i);
    assert SoundTask(cfg, s, task);
    CommitRows(cfg, task.worker, s.db, task.job, task.phase.article, task.at, task.phase.ok, task.phase.stage);
    assert LiveHold(cfg, s', j);
    Disturbed(cfg, s, s', j);
  }

  lemma WriteKeeps(cfg: Config, s: Sys, i: nat)
    requires Sound(cfg, s) && Exclusive(cfg, s) && i < |s.tasks| && s.tasks[i].phase.Acking?
    requires Releases(s.tasks[i]) ==> UnheldByOthers(cfg, s, i)
    ensures Exclusive(cfg, AfterWrite(cfg, s, i))
  {
    var task := s.tasks[i];
    assert SoundTask(cfg, s, task);
    CommitRows(cfg, task.worker, s.db, task.job, task.phase.article, task.at, task.phase.ok, task.phase.stage);
    ExclusiveFrame(cfg, s, AfterWrite(cfg, s, i));
  }

  lemma WriteExactly(cfg: Config, s: Sys, i: nat)
    requires Sound(cfg, s) && Exclusive(cfg, s) && i < |s.tasks| && s.tasks[i].phase.Acking?
    ensures Exclusive(cfg, AfterWrite(cfg, s, i)) <==> (Releases(s.tasks[i]) ==> UnheldByOthers(cfg, s, i))
  {
    if Releases(s.tasks[i]) && !UnheldByOthers(cfg, s, i) {
      var j: nat :| j < |s.tasks| && j != i && LiveHold(cfg, s, j) && s.tasks[j].job.slot == s.tasks[i].job.slot;
      WriteBreaks(cfg, s, i, j);
    } else {
      WriteKeeps(cfg, s, i);
    }
  }

  /** Steps that change no held row: recoveries take back only leases that have ended. */
  lemma ExclusiveQuiet(cfg: Config, s: Sys, step: Step)
    requires Sound(cfg, s) && Exclusive(cfg, s) && Enabled(cfg, s, step)
    requires step.Ingest? || step.Tick? || step.Recover? || step.Test? || step.Call? || step.Crash?
    ensures Exclusive(cfg, Next(cfg, s, step))
  {
    forall i: nat | i < |s.tasks| && LiveHold(cfg, s, i)
      ensures s.tasks[i].job.slot in s.db.jobs && Leased(s.db.jobs[s.tasks[i].job.slot], s.clock)
    {
      HolderIsLeased(cfg, s, i);
    }
    ExclusiveFrame(cfg, s, Next(cfg, s, step));
  }

  /** Exactly which steps keep exclusion: an enqueue keeps it if and only if nobody holds the job, the
      two kinds of writes that give up a job if and only if nobody else does, and all others always. */
  lemma ExclusiveExactly(cfg: Config, s: Sys, step: Step)
    requires Sound(cfg, s) && Exclusive(cfg, s) && Enabled(cfg, s, step)
    ensures Exclusive(cfg, Next(cfg, s, step)) <==> Undisturbed(cfg, s, step)
  {
    match step
    case Enqueue(job) => EnqueueExactly(cfg, s, job);
    case Look(i, publishers) => LookExactly(cfg, s, i, publishers);
    case Write(i) => WriteExactly(cfg, s, i);
    case Take(w, slots) =>
      TakesOnlyEligible(cfg, w, s.db, s.clock, slots);
      ExclusiveTake(cfg, s, w, slots);
    case _ => ExclusiveQuiet(cfg, s, step);
  }

  /** A worker that still holds its job is the only one. */
  lemma TimelyIsUndisturbed(cfg: Config, s: Sys, step: Step)
    requires Sound(cfg, s) && Exclusive(cfg, s) && Enabled(cfg, s, step) && Timely(cfg, s, step)
    ensures Undisturbed(cfg, s, step)
  {
    match step
    case Enqueue(job) =>
      forall j: nat | j < |s.tasks| && LiveHold(cfg, s, j) ensures s.tasks[j].job.slot != job.slot {
        HolderIsLeased(cfg, s, j);
      }
    case Look(i, _) => assert s.clock < Until(cfg, s.tasks[i]) ==> LiveHold(cfg, s, i);
    case Write(i) => assert Holding(s.tasks[i]) ==> LiveHold(cfg, s, i);
    case _ =>
  }

  /** Exclusion is kept by every timely step of any number of workers. */
  lemma ExclusiveStep(cfg: Config, s: Sys, step: Step)
    requires Sound(cfg, s) && Exclusive(cfg, s) && Enabled(cfg, s, step) && Timely(cfg, s, step)
    ensures Exclusive(cfg, Next(cfg, s, step))
  {
    TimelyIsUndisturbed(cfg, s, step);
    ExclusiveExactly(cfg, s, step);
  }

  /** After recovery no job is processing under a lease that has ended. */
  lemma RecoveryLeavesNoStale(cfg: Config, s: Sys)
    requires Sound(cfg, s)
    ensures forall k :: k in AfterRecover(s).db.jobs && AfterRecover(s).db.jobs[k].status == Processing ==>
      Leased(AfterRecover(s).db.jobs[k], s.clock)
  {
  }

  /** Lease exclusion and conservation in every timely run. */
  lemma {:induction false} RunExclusive(cfg: Config, s: Sys, steps: seq<Step>)
    requires Sound(cfg, s) && Exclusive(cfg, s) && Run(cfg, s, steps, Timely)
    ensures Sound(cfg, After(cfg, s, steps, Timely)) && Exclusive(cfg, After(cfg, s, steps, Timely))
    ensures s.db.jobs.Keys <= After(cfg, s, steps, Timely).db.jobs.Keys
    decreases |steps|
  {
    if steps != [] {
      SoundStep(cfg, s, steps[0]);
      ExclusiveStep(cfg, s, steps[0]);
      RunExclusive(cfg, Next(cfg, s, steps[0]), steps[1..]);
    }
  }

  lemma AtMostOneHolder(cfg: Config, s: Sys, steps: seq<Step>, i: nat, j: nat)
    requires Fresh(s) && Run(cfg, s, steps, Timely)
    requires var s' := After(cfg, s, steps, Timely);
      && i < |s'.tasks| && j < |s'.tasks| && s'.tasks[i].job.slot == s'.tasks[j].job.slot
      && LiveHold(cfg, s', i) && LiveHold(cfg, s', j)
    ensures i == j
  {
    RunExclusive(cfg, s, steps);
  }
}
