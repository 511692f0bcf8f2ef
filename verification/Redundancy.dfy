/** When no waiting job is older than a delivery recorded for it. */
module Redundancy {
  import opened Tables
  import opened Views
  import opened Claiming
  import opened Commits
  import opened Protocol
  import opened Exclusion

  /** A processor that has recorded a success and has its row still to save. */
  predicate Recorder(task: Task) {
    task.worker == Worker.Processor && task.phase.Acking? && task.phase.ok && task.phase.stage >= 1
  }

  /** A job is enqueued later than any delivery recorded for it or about to be. */
  ghost predicate EnqueuedLater(s: Sys, job: Job) {
    && (job.slot in s.db.history && s.db.history[job.slot].success ==> s.db.history[job.slot].createdAt < job.createdAt)
    && (forall i :: 0 <= i < |s.tasks| && InWindow(s.tasks[i]) && s.tasks[i].job.slot == job.slot ==> s.tasks[i].at < job.createdAt)
  }

  /** Timely; a processor that has recorded a success saves its row before it dies or its lease ends; and
      jobs are enqueued later than their deliveries. */
  ghost predicate Ordered(cfg: Config, s: Sys, step: Step) {
    && Timely(cfg, s, step)
    && match step
       case Tick(now) => forall i :: 0 <= i < |s.tasks| && Recorder(s.tasks[i]) ==> now < Until(cfg, s.tasks[i])
       case Crash(i) => i < |s.tasks| ==> !Recorder(s.tasks[i])
       case Enqueue(job) => EnqueuedLater(s, job)
       case _ => true
  }

  // ----- acknowledgements under way ---------------------------------------------------------

  /** The row can take a delivery recorded at that time without becoming redundant. */
  predicate Beyond(t: Tables, k: Slot, time: int) {
    k in t.jobs && (Terminal(t.jobs[k].status) || t.jobs[k].createdAt > time)
  }

  ghost predicate Settling(cfg: Config, s: Sys, task: Task) {
    && (Recorder(task) ==> s.clock < Until(cfg, task))
    && (InWindow(task) ==> Beyond(s.db, task.job.slot, task.at))
  }

  ghost predicate AllSettling(cfg: Config, s: Sys) {
    forall i :: 0 <= i < |s.tasks| ==> Settling(cfg, s, s.tasks[i])
  }

  lemma SettlingFrame(cfg: Config, s: Sys, s': Sys)
    requires AllSettling(cfg, s) && |s'.tasks| >= |s.tasks|
    requires forall i :: 0 <= i < |s'.tasks| && (Recorder(s'.tasks[i]) || InWindow(s'.tasks[i])) ==>
      i < |s.tasks| && s'.tasks[i] == s.tasks[i]
    requires forall i :: 0 <= i < |s.tasks| && Recorder(s.tasks[i]) && Recorder(s'.tasks[i]) ==> s'.clock < Until(cfg, s.tasks[i])
    requires forall i :: 0 <= i < |s.tasks| && InWindow(s.tasks[i]) && Beyond(s.db, s.tasks[i].job.slot, s.tasks[i].at) ==>
      Beyond(s'.db, s.tasks[i].job.slot, s.tasks[i].at)
    ensures AllSettling(cfg, s')
  {
    forall i | 0 <= i < |s'.tasks| ensures Settling(cfg, s', s'.tasks[i]) {
      if Recorder(s'.tasks[i]) || InWindow(s'.tasks[i]) {
        assert Settling(cfg, s, s.tasks[i]);
      }
    }
  }

  lemma ClocksLast(cfg: Config, s: Sys)
    requires AllSettling(cfg, s)
    ensures forall i :: 0 <= i < |s.tasks| && Recorder(s.tasks[i]) ==> s.clock < Until(cfg, s.tasks[i])
  {
    forall i | 0 <= i < |s.tasks| && Recorder(s.tasks[i]) ensures s.clock < Until(cfg, s.tasks[i]) {
      assert Settling(cfg, s, s.tasks[i]);
    }
  }

  lemma SettlingLook(cfg: Config, s: Sys, i: nat, publishers: set<string>)
    requires Sound(cfg, s) && Exclusive(cfg, s) && AllSettling(cfg, s) && i < |s.tasks| && s.tasks[i].phase.Ready?
    requires Lacks(s.db, s.tasks[i].job.slot, publishers) ==> s.clock < Until(cfg, s.tasks[i])
    ensures AllSettling(cfg, AfterLook(s, i, publishers))
  {
    assert SoundTask(cfg, s, s.tasks[i]);
    ClocksLast(cfg, s);
    SettlingFrame(cfg, s, AfterLook(s, i, publishers));
  }

  /** A timely write of another worker leaves the row beyond the time. */
  lemma BeyondWrite(cfg: Config, s: Sys, i: nat, k: Slot, time: int)
    requires Sound(cfg, s) && Exclusive(cfg, s) && Beyond(s.db, k, time) && i < |s.tasks| && s.tasks[i].phase.Acking?
    requires Holding(s.tasks[i]) ==> s.clock < Until(cfg, s.tasks[i])
    ensures Beyond(AfterWrite(cfg, s, i).db, k, time)
  {
    var task := s.tasks[i];
    assert SoundTask(cfg, s, task);
    if Holding(task) {
      assert LiveHold(cfg, s, i);
      HolderIsLeased(cfg, s, i);
    }
    CommitRows(cfg, task.worker, s.db, task.job, task.phase.article, task.at, task.phase.ok, task.phase.stage);
    CommitKeepsCreation(cfg, task.worker, s.db, task.job, task.phase.article, task.at, task.phase.ok, task.phase.stage);
  }

  lemma CommitKeepsCreation(cfg: Config, w: Worker, t: Tables, job: Job, a: Article, at: int, ok: bool, n: nat)
    requires job.slot in t.jobs && t.jobs[job.slot].slot == job.slot && n < Stages(ok)
    ensures var t' := Commit(cfg, w, t, job, a, at, ok, n);
      job.slot in t'.jobs && t'.jobs[job.slot].createdAt == t.jobs[job.slot].createdAt
  {
  }

  lemma SettlingWriter(cfg: Config, s: Sys, i: nat)
    requires Sound(cfg, s) && Exclusive(cfg, s) && i < |s.tasks| && s.tasks[i].phase.Acking?
    requires Settling(cfg, s, s.tasks[i]) && s.tasks[i].phase.stage < Stages(s.tasks[i].phase.ok)
    requires Holding(s.tasks[i]) ==> s.clock < Until(cfg, s.tasks[i])
    ensures Settling(cfg, AfterWrite(cfg, s, i), AfterWrite(cfg, s, i).tasks[i])
  {
    var task := s.tasks[i];
    assert SoundTask(cfg, s, task);
    if InWindow(task) {
      BeyondWrite(cfg, s, i, task.job.slot, task.at);
    }
  }

  lemma SettlingWrite(cfg: Config, s: Sys, i: nat)
    requires Sound(cfg, s) && Exclusive(cfg, s) && AllSettling(cfg, s)
    requires i < |s.tasks| && s.tasks[i].phase.Acking? && s.tasks[i].phase.stage < Stages(s.tasks[i].phase.ok)
    requires Holding(s.tasks[i]) ==> s.clock < Until(cfg, s.tasks[i])
    ensures AllSettling(cfg, AfterWrite(cfg, s, i))
  {
    var s' := AfterWrite(cfg, s, i);
    forall j | 0 <= j < |s'.tasks| ensures Settling(cfg, s', s'.tasks[j]) {
      assert Settling(cfg, s, s.tasks[j]);
      if j == i {
        SettlingWriter(cfg, s, i);
      } else if InWindow(s.tasks[j]) {
        BeyondWrite(cfg, s, i, s.tasks[j].job.slot, s.tasks[j].at);
      }
    }
  }

  lemma SettlingTake(cfg: Config, s: Sys, w: Worker, slots: seq<Slot>)
    requires AllSettling(cfg, s) && forall k :: k in slots ==> k in s.db.jobs && Eligible(s.db.jobs[k], s.clock)
    ensures AllSettling(cfg, AfterTake(cfg, s, w, slots))
  {
    ClocksLast(cfg, s);
    SettlingFrame(cfg, s, AfterTake(cfg, s, w, slots));
  }

  lemma SettlingEnqueue(cfg: Config, s: Sys, job: Job)
    requires AllSettling(cfg, s) && EnqueuedLater(s, job) && job.status == Pending
    ensures AllSettling(cfg, AfterEnqueue(s, job))
  {
    ClocksLast(cfg, s);
    SettlingFrame(cfg, s, AfterEnqueue(s, job));
  }

  lemma SettlingQuiet(cfg: Config, s: Sys, step: Step)
    requires AllSettling(cfg, s) && Enabled(cfg, s, step) && Ordered(cfg, s, step)
    requires step.Ingest? || step.Tick? || step.Recover? || step.Test? || step.Call? || step.Crash?
    ensures AllSettling(cfg, Next(cfg, s, step))
  {
    ClocksLast(cfg, s);
    SettlingFrame(cfg, s, Next(cfg, s, step));
  }

  lemma SettlingStep(cfg: Config, s: Sys, step: Step)
    requires Sound(cfg, s) && Exclusive(cfg, s) && AllSettling(cfg, s)
    requires Enabled(cfg, s, step) && Ordered(cfg, s, step)
    ensures AllSettling(cfg, Next(cfg, s, step))
  {
    match step
    case Enqueue(job) => SettlingEnqueue(cfg, s, job);
    case Look(i, publishers) => SettlingLook(cfg, s, i, publishers);
    case Write(i) => SettlingWrite(cfg, s, i);
    case Take(w, slots) =>
      TakesOnlyEligible(cfg, w, s.db, s.clock, slots);
      SettlingTake(cfg, s, w, slots);
    case _ => SettlingQuiet(cfg, s, step);
  }

  // ----- no redundant jobs ------------------------------------------------------------------

  /** A processor has recorded a success for job k and still has the row to save. */
  predicate Recorded(s: Sys, i: int, k: Slot) {
    0 <= i < |s.tasks| && Recorder(s.tasks[i]) && s.tasks[i].job.slot == k
  }

  predicate Redundant(t: Tables, k: Slot) {
    k in t.jobs && !Terminal(t.jobs[k].status) && k in t.history && t.history[k].success
    && t.jobs[k].createdAt <= t.history[k].createdAt
  }

  ghost predicate Unredundant(s: Sys) {
    forall k :: Redundant(s.db, k) ==> exists i :: Recorded(s, i, k)
  }

  lemma UnredundantFrame(s: Sys, s': Sys)
    requires Unredundant(s) && |s'.tasks| >= |s.tasks|
    requires forall i :: 0 <= i < |s.tasks| && Recorder(s.tasks[i]) ==> s'.tasks[i] == s.tasks[i]
    requires forall k :: Redundant(s'.db, k) ==> Redundant(s.db, k)
    ensures Unredundant(s')
  {
    forall k | Redundant(s'.db, k) ensures exists i :: Recorded(s', i, k) {
      var i :| Recorded(s, i, k);
      assert Recorded(s', i, k);
    }
  }

  lemma RecordedKept(cfg: Config, s: Sys, i: nat, j: int, k: Slot)
    requires i < |s.tasks| && s.tasks[i].phase.Acking? && j != i && Recorded(s, j, k)
    ensures Recorded(AfterWrite(cfg, s, i), j, k)
  {
  }

  lemma UnredundantOther(cfg: Config, s: Sys, i: nat, k: Slot)
    requires Sound(cfg, s) && Unredundant(s) && i < |s.tasks| && s.tasks[i].phase.Acking?
    requires k != s.tasks[i].job.slot && Redundant(AfterWrite(cfg, s, i).db, k)
    ensures exists j :: Recorded(AfterWrite(cfg, s, i), j, k)
  {
    var task := s.tasks[i];
    assert SoundTask(cfg, s, task);
    CommitRows(cfg, task.worker, s.db, task.job, task.phase.article, task.at, task.phase.ok, task.phase.stage);
    CommitOthers(cfg, task.worker, s.db, task.job, task.phase.article, task.at, task.phase.ok, task.phase.stage);
    assert Redundant(s.db, k);
    var j :| Recorded(s, j, k);
    RecordedKept(cfg, s, i, j, k);
  }

  lemma UnredundantSame(cfg: Config, s: Sys, i: nat, k: Slot)
    requires Sound(cfg, s) && Exclusive(cfg, s) && AllSettling(cfg, s) && Unredundant(s)
    requires i < |s.tasks| && s.tasks[i].phase.Acking? && k == s.tasks[i].job.slot
    requires Holding(s.tasks[i]) ==> s.clock < Until(cfg, s.tasks[i])
    requires !(s.tasks[i].worker == Worker.Processor && s.tasks[i].phase.ok) && Redundant(AfterWrite(cfg, s, i).db, k)
    ensures exists j :: Recorded(AfterWrite(cfg, s, i), j, k)
  {
    var task := s.tasks[i];
    assert SoundTask(cfg, s, task) && Settling(cfg, s, task);
    if Holding(task) {
      assert LiveHold(cfg, s, i);
      HolderIsLeased(cfg, s, i);
    }
    RedundantBefore(cfg, s.db, task, k);
    var j :| Recorded(s, j, k);
    RecordedKept(cfg, s, i, j, k);
  }

  lemma UnredundantWrite(cfg: Config, s: Sys, i: nat)
    requires Sound(cfg, s) && Exclusive(cfg, s) && AllSettling(cfg, s) && Unredundant(s)
    requires i < |s.tasks| && s.tasks[i].phase.Acking? && s.tasks[i].phase.stage < Stages(s.tasks[i].phase.ok)
    requires Holding(s.tasks[i]) ==> s.clock < Until(cfg, s.tasks[i])
    ensures Unredundant(AfterWrite(cfg, s, i))
  {
    var task, s' := s.tasks[i], AfterWrite(cfg, s, i);
    forall k | Redundant(s'.db, k) ensures exists j :: Recorded(s', j, k) {
      if k != task.job.slot {
        UnredundantOther(cfg, s, i, k);
      } else if task.worker == Worker.Processor && task.phase.ok {
        if task.phase.stage <= 3 {
          assert Recorded(s', i, k);
        }
      } else {
        UnredundantSame(cfg, s, i, k);
      }
    }
  }

  /** Writes other than a processor's acknowledgement of a success create no redundant job. */
  lemma RedundantBefore(cfg: Config, t: Tables, task: Task, k: Slot)
    requires t.WellFormed() && task.phase.Acking? && k == task.job.slot && k in t.jobs
    requires !(task.worker == Worker.Processor && task.phase.ok) && task.phase.stage < Stages(task.phase.ok)
    requires InWindow(task) ==> Beyond(t, k, task.at)
    requires task.phase.stage == RowStage(task.worker, task.phase.ok) ==> t.jobs[k].status == Processing
    requires Redundant(Commit(cfg, task.worker, t, task.job, task.phase.article, task.at, task.phase.ok, task.phase.stage), k)
    ensures Redundant(t, k)
  {
  }

  lemma UnredundantEnqueue(cfg: Config, s: Sys, job: Job)
    requires Sound(cfg, s) && Unredundant(s) && job.status == Pending && EnqueuedLater(s, job)
    ensures Unredundant(AfterEnqueue(s, job))
  {
    var s' := AfterEnqueue(s, job);
    forall k | Redundant(s'.db, k) ensures exists i :: Recorded(s', i, k) {
      assert k != job.slot ==> s'.db.jobs[k] == s.db.jobs[k];
      assert Redundant(s.db, k);
      var i :| Recorded(s, i, k);
      assert Recorded(s', i, k);
    }
  }

  lemma UnredundantLook(cfg: Config, s: Sys, i: nat, publishers: set<string>)
    requires Sound(cfg, s) && Unredundant(s) && i < |s.tasks| && s.tasks[i].phase.Ready?
    ensures Unredundant(AfterLook(s, i, publishers))
  {
    assert SoundTask(cfg, s, s.tasks[i]);
    UnredundantFrame(s, AfterLook(s, i, publishers));
  }

  lemma UnredundantTake(cfg: Config, s: Sys, w: Worker, slots: seq<Slot>)
    requires Unredundant(s) && forall k :: k in slots ==> k in s.db.jobs && Eligible(s.db.jobs[k], s.clock)
    ensures Unredundant(AfterTake(cfg, s, w, slots))
  {
    UnredundantFrame(s, AfterTake(cfg, s, w, slots));
  }

  lemma UnredundantQuiet(cfg: Config, s: Sys, step: Step)
    requires Unredundant(s) && Enabled(cfg, s, step) && Ordered(cfg, s, step)
    requires !step.Enqueue? && !step.Write? && !step.Take? && !step.Look?
    ensures Unredundant(Next(cfg, s, step))
  {
    UnredundantFrame(s, Next(cfg, s, step));
  }

  lemma UnredundantStep(cfg: Config, s: Sys, step: Step)
    requires Sound(cfg, s) && Exclusive(cfg, s) && AllSettling(cfg, s) && Unredundant(s)
    requires Enabled(cfg, s, step) && Ordered(cfg, s, step)
    ensures Unredundant(Next(cfg, s, step))
  {
    match step
    case Enqueue(job) => UnredundantEnqueue(cfg, s, job);
    case Write(i) => UnredundantWrite(cfg, s, i);
    case Take(w, slots) =>
      TakesOnlyEligible(cfg, w, s.db, s.clock, slots);
      UnredundantTake(cfg, s, w, slots);
    case Look(i, publishers) => UnredundantLook(cfg, s, i, publishers);
    case _ => UnredundantQuiet(cfg, s, step);
  }

  ghost predicate KeptInOrder(cfg: Config, s: Sys) {
    Sound(cfg, s) && Exclusive(cfg, s) && AllSettling(cfg, s) && Unredundant(s)
  }

  lemma InOrderStep(cfg: Config, s: Sys, step: Step)
    requires KeptInOrder(cfg, s) && Enabled(cfg, s, step) && Ordered(cfg, s, step)
    ensures KeptInOrder(cfg, Next(cfg, s, step))
  {
    SoundStep(cfg, s, step);
    ExclusiveStep(cfg, s, step);
    SettlingStep(cfg, s, step);
    UnredundantStep(cfg, s, step);
  }

  lemma {:induction false} RunInOrder(cfg: Config, s: Sys, steps: seq<Step>)
    requires KeptInOrder(cfg, s) && Run(cfg, s, steps, Ordered)
    ensures KeptInOrder(cfg, After(cfg, s, steps, Ordered))
    decreases |steps|
  {
    if steps != [] {
      InOrderStep(cfg, s, steps[0]);
      RunInOrder(cfg, Next(cfg, s, steps[0]), steps[1..]);
    }
  }

  lemma EligibleIsNewer(cfg: Config, s: Sys, job: Job)
    requires KeptInOrder(cfg, s)
    requires job.slot in s.db.jobs && s.db.jobs[job.slot] == job && Eligible(job, s.clock)
    ensures Newer(RecentRecords(s.db, s.clock), job)
  {
    if Redundant(s.db, job.slot) {
      var j :| Recorded(s, j, job.slot);
      assert SoundTask(cfg, s, s.tasks[j]) && Settling(cfg, s, s.tasks[j]);
      assert LiveHold(cfg, s, j);
      HolderIsLeased(cfg, s, j);
    }
  }

  /** No job a claim can see is redundant, in any ordered run; so the engine's claim is always the
      first listed job with room (or a further destination). */
  lemma NeverRedundant(cfg: Config, s: Sys, steps: seq<Step>, e: seq<Job>)
    requires Fresh(s) && Run(cfg, s, steps, Ordered)
    requires EligibleListing(After(cfg, s, steps, Ordered).db, After(cfg, s, steps, Ordered).clock, e)
    ensures var s' := After(cfg, s, steps, Ordered); NoRedundant(e, RecentRecords(s'.db, s'.clock))
  {
    RunInOrder(cfg, s, steps);
    var s' := After(cfg, s, steps, Ordered);
    forall i | 0 <= i < |e| ensures Newer(RecentRecords(s'.db, s'.clock), e[i]) {
      EligibleIsNewer(cfg, s', e[i]);
    }
  }
}
