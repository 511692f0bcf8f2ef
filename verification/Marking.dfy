/** Which versions get marked as delivered: when a version key means that the version was sent. */
module Marking {
  import opened Base
  import opened Tables
  import opened Commits
  import opened Protocol
  import opened Once

  function VersionOf(task: Task): Delivery
    requires task.phase.Looked? || task.phase.Tested? || task.phase.Acking?
  {
    Delivery(task.job.slot, task.phase.article.NewsTimestamp())
  }

  /** The worker takes the version it read to be delivered. */
  predicate Believes(task: Task) { (task.phase.Tested? && task.phase.skip) || (task.phase.Acking? && task.phase.ok) }

  ghost predicate MarkedWasSent(s: Sys) {
    forall k, v :: Version(k, v) in s.db.keys ==> Delivery(k, v) in s.log
  }

  /** Whatever is marked, or taken to be delivered, was sent. */
  ghost predicate Vouched(s: Sys) {
    && MarkedWasSent(s)
    && (forall i :: 0 <= i < |s.tasks| && Believes(s.tasks[i]) ==> VersionOf(s.tasks[i]) in s.log)
  }

  /** Skipped although the version itself is not marked: only the key without a version is. */
  predicate SkipsUnmarked(w: Worker, t: Tables, k: Slot, a: Article) {
    Skips(w, t, k, a) && Version(k, a.NewsTimestamp()) !in t.keys
  }

  /** The engine writes the version key, of whatever version the article row then has. */
  predicate MarksReread(task: Task) {
    task.worker == Worker.Engine && task.phase.Acking? && task.phase.ok && task.phase.stage == 2
  }

  /** No version that was never sent is skipped for the sake of the unversioned key, and none is
      marked by an engine because the article row has it by then. */
  predicate Honest(cfg: Config, s: Sys, step: Step) {
    match step
    case Test(i) =>
      i < |s.tasks| && s.tasks[i].phase.Looked?
      && SkipsUnmarked(s.tasks[i].worker, s.db, s.tasks[i].job.slot, s.tasks[i].phase.article) ==>
        VersionOf(s.tasks[i]) in s.log
    case Write(i) =>
      i < |s.tasks| && MarksReread(s.tasks[i]) ==>
        Delivery(s.tasks[i].job.slot, MarkedVersion(Worker.Engine, s.db, s.tasks[i].phase.article)) in s.log
    case _ => true
  }

  lemma VouchedTest(cfg: Config, s: Sys, i: nat)
    requires Vouched(s) && i < |s.tasks| && s.tasks[i].phase.Looked?
    ensures Vouched(AfterTest(s, i)) <==> Honest(cfg, s, Test(i))
  {
    var task, s' := s.tasks[i], AfterTest(s, i);
    assert s'.tasks[i].phase.Tested? && VersionOf(s'.tasks[i]) == VersionOf(task);
    if Skips(task.worker, s.db, task.job.slot, task.phase.article) {
      assert Believes(s'.tasks[i]);
    }
  }

  lemma VouchedCall(s: Sys, i: nat, publishes: bool)
    requires Vouched(s) && i < |s.tasks| && s.tasks[i].phase.Tested?
    ensures Vouched(AfterCall(s, i, publishes))
  {
  }

  lemma VouchedWrite(cfg: Config, s: Sys, i: nat)
    requires Sound(cfg, s) && Vouched(s) && i < |s.tasks| && s.tasks[i].phase.Acking?
    ensures Vouched(AfterWrite(cfg, s, i)) <==> Honest(cfg, s, Write(i))
  {
    var task, s' := s.tasks[i], AfterWrite(cfg, s, i);
    assert SoundTask(cfg, s, task);
    CommitKeys(cfg, task.worker, s.db, task.job, task.phase.article, task.at, task.phase.ok, task.phase.stage);
    if task.phase.ok && task.phase.stage == 2 {
      assert Version(task.job.slot, MarkedVersion(task.worker, s.db, task.phase.article)) in s'.db.keys;
      assert Believes(task);
    }
    assert forall j :: 0 <= j < |s.tasks| && Believes(s'.tasks[j]) ==>
      Believes(s.tasks[j]) && VersionOf(s'.tasks[j]) == VersionOf(s.tasks[j]);
  }

  lemma VouchedFrame(s: Sys, s': Sys)
    requires Vouched(s) && s'.db.keys == s.db.keys && s'.log == s.log && |s'.tasks| >= |s.tasks|
    requires forall i :: 0 <= i < |s'.tasks| && Believes(s'.tasks[i]) ==> i < |s.tasks| && s'.tasks[i] == s.tasks[i]
    ensures Vouched(s')
  {
  }

  lemma VouchedTake(cfg: Config, s: Sys, w: Worker, slots: seq<Slot>)
    requires Vouched(s) && forall k :: k in slots ==> k in s.db.jobs
    ensures Vouched(AfterTake(cfg, s, w, slots))
  {
    VouchedFrame(s, AfterTake(cfg, s, w, slots));
  }

  lemma QuietKeepsKeys(cfg: Config, s: Sys, step: Step)
    requires Enabled(cfg, s, step) && !step.Test? && !step.Call? && !step.Write? && !step.Take?
    ensures var s' := Next(cfg, s, step); s'.db.keys == s.db.keys && s'.log == s.log && |s'.tasks| == |s.tasks|
    ensures forall i :: 0 <= i < |s.tasks| && Believes(Next(cfg, s, step).tasks[i]) ==> Next(cfg, s, step).tasks[i] == s.tasks[i]
  {
  }

  lemma VouchedQuiet(cfg: Config, s: Sys, step: Step)
    requires Vouched(s) && Enabled(cfg, s, step) && !step.Test? && !step.Call? && !step.Write?
    ensures Vouched(Next(cfg, s, step))
  {
    if step.Take? {
      TakesOnlyEligible(cfg, step.worker, s.db, s.clock, step.slots);
      VouchedTake(cfg, s, step.worker, step.slots);
    } else {
      QuietKeepsKeys(cfg, s, step);
      VouchedFrame(s, Next(cfg, s, step));
    }
  }

  /** Exactly which steps may make a version pass for delivered without having been sent. */
  lemma VouchedExactly(cfg: Config, s: Sys, step: Step)
    requires Sound(cfg, s) && Vouched(s) && Enabled(cfg, s, step)
    ensures Vouched(Next(cfg, s, step)) <==> Honest(cfg, s, step)
  {
    match step
    case Test(i) => VouchedTest(cfg, s, i);
    case Call(i, publishes) => VouchedCall(s, i, publishes);
    case Write(i) => VouchedWrite(cfg, s, i);
    case _ => VouchedQuiet(cfg, s, step);
  }

  lemma {:induction false} RunVouched(cfg: Config, s: Sys, steps: seq<Step>)
    requires Sound(cfg, s) && Vouched(s) && Run(cfg, s, steps, Honest)
    ensures Vouched(After(cfg, s, steps, Honest))
    decreases |steps|
  {
    if steps != [] {
      SoundStep(cfg, s, steps[0]);
      VouchedExactly(cfg, s, steps[0]);
      RunVouched(cfg, Next(cfg, s, steps[0]), steps[1..]);
    }
  }

  /** Without those two cases every marked version was sent: in any run, late workers, crashes and all. */
  lemma MarkedMeansSent(cfg: Config, s: Sys, steps: seq<Step>)
    requires Fresh(s) && Run(cfg, s, steps, Honest)
    ensures MarkedWasSent(After(cfg, s, steps, Honest))
  {
    RunVouched(cfg, s, steps);
  }

  // ----- in terms of what the workers see -----------------------------------------------------

  /** The unversioned key never decides, and an engine still finds in the row the version it read. */
  predicate Plain(cfg: Config, s: Sys, step: Step) {
    match step
    case Test(i) =>
      i < |s.tasks| && s.tasks[i].phase.Looked? ==>
        !SkipsUnmarked(s.tasks[i].worker, s.db, s.tasks[i].job.slot, s.tasks[i].phase.article)
    case Write(i) =>
      i < |s.tasks| && MarksReread(s.tasks[i]) ==>
        MarkedVersion(Worker.Engine, s.db, s.tasks[i].phase.article) == s.tasks[i].phase.article.NewsTimestamp()
    case _ => true
  }

  lemma PlainIsHonest(cfg: Config, s: Sys, step: Step)
    requires Vouched(s) && Plain(cfg, s, step)
    ensures Honest(cfg, s, step)
  {
    if step.Write? && step.i < |s.tasks| && MarksReread(s.tasks[step.i]) {
      assert Believes(s.tasks[step.i]);
    }
  }

  lemma {:induction false} RunPlain(cfg: Config, s: Sys, steps: seq<Step>)
    requires Sound(cfg, s) && Vouched(s) && Run(cfg, s, steps, Plain)
    ensures Vouched(After(cfg, s, steps, Plain))
    decreases |steps|
  {
    if steps != [] {
      SoundStep(cfg, s, steps[0]);
      PlainIsHonest(cfg, s, steps[0]);
      VouchedExactly(cfg, s, steps[0]);
      RunPlain(cfg, Next(cfg, s, steps[0]), steps[1..]);
    }
  }

  /** A condition the workers could check: if no version is skipped for the sake of the unversioned key
      and every engine still finds the version it read, every marked version was sent. Late and
      crashing workers do no harm. */
  lemma PlainlyMarkedMeansSent(cfg: Config, s: Sys, steps: seq<Step>)
    requires Fresh(s) && Run(cfg, s, steps, Plain)
    ensures MarkedWasSent(After(cfg, s, steps, Plain))
  {
    RunPlain(cfg, s, steps);
  }

  /** Careful, and the unversioned key never decides. */
  ghost predicate Versioned(cfg: Config, s: Sys, step: Step) {
    Careful(cfg, s, step) && (step.Test? ==> Plain(cfg, s, step))
  }

  /** In a careful run the engine finds the version it read. */
  lemma VersionedIsPlain(cfg: Config, s: Sys, step: Step)
    requires Sound(cfg, s) && OpenTasks(cfg, s) && Enabled(cfg, s, step) && Versioned(cfg, s, step)
    ensures Plain(cfg, s, step)
  {
    if step.Write? && MarksReread(s.tasks[step.i]) {
      var task := s.tasks[step.i];
      assert SoundTask(cfg, s, task) && OpenTask(cfg, s, task);
      assert Rereading(cfg, s, task);
    }
  }

  lemma {:induction false} RunVersioned(cfg: Config, s: Sys, steps: seq<Step>)
    requires Kept(cfg, s) && Vouched(s) && Run(cfg, s, steps, Versioned)
    ensures Kept(cfg, After(cfg, s, steps, Versioned)) && Vouched(After(cfg, s, steps, Versioned))
    decreases |steps|
  {
    if steps != [] {
      KeptStep(cfg, s, steps[0]);
      VersionedIsPlain(cfg, s, steps[0]);
      PlainIsHonest(cfg, s, steps[0]);
      VouchedExactly(cfg, s, steps[0]);
      RunVersioned(cfg, Next(cfg, s, steps[0]), steps[1..]);
    }
  }

  lemma {:induction false} DistinctTimes(ds: seq<Delivery>, d: Delivery)
    requires Distinct(ds)
    ensures Times(ds, d) == One(d in ds)
  {
    if ds != [] {
      DistinctTimes(ds[1..], d);
      assert ds == [ds[0]] + ds[1..];
    }
  }

  /** In careful runs in which the unversioned key never decides, every marked version was sent, and
      sent once. */
  lemma MarkedMeansSentOnce(cfg: Config, s: Sys, steps: seq<Step>, k: Slot, v: Option<int>)
    requires Fresh(s) && Run(cfg, s, steps, Versioned)
    requires Version(k, v) in After(cfg, s, steps, Versioned).db.keys
    ensures Times(After(cfg, s, steps, Versioned).log, Delivery(k, v)) == 1
  {
    RunVersioned(cfg, s, steps);
    DistinctTimes(After(cfg, s, steps, Versioned).log, Delivery(k, v));
  }
}
