/** Delivery once per version, and what survives a crash. */
module Once {
  import opened Base
  import opened Tables
  import opened Commits
  import opened Protocol
  import opened Exclusion

  /** A success whose version key is still to be written. */
  predicate Open(task: Task) { task.phase.Acking? && task.phase.ok && task.phase.stage <= 2 }

  /** An engine that has read the article and will mark whatever version the row then has. */
  predicate Rereads(task: Task) {
    task.worker == Worker.Engine &&
    (task.phase.Looked? || task.phase.Tested? || Open(task))
  }

  /** Unless its lease has ended before it called the publisher. */
  predicate Rereading(cfg: Config, s: Sys, task: Task) { Rereads(task) && (Open(task) || s.clock < Until(cfg, task)) }

  /** Saving `a` does not change the version an engine is about to mark. */
  ghost predicate KeepsVersion(cfg: Config, s: Sys, a: Article) {
    forall j :: 0 <= j < |s.tasks| && Rereading(cfg, s, s.tasks[j]) && s.tasks[j].job.slot.article == a.id ==>
      a.id in s.db.articles && a.NewsTimestamp() == s.db.articles[a.id].NewsTimestamp()
  }

  predicate SavesArticle(task: Task) {
    task.phase.Acking? && task.phase.ok && task.phase.stage == if task.worker == Worker.Engine then 4 else 3
  }

  /** Open, and the row not yet saved. */
  predicate Unreleased(task: Task) { Open(task) && Holding(task) }

  /** What a careful run avoids besides being late. */
  datatype Mishap = Lapse | Death | Reenqueue | NewVersion

  /** The step is such a mishap: once a publisher has succeeded and before the version key is written,
      the lease of a job still held ends, the worker dies or the job is enqueued again; or the version
      changes under an engine that has read it. */
  ghost predicate Causes(cfg: Config, s: Sys, step: Step, m: Mishap) {
    match m
    case Lapse => step.Tick? && exists i :: 0 <= i < |s.tasks| && Unreleased(s.tasks[i]) && step.now >= Until(cfg, s.tasks[i])
    case Death => step.Crash? && step.i < |s.tasks| && Open(s.tasks[step.i])
    case Reenqueue => step.Enqueue? && exists i :: 0 <= i < |s.tasks| && Open(s.tasks[i]) && s.tasks[i].job.slot == step.job.slot
    case NewVersion =>
      || (step.Ingest? && !KeepsVersion(cfg, s, step.article))
      || (step.Write? && step.i < |s.tasks| && SavesArticle(s.tasks[step.i]) && !KeepsVersion(cfg, s, s.tasks[step.i].phase.article))
  }

  ghost predicate Careful(cfg: Config, s: Sys, step: Step) {
    Timely(cfg, s, step) && forall m :: !Causes(cfg, s, step, m)
  }

  // ----- open acknowledgements --------------------------------------------------------------

  predicate IsDone(t: Tables, k: Slot) { k in t.jobs && t.jobs[k].status == Succeeded }

  predicate VersionIs(t: Tables, article: string, version: Option<int>) {
    article in t.articles && t.articles[article].NewsTimestamp() == version
  }

  ghost predicate OpenTask(cfg: Config, s: Sys, task: Task) {
    && (Unreleased(task) ==> s.clock < Until(cfg, task))
    && (Open(task) && !Holding(task) ==> IsDone(s.db, task.job.slot))
    && (Rereading(cfg, s, task) ==> VersionIs(s.db, task.job.slot.article, task.phase.article.NewsTimestamp()))
  }

  ghost predicate OpenTasks(cfg: Config, s: Sys) {
    forall i :: 0 <= i < |s.tasks| ==> OpenTask(cfg, s, s.tasks[i])
  }

  /** Steps that leave the tasks' phases, and what they rely on, as they are. */
  lemma OpenFrame(cfg: Config, s: Sys, s': Sys)
    requires OpenTasks(cfg, s) && |s'.tasks| >= |s.tasks| && s.clock <= s'.clock
    requires forall i :: 0 <= i < |s'.tasks| && (Open(s'.tasks[i]) || Rereads(s'.tasks[i])) ==>
      i < |s.tasks| && s'.tasks[i] == s.tasks[i]
    requires forall i :: 0 <= i < |s.tasks| && Unreleased(s.tasks[i]) ==> s'.clock < Until(cfg, s.tasks[i])
    requires forall i :: 0 <= i < |s.tasks| && Open(s.tasks[i]) && IsDone(s.db, s.tasks[i].job.slot) ==>
      IsDone(s'.db, s.tasks[i].job.slot)
    requires forall i, v :: 0 <= i < |s.tasks| && Rereading(cfg, s, s.tasks[i]) && VersionIs(s.db, s.tasks[i].job.slot.article, v) ==>
      VersionIs(s'.db, s.tasks[i].job.slot.article, v)
    ensures OpenTasks(cfg, s')
  {
    forall i | 0 <= i < |s'.tasks| ensures OpenTask(cfg, s', s'.tasks[i]) {
      if Open(s'.tasks[i]) || Rereads(s'.tasks[i]) {
        assert OpenTask(cfg, s, s.tasks[i]);
      }
    }
  }

  lemma OpenLook(cfg: Config, s: Sys, i: nat, publishers: set<string>)
    requires Sound(cfg, s) && Exclusive(cfg, s) && OpenTasks(cfg, s) && i < |s.tasks| && s.tasks[i].phase.Ready?
    requires Lacks(s.db, s.tasks[i].job.slot, publishers) ==> s.clock < Until(cfg, s.tasks[i])
    ensures OpenTasks(cfg, AfterLook(s, i, publishers))
  {
    var s' := AfterLook(s, i, publishers);
    assert SoundTask(cfg, s, s.tasks[i]);
    if Lacks(s.db, s.tasks[i].job.slot, publishers) {
      assert LiveHold(cfg, s, i);
      HolderIsLeased(cfg, s, i);
    }
    forall j | 0 <= j < |s'.tasks| ensures OpenTask(cfg, s', s'.tasks[j]) {
      assert OpenTask(cfg, s, s.tasks[j]);
    }
  }

  lemma OpenAsk(cfg: Config, s: Sys, step: Step)
    requires OpenTasks(cfg, s) && Enabled(cfg, s, step) && (step.Test? || step.Call?)
    requires step.Call? ==> s.clock < Until(cfg, s.tasks[step.i])
    ensures OpenTasks(cfg, Next(cfg, s, step))
  {
    var s' := Next(cfg, s, step);
    forall j | 0 <= j < |s'.tasks| ensures OpenTask(cfg, s', s'.tasks[j]) {
      assert OpenTask(cfg, s, s.tasks[j]);
    }
  }

  /** The task that writes, if it is still open afterwards. */
  lemma OpenWriter(cfg: Config, s: Sys, i: nat)
    requires Sound(cfg, s) && i < |s.tasks| && s.tasks[i].phase.Acking? && s.tasks[i].phase.ok
    requires OpenTask(cfg, s, s.tasks[i]) && s.tasks[i].phase.stage < Stages(true)
    ensures OpenTask(cfg, AfterWrite(cfg, s, i), AfterWrite(cfg, s, i).tasks[i])
  {
    var task := s.tasks[i];
    assert SoundTask(cfg, s, task);
    CommitRows(cfg, task.worker, s.db, task.job, task.phase.article, task.at, task.phase.ok, task.phase.stage);
  }

  /** A job that is done stays done: whoever still holds a job holds another one. */
  lemma DoneStays(cfg: Config, s: Sys, i: nat, k: Slot)
    requires Sound(cfg, s) && Exclusive(cfg, s) && IsDone(s.db, k) && i < |s.tasks| && s.tasks[i].phase.Acking?
    requires Holding(s.tasks[i]) ==> s.clock < Until(cfg, s.tasks[i])
    ensures IsDone(AfterWrite(cfg, s, i).db, k)
  {
    var task := s.tasks[i];
    assert SoundTask(cfg, s, task);
    if Holding(task) {
      assert LiveHold(cfg, s, i);
      HolderIsLeased(cfg, s, i);
    }
    CommitRows(cfg, task.worker, s.db, task.job, task.phase.article, task.at, task.phase.ok, task.phase.stage);
  }

  lemma OpenWrite(cfg: Config, s: Sys, i: nat)
    requires Sound(cfg, s) && Exclusive(cfg, s) && OpenTasks(cfg, s)
    requires i < |s.tasks| && s.tasks[i].phase.Acking? && s.tasks[i].phase.stage < Stages(s.tasks[i].phase.ok)
    requires Holding(s.tasks[i]) ==> s.clock < Until(cfg, s.tasks[i])
    requires SavesArticle(s.tasks[i]) ==> KeepsVersion(cfg, s, s.tasks[i].phase.article)
    ensures OpenTasks(cfg, AfterWrite(cfg, s, i))
  {
    var s' := AfterWrite(cfg, s, i);
    forall j | 0 <= j < |s'.tasks| ensures OpenTask(cfg, s', s'.tasks[j]) {
      assert OpenTask(cfg, s, s.tasks[j]);
      if j != i {
        WriteVersions(cfg, s, i, s.tasks[j]);
        if IsDone(s.db, s.tasks[j].job.slot) {
          DoneStays(cfg, s, i, s.tasks[j].job.slot);
        }
      } else if s.tasks[i].phase.ok {
        OpenWriter(cfg, s, i);
      }
    }
  }

  /** An article save leaves the version of re-reading engines alone. */
  lemma WriteVersions(cfg: Config, s: Sys, i: nat, task: Task)
    requires i < |s.tasks| && s.tasks[i].phase.Acking? && s.tasks[i].phase.stage < Stages(s.tasks[i].phase.ok)
    requires SavesArticle(s.tasks[i]) ==> KeepsVersion(cfg, s, s.tasks[i].phase.article)
    requires task in s.tasks && Rereading(cfg, s, task) ==> task.job.slot.article in s.db.articles
    ensures task in s.tasks && Rereading(cfg, s, task) ==>
      var t' := AfterWrite(cfg, s, i).db;
      task.job.slot.article in t'.articles &&
      t'.articles[task.job.slot.article].NewsTimestamp() == s.db.articles[task.job.slot.article].NewsTimestamp()
  {
  }

  /** The steps of no particular worker. */
  lemma OpenQuiet(cfg: Config, s: Sys, step: Step)
    requires Sound(cfg, s) && OpenTasks(cfg, s) && Enabled(cfg, s, step)
    requires step.Enqueue? || step.Ingest? || step.Tick? || step.Recover? || step.Crash?
    requires !Causes(cfg, s, step, Lapse) && !Causes(cfg, s, step, Reenqueue) && !Causes(cfg, s, step, NewVersion)
    ensures OpenTasks(cfg, Next(cfg, s, step))
  {
    forall i | 0 <= i < |s.tasks| && Unreleased(s.tasks[i]) ensures s.clock < Until(cfg, s.tasks[i]) {
      assert OpenTask(cfg, s, s.tasks[i]);
    }
    OpenFrame(cfg, s, Next(cfg, s, step));
  }

  lemma OpenTake(cfg: Config, s: Sys, w: Worker, slots: seq<Slot>)
    requires OpenTasks(cfg, s) && forall k :: k in slots ==> k in s.db.jobs && Eligible(s.db.jobs[k], s.clock)
    ensures OpenTasks(cfg, AfterTake(cfg, s, w, slots))
  {
    forall i | 0 <= i < |s.tasks| && Unreleased(s.tasks[i]) ensures s.clock < Until(cfg, s.tasks[i]) {
      assert OpenTask(cfg, s, s.tasks[i]);
    }
    OpenFrame(cfg, s, AfterTake(cfg, s, w, slots));
  }

  lemma OpenStep(cfg: Config, s: Sys, step: Step)
    requires Sound(cfg, s) && Exclusive(cfg, s) && OpenTasks(cfg, s)
    requires Enabled(cfg, s, step) && Careful(cfg, s, step)
    ensures OpenTasks(cfg, Next(cfg, s, step))
  {
    match step
    case Look(i, publishers) => OpenLook(cfg, s, i, publishers);
    case Test(_) => OpenAsk(cfg, s, step);
    case Call(_, _) => OpenAsk(cfg, s, step);
    case Write(i) =>
      assert !Causes(cfg, s, step, NewVersion);
      OpenWrite(cfg, s, i);
    case Take(w, slots) =>
      TakesOnlyEligible(cfg, w, s.db, s.clock, slots);
      OpenTake(cfg, s, w, slots);
    case _ =>
      assert forall m :: !Causes(cfg, s, step, m);
      OpenQuiet(cfg, s, step);
  }

  // ----- the log of deliveries --------------------------------------------------------------

  /** Task i delivered this version and has yet to mark it. */
  predicate Unmarked(s: Sys, i: int, d: Delivery) {
    && 0 <= i < |s.tasks| && Open(s.tasks[i]) && s.tasks[i].job.slot == d.slot && s.tasks[i].phase.article.NewsTimestamp() == d.version
  }

  ghost predicate Accounted(s: Sys, d: Delivery) {
    Version(d.slot, d.version) in s.db.keys || exists i :: Unmarked(s, i, d)
  }

  ghost predicate LogOnce(s: Sys) {
    Distinct(s.log) && forall d :: d in s.log ==> Accounted(s, d)
  }

  /** A job that a worker may still deliver is in nobody's open acknowledgement. */
  lemma UncalledMeansUnopened(cfg: Config, s: Sys, i: nat, j: nat)
    requires Sound(cfg, s) && Exclusive(cfg, s) && OpenTasks(cfg, s)
    requires i < |s.tasks| && j < |s.tasks| && Uncalled(s.tasks[i].phase) && s.clock < Until(cfg, s.tasks[i]) && Open(s.tasks[j])
    ensures s.tasks[i].job.slot != s.tasks[j].job.slot
  {
    assert LiveHold(cfg, s, i);
    HolderIsLeased(cfg, s, i);
    assert OpenTask(cfg, s, s.tasks[j]);
    if Holding(s.tasks[j]) {
      assert LiveHold(cfg, s, j);
    }
  }

  /** About to deliver: the keys did not have the version when they were looked up. */
  predicate Asking(task: Task) { task.phase.Tested? && !task.phase.skip }

  /** What a worker found in the keys is still true when it calls the publisher. */
  ghost predicate TestsHold(cfg: Config, s: Sys) {
    forall i :: 0 <= i < |s.tasks| && Asking(s.tasks[i]) && s.clock < Until(cfg, s.tasks[i]) ==>
      Version(s.tasks[i].job.slot, s.tasks[i].phase.article.NewsTimestamp()) !in s.db.keys
  }

  lemma TestsWrite(cfg: Config, s: Sys, i: nat)
    requires Sound(cfg, s) && Exclusive(cfg, s) && OpenTasks(cfg, s) && TestsHold(cfg, s)
    requires i < |s.tasks| && s.tasks[i].phase.Acking? && s.tasks[i].phase.stage < Stages(s.tasks[i].phase.ok)
    ensures TestsHold(cfg, AfterWrite(cfg, s, i))
  {
    var task, s' := s.tasks[i], AfterWrite(cfg, s, i);
    assert SoundTask(cfg, s, task);
    CommitKeys(cfg, task.worker, s.db, task.job, task.phase.article, task.at, task.phase.ok, task.phase.stage);
    forall j | 0 <= j < |s'.tasks| && Asking(s'.tasks[j]) && s'.clock < Until(cfg, s'.tasks[j])
      ensures Version(s'.tasks[j].job.slot, s'.tasks[j].phase.article.NewsTimestamp()) !in s'.db.keys
    {
      if Open(task) {
        UncalledMeansUnopened(cfg, s, j, i);
      }
    }
  }

  lemma TestsFrame(cfg: Config, s: Sys, s': Sys)
    requires TestsHold(cfg, s) && s'.db.keys == s.db.keys && s.clock <= s'.clock && |s'.tasks| >= |s.tasks|
    requires forall i :: 0 <= i < |s'.tasks| && Asking(s'.tasks[i]) ==> i < |s.tasks| && s'.tasks[i] == s.tasks[i]
    ensures TestsHold(cfg, s')
  {
  }

  lemma TestsTest(cfg: Config, s: Sys, i: nat)
    requires TestsHold(cfg, s) && i < |s.tasks| && s.tasks[i].phase.Looked?
    ensures TestsHold(cfg, AfterTest(s, i))
  {
  }

  lemma TestsQuiet(cfg: Config, s: Sys, step: Step)
    requires TestsHold(cfg, s) && Enabled(cfg, s, step) && !step.Test? && !step.Write? && !step.Take?
    ensures TestsHold(cfg, Next(cfg, s, step))
  {
    TestsFrame(cfg, s, Next(cfg, s, step));
  }

  lemma TestsStep(cfg: Config, s: Sys, step: Step)
    requires Sound(cfg, s) && Exclusive(cfg, s) && OpenTasks(cfg, s) && TestsHold(cfg, s) && Enabled(cfg, s, step)
    ensures TestsHold(cfg, Next(cfg, s, step))
  {
    match step
    case Test(i) => TestsTest(cfg, s, i);
    case Write(i) => TestsWrite(cfg, s, i);
    case Take(w, slots) =>
      TakesOnlyEligible(cfg, w, s.db, s.clock, slots);
      TestsFrame(cfg, s, AfterTake(cfg, s, w, slots));
    case _ => TestsQuiet(cfg, s, step);
  }

  lemma LogCall(cfg: Config, s: Sys, i: nat, publishes: bool)
    requires Sound(cfg, s) && Exclusive(cfg, s) && OpenTasks(cfg, s) && TestsHold(cfg, s) && LogOnce(s)
    requires i < |s.tasks| && s.tasks[i].phase.Tested? && s.clock < Until(cfg, s.tasks[i])
    ensures LogOnce(AfterCall(s, i, publishes))
  {
    var s' := AfterCall(s, i, publishes);
    forall d | d in s.log ensures Accounted(s', d) {
      assert Accounted(s, d);
      if j :| Unmarked(s, j, d) {
        assert Unmarked(s', j, d);
      }
    }
    if s'.log != s.log {
      var d := Delivery(s.tasks[i].job.slot, s.tasks[i].phase.article.NewsTimestamp());
      assert Unmarked(s', i, d) && Asking(s.tasks[i]);
      if d in s.log {
        assert Accounted(s, d);
        var j :| Unmarked(s, j, d);
        UncalledMeansUnopened(cfg, s, i, j);
      }
    }
  }

  lemma LogWrite(cfg: Config, s: Sys, i: nat)
    requires Sound(cfg, s) && OpenTasks(cfg, s) && LogOnce(s)
    requires i < |s.tasks| && s.tasks[i].phase.Acking? && s.tasks[i].phase.stage < Stages(s.tasks[i].phase.ok)
    ensures LogOnce(AfterWrite(cfg, s, i))
  {
    var task, s' := s.tasks[i], AfterWrite(cfg, s, i);
    assert SoundTask(cfg, s, task) && OpenTask(cfg, s, task);
    CommitOthers(cfg, task.worker, s.db, task.job, task.phase.article, task.at, task.phase.ok, task.phase.stage);
    forall d | d in s.log ensures Accounted(s', d) {
      assert Accounted(s, d);
      if j :| Unmarked(s, j, d) {
        if j != i || task.phase.stage < 2 {
          assert Unmarked(s', j, d);
        } else {
          assert Version(d.slot, d.version) in s'.db.keys;
        }
      }
    }
  }

  lemma LogFrame(s: Sys, s': Sys)
    requires LogOnce(s) && s'.log == s.log && s.db.keys <= s'.db.keys && |s'.tasks| >= |s.tasks|
    requires forall i :: 0 <= i < |s.tasks| && Open(s.tasks[i]) ==> s'.tasks[i] == s.tasks[i]
    ensures LogOnce(s')
  {
    forall d | d in s.log ensures Accounted(s', d) {
      assert Accounted(s, d);
      if j :| Unmarked(s, j, d) {
        assert Unmarked(s', j, d);
      }
    }
  }

  lemma LogTake(cfg: Config, s: Sys, w: Worker, slots: seq<Slot>)
    requires LogOnce(s) && forall k :: k in slots ==> k in s.db.jobs
    ensures LogOnce(AfterTake(cfg, s, w, slots))
  {
    LogFrame(s, AfterTake(cfg, s, w, slots));
  }

  lemma LogQuiet(cfg: Config, s: Sys, step: Step)
    requires LogOnce(s) && Enabled(cfg, s, step) && !Causes(cfg, s, step, Death)
    requires !step.Take? && !step.Call? && !step.Write?
    ensures LogOnce(Next(cfg, s, step))
  {
    LogFrame(s, Next(cfg, s, step));
  }

  lemma LogStep(cfg: Config, s: Sys, step: Step)
    requires Sound(cfg, s) && Exclusive(cfg, s) && OpenTasks(cfg, s) && TestsHold(cfg, s) && LogOnce(s)
    requires Enabled(cfg, s, step) && Careful(cfg, s, step)
    ensures LogOnce(Next(cfg, s, step))
  {
    match step
    case Call(i, publishes) => LogCall(cfg, s, i, publishes);
    case Write(i) => LogWrite(cfg, s, i);
    case Take(w, slots) =>
      TakesOnlyEligible(cfg, w, s.db, s.clock, slots);
      LogTake(cfg, s, w, slots);
    case _ =>
      assert forall m :: !Causes(cfg, s, step, m);
      LogQuiet(cfg, s, step);
  }

  // ----- the theorems -----------------------------------------------------------------------

  ghost predicate Kept(cfg: Config, s: Sys) {
    Sound(cfg, s) && Exclusive(cfg, s) && OpenTasks(cfg, s) && TestsHold(cfg, s) && LogOnce(s)
  }

  lemma KeptStep(cfg: Config, s: Sys, step: Step)
    requires Kept(cfg, s) && Enabled(cfg, s, step) && Careful(cfg, s, step)
    ensures Kept(cfg, Next(cfg, s, step))
  {
    SoundStep(cfg, s, step);
    ExclusiveStep(cfg, s, step);
    OpenStep(cfg, s, step);
    TestsStep(cfg, s, step);
    LogStep(cfg, s, step);
  }

  lemma {:induction false} RunKept(cfg: Config, s: Sys, steps: seq<Step>)
    requires Kept(cfg, s) && Run(cfg, s, steps, Careful)
    ensures Kept(cfg, After(cfg, s, steps, Careful))
    decreases |steps|
  {
    if steps != [] {
      KeptStep(cfg, s, steps[0]);
      RunKept(cfg, Next(cfg, s, steps[0]), steps[1..]);
    }
  }

  /** At most one delivery per version: whichever workers take part, and however their steps
      interleave, the publisher succeeds at most once per article, destination and version. */
  lemma OncePerVersion(cfg: Config, s: Sys, steps: seq<Step>)
    requires Fresh(s) && Run(cfg, s, steps, Careful)
    ensures Distinct(After(cfg, s, steps, Careful).log)
  {
    RunKept(cfg, s, steps);
  }

  // ----- crash safety -----------------------------------------------------------------------

  /** The workers that looked up the keys, did not find this version, and have yet to call. */
  ghost function Askers(s: Sys, d: Delivery): set<int> {
    set i | 0 <= i < |s.tasks| && Asking(s.tasks[i]) && s.tasks[i].job.slot == d.slot
      && s.tasks[i].phase.article.NewsTimestamp() == d.version
  }

  function Times(ds: seq<Delivery>, d: Delivery): nat { multiset(ds)[d] }

  /** Deliveries of d come from those who asked for it, one from each, and nobody joins them. */
  ghost predicate Spends(s: Sys, s': Sys, d: Delivery) {
    s.log <= s'.log && Times(s'.log[|s.log|..], d) + |Askers(s', d)| <= |Askers(s, d)|
  }

  lemma KeyCall(s: Sys, i: nat, publishes: bool, d: Delivery)
    requires i < |s.tasks| && s.tasks[i].phase.Tested?
    ensures Spends(s, AfterCall(s, i, publishes), d)
  {
    var s' := AfterCall(s, i, publishes);
    assert Askers(s', d) == Askers(s, d) - {i};
    if s'.log != s.log {
      assert s'.log[|s.log|..] == [Delivery(s.tasks[i].job.slot, s.tasks[i].phase.article.NewsTimestamp())];
    }
  }

  lemma FewerAskers(s: Sys, s': Sys, d: Delivery)
    requires s'.log == s.log && Askers(s', d) <= Askers(s, d)
    ensures Spends(s, s', d)
  {
    SubsetSize(Askers(s', d), Askers(s, d));
  }

  lemma KeyQuiet(cfg: Config, s: Sys, step: Step, d: Delivery)
    requires Enabled(cfg, s, step) && Version(d.slot, d.version) in s.db.keys && !step.Call?
    ensures Spends(s, Next(cfg, s, step), d)
  {
    if step.Take? {
      TakesOnlyEligible(cfg, step.worker, s.db, s.clock, step.slots);
    }
    FewerAskers(s, Next(cfg, s, step), d);
  }

  /** A marked version gains no askers, and each delivery of it uses one up. */
  lemma KeyStep(cfg: Config, s: Sys, step: Step, d: Delivery)
    requires Enabled(cfg, s, step) && Version(d.slot, d.version) in s.db.keys
    ensures Spends(s, Next(cfg, s, step), d)
  {
    if step.Call? {
      KeyCall(s, step.i, step.publishes, d);
    } else {
      KeyQuiet(cfg, s, step, d);
    }
  }

  lemma SpendsTransitively(s: Sys, mid: Sys, last: Sys, d: Delivery)
    requires Spends(s, mid, d) && Spends(mid, last, d)
    ensures Spends(s, last, d)
  {
    assert last.log[|s.log|..] == mid.log[|s.log|..] + last.log[|mid.log|..];
  }

  /** Once a version key is committed, whatever happens afterwards - crashes, expired leases, new
      enqueues, late workers - a delivery of that version can only come from a worker that looked up
      the keys before, one delivery from each, and nobody joins them. */
  lemma {:induction false} CommittedKeyIsFinal(cfg: Config, s: Sys, steps: seq<Step>, d: Delivery)
    requires Sound(cfg, s) && Run(cfg, s, steps, Anything) && Version(d.slot, d.version) in s.db.keys
    ensures Spends(s, After(cfg, s, steps, Anything), d)
    decreases |steps|
  {
    if steps != [] {
      var mid := Next(cfg, s, steps[0]);
      SoundStep(cfg, s, steps[0]);
      KeyStep(cfg, s, steps[0], d);
      CommittedKeyIsFinal(cfg, mid, steps[1..], d);
      SpendsTransitively(s, mid, After(cfg, s, steps, Anything), d);
    }
  }

  /** With no such worker left, the version is never delivered again. */
  lemma NoAskersNoDelivery(cfg: Config, s: Sys, steps: seq<Step>, d: Delivery)
    requires Sound(cfg, s) && Run(cfg, s, steps, Anything) && Version(d.slot, d.version) in s.db.keys && Askers(s, d) == {}
    ensures var s' := After(cfg, s, steps, Anything); s.log <= s'.log && d !in s'.log[|s.log|..]
  {
    CommittedKeyIsFinal(cfg, s, steps, d);
    var s' := After(cfg, s, steps, Anything);
    assert multiset(s'.log[|s.log|..])[d] == 0;
  }

  // ----- a job that is done -----------------------------------------------------------------

  /** The step takes the status "succeeded" away from job k: it is enqueued anew, or a worker that
      still holds it writes a failure or gives it up for want of its article. */
  predicate Reopens(s: Sys, step: Step, k: Slot) {
    match step
    case Enqueue(job) => job.slot == k
    case Look(i, publishers) => i < |s.tasks| && s.tasks[i].job.slot == k && Lacks(s.db, k, publishers)
    case Write(i) => i < |s.tasks| && s.tasks[i].job.slot == k && Releases(s.tasks[i]) && !s.tasks[i].phase.ok
    case _ => false
  }

  lemma WriteReopens(cfg: Config, s: Sys, i: nat, k: Slot)
    requires Sound(cfg, s) && IsDone(s.db, k) && i < |s.tasks| && s.tasks[i].phase.Acking?
    ensures IsDone(AfterWrite(cfg, s, i).db, k) <==> !Reopens(s, Write(i), k)
  {
    var task := s.tasks[i];
    assert SoundTask(cfg, s, task);
    CommitRows(cfg, task.worker, s.db, task.job, task.phase.article, task.at, task.phase.ok, task.phase.stage);
  }

  lemma LookReopens(cfg: Config, s: Sys, i: nat, publishers: set<string>, k: Slot)
    requires Sound(cfg, s) && IsDone(s.db, k) && i < |s.tasks|
    ensures IsDone(AfterLook(s, i, publishers).db, k) <==> !Reopens(s, Look(i, publishers), k)
  {
    assert SoundTask(cfg, s, s.tasks[i]);
  }

  lemma TakeKeepsDone(cfg: Config, s: Sys, w: Worker, slots: seq<Slot>, k: Slot)
    requires IsDone(s.db, k) && forall j :: j in slots ==> j in s.db.jobs && Eligible(s.db.jobs[j], s.clock)
    ensures IsDone(AfterTake(cfg, s, w, slots).db, k) && k !in slots && AfterTake(cfg, s, w, slots).log == s.log
  {
  }

  lemma QuietKeepsDone(cfg: Config, s: Sys, step: Step, k: Slot)
    requires IsDone(s.db, k) && Enabled(cfg, s, step) && !step.Take? && !step.Look? && !step.Write?
    ensures IsDone(Next(cfg, s, step).db, k) <==> !Reopens(s, step, k)
  {
  }

  /** Exactly which steps reopen a job that is done, in any state and however late they come. */
  lemma DoneExactly(cfg: Config, s: Sys, step: Step, k: Slot)
    requires Sound(cfg, s) && IsDone(s.db, k) && Enabled(cfg, s, step)
    ensures IsDone(Next(cfg, s, step).db, k) <==> !Reopens(s, step, k)
  {
    match step
    case Take(w, slots) =>
      TakesOnlyEligible(cfg, w, s.db, s.clock, slots);
      TakeKeepsDone(cfg, s, w, slots, k);
    case Look(i, publishers) => LookReopens(cfg, s, i, publishers, k);
    case Write(i) => WriteReopens(cfg, s, i, k);
    case _ => QuietKeepsDone(cfg, s, step, k);
  }

  predicate NoneFor(ds: seq<Delivery>, k: Slot) { forall d :: d in ds ==> d.slot != k }

  /** No worker, in time or late, has job k in hand. */
  ghost predicate Unclaimed(s: Sys, k: Slot) {
    forall i :: 0 <= i < |s.tasks| && Holding(s.tasks[i]) ==> s.tasks[i].job.slot != k
  }

  lemma UnclaimedTake(cfg: Config, s: Sys, w: Worker, slots: seq<Slot>, k: Slot)
    requires Unclaimed(s, k) && k !in slots && forall j :: j in slots ==> j in s.db.jobs && s.db.jobs[j].slot == j
    ensures Unclaimed(AfterTake(cfg, s, w, slots), k)
  {
    var s' := AfterTake(cfg, s, w, slots);
    forall i | 0 <= i < |s'.tasks| && Holding(s'.tasks[i]) ensures s'.tasks[i].job.slot != k {
      if i >= |s.tasks| {
        assert slots[i - |s.tasks|] in slots;
      }
    }
  }

  lemma UnclaimedQuiet(cfg: Config, s: Sys, step: Step, k: Slot)
    requires Unclaimed(s, k) && Enabled(cfg, s, step) && !step.Take?
    ensures Unclaimed(Next(cfg, s, step), k) && s.log <= Next(cfg, s, step).log
    ensures NoneFor(Next(cfg, s, step).log[|s.log|..], k)
    ensures !step.Enqueue? ==> !Reopens(s, step, k)
  {
  }

  lemma UnclaimedStep(cfg: Config, s: Sys, step: Step, k: Slot)
    requires Sound(cfg, s) && IsDone(s.db, k) && Unclaimed(s, k) && Enabled(cfg, s, step)
    requires step.Enqueue? ==> step.job.slot != k
    ensures var s' := Next(cfg, s, step);
      IsDone(s'.db, k) && Unclaimed(s', k) && s.log <= s'.log && NoneFor(s'.log[|s.log|..], k)
  {
    DoneExactly(cfg, s, step, k);
    if step.Take? {
      TakesOnlyEligible(cfg, step.worker, s.db, s.clock, step.slots);
      TakeKeepsDone(cfg, s, step.worker, step.slots, k);
      UnclaimedTake(cfg, s, step.worker, step.slots, k);
    } else {
      UnclaimedQuiet(cfg, s, step, k);
    }
  }

  ghost function NoEnqueueOf(k: Slot): Guard { (cfg, s, step: Step) => step.Enqueue? ==> step.job.slot != k }

  /** Once a job is done and no worker has it in hand any more, nothing - crashes, expired leases,
      recoveries, claims, late workers on other jobs - delivers it again until it is enqueued anew. */
  lemma {:induction false} DoneIsFinal(cfg: Config, s: Sys, steps: seq<Step>, k: Slot)
    requires Sound(cfg, s) && IsDone(s.db, k) && Unclaimed(s, k) && Run(cfg, s, steps, NoEnqueueOf(k))
    ensures var s' := After(cfg, s, steps, NoEnqueueOf(k));
      IsDone(s'.db, k) && Unclaimed(s', k) && s.log <= s'.log && NoneFor(s'.log[|s.log|..], k)
    decreases |steps|
  {
    if steps != [] {
      var mid := Next(cfg, s, steps[0]);
      SoundStep(cfg, s, steps[0]);
      UnclaimedStep(cfg, s, steps[0], k);
      DoneIsFinal(cfg, mid, steps[1..], k);
      NoneForAdd(s.log, mid.log, After(cfg, s, steps, NoEnqueueOf(k)).log, k);
    }
  }

  lemma NoneForAdd(a: seq<Delivery>, b: seq<Delivery>, c: seq<Delivery>, k: Slot)
    requires a <= b <= c && NoneFor(b[|a|..], k) && NoneFor(c[|b|..], k)
    ensures NoneFor(c[|a|..], k)
  {
    assert c[|a|..] == b[|a|..] + c[|b|..];
  }

  /** Timely steps other than a new enqueue of job k. */
  ghost function TimelyWithout(k: Slot): Guard {
    (cfg, s, step) => Timely(cfg, s, step) && (step.Enqueue? ==> step.job.slot != k)
  }

  /** Whoever calls a publisher or gives up a job in time has another job in hand. */
  lemma TimelyLeavesDone(cfg: Config, s: Sys, step: Step, k: Slot)
    requires Sound(cfg, s) && Exclusive(cfg, s) && IsDone(s.db, k)
    requires Enabled(cfg, s, step) && Timely(cfg, s, step) && (step.Enqueue? ==> step.job.slot != k)
    ensures !Reopens(s, step, k) && (step.Call? ==> s.tasks[step.i].job.slot != k)
  {
    if step.Look? || step.Call? || step.Write? {
      var i := step.i;
      if Holding(s.tasks[i]) && s.clock < Until(cfg, s.tasks[i]) {
        assert LiveHold(cfg, s, i);
        HolderIsLeased(cfg, s, i);
      }
    }
  }

  lemma LogStepwise(cfg: Config, s: Sys, step: Step, k: Slot)
    requires Enabled(cfg, s, step) && (step.Call? ==> s.tasks[step.i].job.slot != k)
    ensures s.log <= Next(cfg, s, step).log && NoneFor(Next(cfg, s, step).log[|s.log|..], k)
  {
    if step.Take? {
      TakesOnlyEligible(cfg, step.worker, s.db, s.clock, step.slots);
    }
  }

  /** In timely runs the same holds at once, even while late workers still have the job in hand. */
  lemma {:induction false} CommittedSuccessIsFinal(cfg: Config, s: Sys, steps: seq<Step>, k: Slot)
    requires Sound(cfg, s) && Exclusive(cfg, s) && IsDone(s.db, k) && Run(cfg, s, steps, TimelyWithout(k))
    ensures var s' := After(cfg, s, steps, TimelyWithout(k));
      IsDone(s'.db, k) && s.log <= s'.log && NoneFor(s'.log[|s.log|..], k)
    decreases |steps|
  {
    if steps != [] {
      var mid := Next(cfg, s, steps[0]);
      SoundStep(cfg, s, steps[0]);
      ExclusiveStep(cfg, s, steps[0]);
      TimelyLeavesDone(cfg, s, steps[0], k);
      DoneExactly(cfg, s, steps[0], k);
      LogStepwise(cfg, s, steps[0], k);
      CommittedSuccessIsFinal(cfg, mid, steps[1..], k);
      NoneForAdd(s.log, mid.log, After(cfg, s, steps, TimelyWithout(k)).log, k);
    }
  }
}
