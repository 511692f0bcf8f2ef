/** Runs that deliver one version twice: each thing a careful run avoids makes it possible. */
module Repeats {
  import opened Base
  import opened Tables
  import opened Views
  import opened Commits
  import opened Protocol
  import opened Exclusion
  import opened Once
  import opened Rounds
  import opened Scenes

  // ----- what careful runs avoid --------------------------------------------------------------

  /** Everything a careful run heeds but one. */
  ghost predicate Heeds(cfg: Config, s: Sys, step: Step, m: Mishap) {
    && Timely(cfg, s, step)
    && (m == Lapse || !Causes(cfg, s, step, Lapse)) && (m == Death || !Causes(cfg, s, step, Death))
    && (m == Reenqueue || !Causes(cfg, s, step, Reenqueue)) && (m == NewVersion || !Causes(cfg, s, step, NewVersion))
  }

  ghost function But(m: Mishap): Guard { (cfg, s, step) => Heeds(cfg, s, step, m) }

  /** Heeding one more thing is being careful. */
  lemma HeedsAll(cfg: Config, s: Sys, step: Step, m: Mishap)
    ensures Careful(cfg, s, step) <==> Heeds(cfg, s, step, m) && !Causes(cfg, s, step, m)
  {
  }

  lemma ButIsLenient(m: Mishap)
    ensures Lenient(CFG, But(m))
  {
    forall s: Sys, step: Step | Delivering(step) && Timely(CFG, s, step) ensures But(m)(CFG, s, step) {
      assert Heeds(CFG, s, step, m);
    }
  }

  lemma ButOpens(m: Mishap)
    ensures Opens(CFG, 0, But(m))
  {
    ButIsLenient(m);
    assert Heeds(CFG, Nothing(0), Ingest(Doc("a")), m);
    assert Heeds(CFG, Known(0), Enqueue(Waiting(A)), m);
  }

  ghost predicate DeliversTwice(m: Mishap, steps: seq<Step>) {
    Run(CFG, Nothing(0), steps, But(m)) && After(CFG, Nothing(0), steps, But(m)).log == [UNDATED, UNDATED]
  }

  const SENT := Acking(Doc("a"), true, 0)

  /** A second worker repeats the delivery after the first lease has ended. */
  function Again(phase: Phase): Sys { Round(CFG, Worker.Engine, Lapsed(phase, [UNDATED]), A, true) }

  lemma AgainRun(phase: Phase, guard: Guard) returns (steps: seq<Step>)
    requires Lenient(CFG, guard)
    requires guard(CFG, Started(0, phase, [UNDATED]), Tick(60)) && guard(CFG, Started(60, phase, [UNDATED]), Recover)
    ensures Leads(CFG, Started(0, phase, [UNDATED]), steps, Again(phase), guard)
  {
    LapsedIsSole(phase, [UNDATED]);
    steps := RoundRun(CFG, Worker.Engine, Lapsed(phase, [UNDATED]), A, true, [], Again(phase), guard);
    steps := LapseRun(phase, [UNDATED], steps, Again(phase), guard);
  }

  /** The lease ends after the publisher has succeeded and before anything is written. */
  lemma LapseRepeats() returns (steps: seq<Step>)
    ensures Fresh(Nothing(0)) && DeliversTwice(Lapse, steps)
  {
    ButOpens(Lapse);
    assert Heeds(CFG, Started(0, SENT, [UNDATED]), Tick(60), Lapse) && Heeds(CFG, Started(60, SENT, [UNDATED]), Recover, Lapse);
    steps := AgainRun(SENT, But(Lapse));
    steps := CalledRun(true, steps, Again(SENT), But(Lapse));
  }

  lemma DeathStep()
    ensures Linked(CFG, Called(true), Crash(0), Started(0, Crashed, [UNDATED]), But(Death))
  {
    assert Heeds(CFG, Called(true), Crash(0), Death);
  }

  lemma AfterDeath()
    ensures But(Death)(CFG, Started(0, Crashed, [UNDATED]), Tick(60)) && But(Death)(CFG, Started(60, Crashed, [UNDATED]), Recover)
  {
    assert Heeds(CFG, Started(0, Crashed, [UNDATED]), Tick(60), Death);
    assert Heeds(CFG, Started(60, Crashed, [UNDATED]), Recover, Death);
  }

  /** The worker dies there. */
  lemma DeathRepeats() returns (steps: seq<Step>)
    ensures Fresh(Nothing(0)) && DeliversTwice(Death, steps)
  {
    ButOpens(Death);
    DeathStep();
    AfterDeath();
    steps := AgainRun(Crashed, But(Death));
    steps := Prepend(CFG, Called(true), Crash(0), Started(0, Crashed, [UNDATED]), steps, Again(Crashed), But(Death));
    steps := CalledRun(true, steps, Again(Crashed), But(Death));
  }

  // ----- enqueued again too early -------------------------------------------------------------

  /** The engine has saved the row, but none of the keys, when the job is enqueued again. */
  const REQUEUED := At(0, map[A := Waiting(A)], {}, [Claim(A, 0, 1, Acking(Doc("a"), true, 1))], [UNDATED], map[A := UNTRIED])
  const SAVED := At(0, map[A := DONE], {}, [Claim(A, 0, 1, Acking(Doc("a"), true, 1))], [UNDATED], map[A := ONCE])

  lemma SaveStep()
    ensures Linked(CFG, Called(true), Write(0), SAVED, But(Reenqueue))
  {
    assert Heeds(CFG, Called(true), Write(0), Reenqueue);
  }

  lemma RequeueStep()
    ensures Linked(CFG, SAVED, Enqueue(Waiting(A)), REQUEUED, But(Reenqueue))
  {
    assert Heeds(CFG, SAVED, Enqueue(Waiting(A)), Reenqueue);
  }

  lemma RequeuedIsSole()
    ensures Sole(CFG, REQUEUED, A)
  {
    assert Consumed(REQUEUED.db, 0) == {};
  }

  /** The job is enqueued again before its acknowledgement is complete. */
  lemma ReenqueueRepeats() returns (steps: seq<Step>)
    ensures Fresh(Nothing(0)) && DeliversTwice(Reenqueue, steps)
  {
    ButOpens(Reenqueue);
    SaveStep();
    RequeueStep();
    RequeuedIsSole();
    var last := Round(CFG, Worker.Engine, REQUEUED, A, true);
    steps := RoundRun(CFG, Worker.Engine, REQUEUED, A, true, [], last, But(Reenqueue));
    steps := Prepend(CFG, SAVED, Enqueue(Waiting(A)), REQUEUED, steps, last, But(Reenqueue));
    steps := Prepend(CFG, Called(true), Write(0), SAVED, steps, last, But(Reenqueue));
    steps := CalledRun(true, steps, last, But(Reenqueue));
  }

  // ----- a new version under the engine -------------------------------------------------------

  const LATER: int := HOUR + 1

  lemma NewVersionIsLetPass()
    ensures LetsUpdate(But(NewVersion))
  {
    ButOpens(NewVersion);
    assert Heeds(CFG, Called(true), Ingest(NEWER), NewVersion);
    forall s: Sys | |s.tasks| > 0 && s.clock < Until(CFG, s.tasks[0]) ensures But(NewVersion)(CFG, s, Write(0)) {
      assert Heeds(CFG, s, Write(0), NewVersion);
    }
  }

  lemma RenewSteps()
    ensures Linked(CFG, REVERTED, Tick(LATER), Past(LATER, DONE, Doc("a").(channelAt := Some(0)), ONCE), But(NewVersion))
    ensures Linked(CFG, Past(LATER, DONE, Doc("a").(channelAt := Some(0)), ONCE), Ingest(Doc("a")),
                   Past(LATER, DONE, Doc("a"), ONCE), But(NewVersion))
  {
    assert Heeds(CFG, REVERTED, Tick(LATER), NewVersion);
    assert Heeds(CFG, Past(LATER, DONE, Doc("a").(channelAt := Some(0)), ONCE), Ingest(Doc("a")), NewVersion);
  }

  const RENEWED := Past(LATER, Waiting(A), Doc("a"), UNTRIED)

  lemma RenewEnqueue()
    ensures Linked(CFG, Past(LATER, DONE, Doc("a"), ONCE), Enqueue(Waiting(A)), RENEWED, But(NewVersion))
  {
    assert Heeds(CFG, Past(LATER, DONE, Doc("a"), ONCE), Enqueue(Waiting(A)), NewVersion);
  }

  lemma RenewedIsSole()
    ensures Sole(CFG, RENEWED, A) && !EngineSkips(RENEWED.db, A, Doc("a"))
  {
    assert Consumed(RENEWED.db, LATER) == {};
  }

  lemma RenewedRun() returns (steps: seq<Step>)
    ensures Leads(CFG, REVERTED, steps, Round(CFG, Worker.Engine, RENEWED, A, true), But(NewVersion))
  {
    var last := Round(CFG, Worker.Engine, RENEWED, A, true);
    ButOpens(NewVersion);
    RenewSteps();
    RenewEnqueue();
    RenewedIsSole();
    steps := RoundRun(CFG, Worker.Engine, RENEWED, A, true, [], last, But(NewVersion));
    steps := Prepend(CFG, Past(LATER, DONE, Doc("a"), ONCE), Enqueue(Waiting(A)), RENEWED, steps, last, But(NewVersion));
    steps := Prepend(CFG, Past(LATER, DONE, Doc("a").(channelAt := Some(0)), ONCE), Ingest(Doc("a")),
                     Past(LATER, DONE, Doc("a"), ONCE), steps, last, But(NewVersion));
    steps := Prepend(CFG, REVERTED, Tick(LATER), Past(LATER, DONE, Doc("a").(channelAt := Some(0)), ONCE), steps, last, But(NewVersion));
  }

  /** A new version arrives while the engine acknowledges the old one: the new one is marked, the old
      one is not, and when it comes back it is sent again. */
  lemma NewVersionRepeats() returns (steps: seq<Step>)
    ensures Fresh(Nothing(0)) && DeliversTwice(NewVersion, steps)
  {
    var last := Round(CFG, Worker.Engine, RENEWED, A, true);
    NewVersionIsLetPass();
    steps := RenewedRun();
    steps := RevertedRun(steps, last, But(NewVersion));
    steps := MarkedRun(steps, last, But(NewVersion));
  }

  // ----- a late call of the publisher ---------------------------------------------------------

  /** The first worker is late; the second has taken over, delivered and made n writes. */
  function Overtaken(first: Phase, n: nat): Sys {
    At(60, map[A := if n == 0 then Held(A, 60, 2) else Held(A, 60, 2).(status := Succeeded, lease := None)],
       if n <= 1 then {} else if n == 2 then {Legacy(A)} else {Legacy(A), Version(A, None)},
       [Claim(A, 0, 1, first), Claim(A, 60, 2, Acking(Doc("a"), true, n))], [UNDATED],
       map[A := Stats(2, 0, 1, 0, 60)])
  }

  const WAITING_CALL := Tested(Doc("a"), false)

  lemma OvertakingRound(first: Phase)
    ensures Round(CFG, Worker.Engine, Lapsed(first, []), A, true) == Overtaken(first, 0)
  {
    assert OneClaim(CFG, Worker.Engine, Lapsed(first, []), A).db.jobs == Overtaken(first, 0).db.jobs;
    assert OneClaim(CFG, Worker.Engine, Lapsed(first, []), A).stats == Overtaken(first, 0).stats;
  }

  lemma OvertakingWrite(first: Phase)
    ensures Linked(CFG, Overtaken(first, 0), Write(1), Overtaken(first, 1), Careful)
  {
    assert AfterWrite(CFG, Overtaken(first, 0), 1).db.jobs == Overtaken(first, 1).db.jobs;
  }

  lemma OvertakingKeys()
    ensures Linked(CFG, Overtaken(WAITING_CALL, 1), Write(1), Overtaken(WAITING_CALL, 2), Careful)
    ensures Linked(CFG, Overtaken(WAITING_CALL, 2), Write(1), Overtaken(WAITING_CALL, 3), Careful)
  {
    assert Overtaken(WAITING_CALL, 2).db.articles["a"].NewsTimestamp() == None;
    assert {Legacy(A)} + {Version(A, None)} == {Legacy(A), Version(A, None)};
  }

  lemma NobodyIsOpen(first: Phase)
    requires first == WAITING_CALL || first == FAILING
    ensures Careful(CFG, Started(0, first, []), Tick(60)) && Careful(CFG, Started(60, first, []), Recover)
  {
  }

  lemma CarefulOpens()
    ensures Opens(CFG, 0, Careful)
  {
    forall s: Sys, step: Step | Delivering(step) && Timely(CFG, s, step) ensures Careful(CFG, s, step) {
      HeedsAll(CFG, s, step, Lapse);
    }
    HeedsAll(CFG, Nothing(0), Ingest(Doc("a")), Lapse);
    HeedsAll(CFG, Known(0), Enqueue(Waiting(A)), Lapse);
  }

  /** The second worker delivers and saves the row. */
  lemma OvertakenRun(first: Phase, rest: seq<Step>, last: Sys) returns (steps: seq<Step>)
    requires first == WAITING_CALL || first == FAILING
    requires Leads(CFG, Overtaken(first, 1), rest, last, Careful)
    ensures Leads(CFG, Started(0, first, []), steps, last, Careful)
  {
    CarefulOpens();
    OvertakingWrite(first);
    OvertakingRound(first);
    LapsedIsSole(first, []);
    NobodyIsOpen(first);
    steps := Prepend(CFG, Overtaken(first, 0), Write(1), Overtaken(first, 1), rest, last, Careful);
    steps := RoundRun(CFG, Worker.Engine, Lapsed(first, []), A, true, steps, last, Careful);
    steps := LapseRun(first, [], steps, last, Careful);
  }

  lemma CallAfterMark()
    ensures Enabled(CFG, Overtaken(WAITING_CALL, 3), Call(0, true)) && Next(CFG, Overtaken(WAITING_CALL, 3), Call(0, true)).log == [UNDATED, UNDATED]
    ensures Version(A, None) in Overtaken(WAITING_CALL, 3).db.keys && Askers(Overtaken(WAITING_CALL, 3), UNDATED) == {0}
  {
  }

  /** A worker looks up the keys, its lease ends, and the next one delivers and marks the version, all
      in a careful run. A single late call by the first worker then sends the marked version again:
      the one kind of delivery that a committed key does not exclude. */
  lemma LateCallRepeats() returns (steps: seq<Step>, marked: Sys)
    ensures Fresh(Nothing(0)) && Leads(CFG, Nothing(0), steps, marked, Careful)
    ensures Version(A, None) in marked.db.keys && marked.log == [UNDATED] && Askers(marked, UNDATED) == {0}
    ensures Enabled(CFG, marked, Call(0, true)) && Next(CFG, marked, Call(0, true)).log == [UNDATED, UNDATED]
  {
    marked := Overtaken(WAITING_CALL, 3);
    OvertakingKeys();
    steps := Prepend(CFG, Overtaken(WAITING_CALL, 2), Write(1), marked, [], marked, Careful);
    steps := Prepend(CFG, Overtaken(WAITING_CALL, 1), Write(1), Overtaken(WAITING_CALL, 2), steps, marked, Careful);
    steps := OvertakenRun(WAITING_CALL, steps, marked);
    CarefulOpens();
    FirstRound(true);
    QueuedIsSole(CFG, 0);
    steps := AskedRun(CFG, Worker.Engine, Queued(0), A, steps, marked, Careful);
    steps := OpeningRun(CFG, 0, steps, marked, Careful);
    CallAfterMark();
  }

  // ----- a late failure -----------------------------------------------------------------------

  /** The late failure has put the job of the second worker back among the waiting ones. */
  const REOPENED := Overtaken(Acking(Doc("a"), false, 1), 1).(
    db := Overtaken(FAILING, 1).db.(jobs := map[A := FREED.(attempts := 2, nextAttempt := Some(0))]),
    stats := map[A := Stats(2, 1, 1, 0, 60)])

  lemma FailureReopens()
    ensures Linked(CFG, Overtaken(FAILING, 1), Write(0), REOPENED, Anything)
    ensures IsDone(Overtaken(FAILING, 1).db, A) && Reopens(Overtaken(FAILING, 1), Write(0), A)
  {
    assert AfterWrite(CFG, Overtaken(FAILING, 1), 0).db.jobs == REOPENED.db.jobs;
  }

  lemma ReopenedIsSole()
    ensures Sole(CFG, REOPENED, A)
  {
    assert Consumed(REOPENED.db, 60) == {};
  }

  /** The first worker's publisher fails and its lease ends; the next one delivers and commits
      "succeeded", all in a careful run. The first worker's late failure then rewrites the row it reads
      anew, and a third worker, careful again, sends the version a second time. Nothing was enqueued
      twice: a committed success is final only when no worker has the job in hand any more. */
  lemma LateFailureRepeats() returns (steps: seq<Step>, done: Sys, more: seq<Step>, last: Sys)
    ensures Fresh(Nothing(0)) && Leads(CFG, Nothing(0), steps, done, Careful) && IsDone(done.db, A) && done.log == [UNDATED]
    ensures Linked(CFG, done, Write(0), REOPENED, Anything) && Leads(CFG, REOPENED, more, last, Careful)
    ensures last.log == [UNDATED, UNDATED]
  {
    done, last := Overtaken(FAILING, 1), Round(CFG, Worker.Engine, REOPENED, A, true);
    CarefulOpens();
    steps := OvertakenRun(FAILING, [], done);
    steps := CalledRun(false, steps, done, Careful);
    FailureReopens();
    ReopenedIsSole();
    more := RoundRun(CFG, Worker.Engine, REOPENED, A, true, [], last, Careful);
  }
}
