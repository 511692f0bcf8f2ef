/** Runs of the protocol in which the unconditional form of a claim fails: concrete inputs for the
    conditions that Limits, Exclusion, Claiming, Marking and Catalog name. */
module Findings {
  import opened Base
  import opened Tables
  import opened Greedy
  import opened Views
  import opened Claiming
  import opened Commits
  import opened Engine
  import opened Protocol
  import opened Exclusion
  import opened Limits
  import opened Once
  import opened Marking
  import opened Rounds
  import opened Scenes
  import opened Draining
  import Catalog
  import Ingest

  // ----- the engine's two commits and the global limit --------------------------------------

  /** The engine has saved the row and n of the two keys. */
  function Between(n: nat): Sys {
    At(0, map[A := DONE], if n == 0 then {} else if n == 1 then {Legacy(A)} else {Legacy(A), Version(A, None)},
       [Claim(A, 0, 1, Acking(Doc("a"), true, n + 1))], [UNDATED], map[A := ONCE])
  }

  const JOINED := Between(2).(db := Between(2).db.(jobs := map[A := DONE, B := Waiting(B)]),
                              stats := map[A := ONCE, B := UNTRIED])

  lemma WindowOpens()
    ensures Linked(CFG, Called(true), Write(0), Between(0), Timely)
    ensures Linked(CFG, Between(0), Write(0), Between(1), Timely)
  {
  }

  lemma WindowStays()
    ensures Linked(CFG, Between(1), Write(0), Between(2), Timely)
    ensures Linked(CFG, Between(2), Enqueue(Waiting(B)), JOINED, Timely)
  {
    assert Between(1).db.articles["a"].NewsTimestamp() == None;
    assert {Legacy(A)} + {Version(A, None)} == {Legacy(A), Version(A, None)};
  }

  const TWO := OneClaim(CFG, Worker.Engine, JOINED, B)
  const OVER := AfterWrite(CFG, TWO, 0)

  lemma WindowTake()
    ensures Linked(CFG, JOINED, Take(Worker.Engine, [B]), TWO, Timely)
  {
    assert Consumed(JOINED.db, 0) == {};
    TakesOnlyJob(CFG, Worker.Engine, JOINED, B);
  }

  lemma WindowCloses()
    ensures Linked(CFG, TWO, Write(0), OVER, Timely)
  {
  }

  lemma OverTables()
    ensures OVER.db.jobs == map[A := DONE, B := Held(B, 0, 1)]
    ensures OVER.db.history == map[A := Record(A, true, 1, 0)] && OVER.clock == 0
    ensures Consistent(OVER.db, OneSource())
  {
    assert TWO.db.jobs == map[A := DONE, B := Held(B, 0, 1)];
  }

  function OneSource(): string -> string { _ => "s" }

  lemma BothConsumed(t: Tables)
    requires t.jobs == map[A := DONE, B := Held(B, 0, 1)] && t.history == map[A := Record(A, true, 1, 0)]
    ensures |Consumed(t, 0)| == 2 && SourceLoad(t, 0, OneSource(), "s") == Consumed(t, 0)
  {
    assert RecentSuccess(t.history[A], 0) && Live(t.jobs[B], 0);
    assert Consumed(t, 0) == {"a", "b"};
  }

  lemma WindowEnds() returns (steps: seq<Step>)
    ensures Leads(CFG, JOINED, steps, OVER, Timely)
  {
    WindowTake();
    WindowCloses();
    steps := Prepend(CFG, TWO, Write(0), OVER, [], OVER, Timely);
    steps := Prepend(CFG, JOINED, Take(Worker.Engine, [B]), TWO, steps, OVER, Timely);
  }

  lemma WindowRun() returns (steps: seq<Step>)
    ensures Leads(CFG, Between(1), steps, OVER, Timely)
  {
    WindowStays();
    steps := WindowEnds();
    steps := Prepend(CFG, Between(2), Enqueue(Waiting(B)), JOINED, steps, OVER, Timely);
    steps := Prepend(CFG, Between(1), Write(0), Between(2), steps, OVER, Timely);
  }

  /** The engine saves the row before it records the delivery. In between, the article counts
      nowhere and a claim may use its slot: from an empty store, in time and with nothing enqueued
      twice, two articles of one source come to occupy limits of one. */
  lemma CapFails() returns (steps: seq<Step>)
    ensures Fresh(Nothing(0)) && Run(CFG, Nothing(0), steps, Timely)
    ensures var s := After(CFG, Nothing(0), steps, Timely);
      && |Consumed(s.db, s.clock)| > CFG.globalLimit && Consistent(s.db, OneSource())
      && |SourceLoad(s.db, s.clock, OneSource(), "s")| > CFG.sourceLimit
  {
    WindowOpens();
    steps := WindowRun();
    steps := Prepend(CFG, Between(0), Write(0), Between(1), steps, OVER, Timely);
    steps := Prepend(CFG, Called(true), Write(0), Between(0), steps, OVER, Timely);
    steps := CalledRun(true, steps, OVER, Timely);
    OverTables();
    BothConsumed(OVER.db);
  }

  // ----- late acknowledgements and exclusion ------------------------------------------------

  /** Only the enqueueing part of Timely. */
  predicate NoReenqueue(cfg: Config, s: Sys, step: Step) {
    step.Enqueue? && step.job.slot in s.db.jobs ==> !Leased(s.db.jobs[step.job.slot], s.clock)
  }

  /** The first worker has yet to acknowledge its failure, or has just done so. */
  function Late(row: Job, stage: nat, st: Stats): Sys {
    At(60, map[A := row], {}, [Claim(A, 0, 1, Acking(Doc("a"), false, stage)), Claim(A, 60, 2, Ready)], [], map[A := st])
  }

  const SECOND := Late(Held(A, 60, 2), 0, Stats(2, 0, 1, 0, 60))
  const DROPPED := Late(FREED.(attempts := 2, nextAttempt := Some(0)), 1, Stats(2, 1, 1, 0, 60))
  const THIRD := OneClaim(CFG, Worker.Engine, DROPPED, A)

  lemma SecondClaim()
    ensures OneClaim(CFG, Worker.Engine, Lapsed(FAILING, []), A) == SECOND
  {
    assert OneClaim(CFG, Worker.Engine, Lapsed(FAILING, []), A).db.jobs == SECOND.db.jobs;
    assert OneClaim(CFG, Worker.Engine, Lapsed(FAILING, []), A).stats == SECOND.stats;
  }

  lemma LateTake()
    ensures Linked(CFG, Lapsed(FAILING, []), Take(Worker.Engine, [A]), SECOND, NoReenqueue)
  {
    LapsedIsSole(FAILING, []);
    TakesOnlyJob(CFG, Worker.Engine, Lapsed(FAILING, []), A);
    SecondClaim();
  }

  lemma LateWrite()
    ensures Linked(CFG, SECOND, Write(0), DROPPED, NoReenqueue)
  {
    assert AfterWrite(CFG, SECOND, 0).db.jobs == DROPPED.db.jobs;
  }

  lemma LateTakeAgain()
    ensures Linked(CFG, DROPPED, Take(Worker.Engine, [A]), THIRD, NoReenqueue)
  {
    assert Consumed(DROPPED.db, 60) == {};
    TakesOnlyJob(CFG, Worker.Engine, DROPPED, A);
  }

  lemma LateEnds() returns (steps: seq<Step>)
    ensures Leads(CFG, SECOND, steps, THIRD, NoReenqueue)
  {
    LateWrite();
    LateTakeAgain();
    steps := Prepend(CFG, DROPPED, Take(Worker.Engine, [A]), THIRD, [], THIRD, NoReenqueue);
    steps := Prepend(CFG, SECOND, Write(0), DROPPED, steps, THIRD, NoReenqueue);
  }

  lemma LateHolders()
    ensures |THIRD.tasks| == 3 && THIRD.tasks[1].job.slot == THIRD.tasks[2].job.slot
    ensures LiveHold(CFG, THIRD, 1) && LiveHold(CFG, THIRD, 2)
  {
  }

  /** A worker whose lease has ended still writes the row it read: its late failure frees the job
      while the next worker holds it, and a third one claims it. Nothing was enqueued twice. */
  lemma ExclusionFails() returns (steps: seq<Step>)
    ensures Fresh(Nothing(0)) && Run(CFG, Nothing(0), steps, NoReenqueue)
    ensures var s := After(CFG, Nothing(0), steps, NoReenqueue);
      |s.tasks| == 3 && s.tasks[1].job.slot == s.tasks[2].job.slot && LiveHold(CFG, s, 1) && LiveHold(CFG, s, 2)
  {
    LateTake();
    steps := LateEnds();
    steps := Prepend(CFG, Lapsed(FAILING, []), Take(Worker.Engine, [A]), SECOND, steps, THIRD, NoReenqueue);
    steps := LapseRun(FAILING, [], steps, THIRD, NoReenqueue);
    steps := CalledRun(false, steps, THIRD, NoReenqueue);
    LateHolders();
  }

  // ----- a job whose attempts are used up ---------------------------------------------------

  const STRICT := CFG.(engineMaxAttempts := 1)

  function OneTry(job: Job): Job { job.(maxAttempts := 1) }

  /** One attempt is allowed; it was claimed at time zero by a worker now in the given phase. */
  function Trying(now: int, row: Job, phase: Phase, st: Stats): Sys {
    At(now, map[A := OneTry(row)], {}, [Task(Worker.Engine, OneTry(Held(A, 0, 1)), 0, phase)], [], map[A := st])
  }

  const ALLOWED := At(0, map[A := OneTry(Waiting(A))], {}, [], [], map[A := UNTRIED])
  const FREED_AGAIN := Trying(60, FREED, Crashed, Stats(1, 0, 1, 0, 0))
  const RETRIED := OneClaim(STRICT, Worker.Engine, FREED_AGAIN, A)

  lemma AllowedIsSole()
    ensures Sole(STRICT, ALLOWED, A)
  {
    assert Consumed(ALLOWED.db, 0) == {};
  }

  lemma AllowedClaim()
    ensures OneClaim(STRICT, Worker.Engine, ALLOWED, A) == Trying(0, Held(A, 0, 1), Ready, ONCE)
  {
    assert OneClaim(STRICT, Worker.Engine, ALLOWED, A).db.jobs == map[A := OneTry(Held(A, 0, 1))];
    assert OneClaim(STRICT, Worker.Engine, ALLOWED, A).stats == map[A := ONCE];
  }

  lemma TryingTake()
    ensures Linked(STRICT, ALLOWED, Take(Worker.Engine, [A]), Trying(0, Held(A, 0, 1), Ready, ONCE), Timely)
  {
    AllowedIsSole();
    TakesOnlyJob(STRICT, Worker.Engine, ALLOWED, A);
    AllowedClaim();
  }

  lemma TryingDies()
    ensures Linked(STRICT, Trying(0, Held(A, 0, 1), Ready, ONCE), Crash(0), Trying(0, Held(A, 0, 1), Crashed, ONCE), Timely)
    ensures Linked(STRICT, Trying(0, Held(A, 0, 1), Crashed, ONCE), Tick(60), Trying(60, Held(A, 0, 1), Crashed, ONCE), Timely)
  {
  }

  lemma TryingRecovers()
    ensures Linked(STRICT, Trying(60, Held(A, 0, 1), Crashed, ONCE), Recover, FREED_AGAIN, Timely)
  {
    assert AfterRecover(Trying(60, Held(A, 0, 1), Crashed, ONCE)).db.jobs == FREED_AGAIN.db.jobs;
    assert AfterRecover(Trying(60, Held(A, 0, 1), Crashed, ONCE)).stats == FREED_AGAIN.stats;
  }

  lemma TryingAgain()
    ensures Linked(STRICT, FREED_AGAIN, Take(Worker.Engine, [A]), RETRIED, Timely)
  {
    FreedIsSole();
    TakesOnlyJob(STRICT, Worker.Engine, FREED_AGAIN, A);
  }

  lemma FreedIsSole()
    ensures Sole(STRICT, FREED_AGAIN, A)
  {
    assert Consumed(FREED_AGAIN.db, 60) == {};
  }

  lemma TryingOpens()
    ensures Linked(STRICT, Nothing(0), Step.Ingest(Doc("a")), Known(0), Timely)
    ensures Linked(STRICT, Known(0), Enqueue(OneTry(Waiting(A))), ALLOWED, Timely)
  {
  }

  lemma TryingLast() returns (steps: seq<Step>)
    ensures Leads(STRICT, FREED_AGAIN, steps, RETRIED, Timely)
  {
    TryingAgain();
    steps := Prepend(STRICT, FREED_AGAIN, Take(Worker.Engine, [A]), RETRIED, [], RETRIED, Timely);
  }

  lemma TryingEnds() returns (steps: seq<Step>)
    ensures Leads(STRICT, Trying(60, Held(A, 0, 1), Crashed, ONCE), steps, RETRIED, Timely)
  {
    TryingRecovers();
    steps := TryingLast();
    steps := Prepend(STRICT, Trying(60, Held(A, 0, 1), Crashed, ONCE), Recover, FREED_AGAIN, steps, RETRIED, Timely);
  }

  lemma TryingMiddle() returns (steps: seq<Step>)
    ensures Leads(STRICT, Trying(0, Held(A, 0, 1), Ready, ONCE), steps, RETRIED, Timely)
  {
    TryingDies();
    steps := TryingEnds();
    steps := Prepend(STRICT, Trying(0, Held(A, 0, 1), Crashed, ONCE), Tick(60), Trying(60, Held(A, 0, 1), Crashed, ONCE), steps, RETRIED, Timely);
    steps := Prepend(STRICT, Trying(0, Held(A, 0, 1), Ready, ONCE), Crash(0), Trying(0, Held(A, 0, 1), Crashed, ONCE), steps, RETRIED, Timely);
  }

  lemma TryingRun() returns (steps: seq<Step>)
    ensures Leads(STRICT, Nothing(0), steps, RETRIED, Timely)
  {
    TryingOpens();
    TryingTake();
    steps := TryingMiddle();
    steps := Prepend(STRICT, ALLOWED, Take(Worker.Engine, [A]), Trying(0, Held(A, 0, 1), Ready, ONCE), steps, RETRIED, Timely);
    steps := Prepend(STRICT, Known(0), Enqueue(OneTry(Waiting(A))), ALLOWED, steps, RETRIED, Timely);
    steps := Prepend(STRICT, Nothing(0), Step.Ingest(Doc("a")), Known(0), steps, RETRIED, Timely);
  }

  /** Recovery never compares attempts with a limit: a job that may be tried once only, under both limits,
      is claimed a second time after the worker that held it died, without any failed delivery. */
  lemma SpentIsRetried() returns (steps: seq<Step>)
    ensures Fresh(Nothing(0)) && Leads(STRICT, Nothing(0), steps, RETRIED, Timely)
    ensures var s := RETRIED;
      && A in s.db.jobs && s.db.jobs[A].status == Processing && A in s.stats
      && s.db.jobs[A].attempts == s.stats[A].claims == 2 && s.stats[A].failures == 0
      && s.db.jobs[A].maxAttempts == STRICT.engineMaxAttempts == 1
  {
    steps := TryingRun();
  }

  // ----- a redundant head -------------------------------------------------------------------

  const BEHIND := Waiting(B).(createdAt := 1)

  /** The processor has delivered job A and recorded that. */
  function Noted(now: int, row: Job, phase: Phase, st: Stats): Sys {
    Sys(Tables(map[A := row], map[A := Record(A, true, 1, 0)], {}, map["a" := Doc("a")]),
        now, [Task(Worker.Processor, Held(A, 0, 1), 0, phase)], [UNDATED], map[A := st])
  }

  /** Job B is waiting as well. */
  function Joined(s: Sys): Sys {
    s.(db := s.db.(jobs := s.db.jobs[B := BEHIND]), stats := s.stats[B := UNTRIED])
  }

  const ACKING := Acking(Doc("a"), true, 1)
  const HIDING := Joined(Noted(60, FREED, Crashed, Stats(1, 0, 1, 0, 0)))

  lemma NotedSteps()
    ensures Linked(WIDE, Round(WIDE, Worker.Processor, Queued(0), A, true), Write(0), Noted(0, Held(A, 0, 1), ACKING, ONCE), Timely)
    ensures Linked(WIDE, Noted(0, Held(A, 0, 1), ACKING, ONCE), Crash(0), Noted(0, Held(A, 0, 1), Crashed, ONCE), Timely)
  {
    var s := Round(WIDE, Worker.Processor, Queued(0), A, true);
    assert s.db.jobs == map[A := Held(A, 0, 1)] && s.stats == map[A := ONCE];
  }

  lemma HidingSteps()
    ensures var s, joined := Noted(0, Held(A, 0, 1), Crashed, ONCE), Joined(Noted(0, Held(A, 0, 1), Crashed, ONCE));
      Linked(WIDE, s, Enqueue(BEHIND), joined, Timely) && Linked(WIDE, joined, Tick(60), joined.(clock := 60), Timely)
  {
  }

  lemma HidingRows(t: Tables)
    requires t.jobs == map[A := Held(A, 0, 1), B := BEHIND]
    ensures RecoverRows(t, 60).jobs == map[A := FREED, B := BEHIND]
  {
  }

  lemma HidingRecovered()
    ensures AfterRecover(Joined(Noted(0, Held(A, 0, 1), Crashed, ONCE)).(clock := 60)) == HIDING
  {
    var s := Joined(Noted(0, Held(A, 0, 1), Crashed, ONCE)).(clock := 60);
    assert s.db.jobs == map[A := Held(A, 0, 1), B := BEHIND] && HIDING.db.jobs == map[A := FREED, B := BEHIND];
    HidingRows(s.db);
    assert AfterRecover(s).stats == HIDING.stats;
  }

  lemma HidingRecovery()
    ensures Linked(WIDE, Joined(Noted(0, Held(A, 0, 1), Crashed, ONCE)).(clock := 60), Recover, HIDING, Timely)
  {
    HidingRecovered();
  }

  lemma HidingEnds() returns (steps: seq<Step>)
    ensures Leads(WIDE, Noted(0, Held(A, 0, 1), Crashed, ONCE), steps, HIDING, Timely)
  {
    var s, joined := Noted(0, Held(A, 0, 1), Crashed, ONCE), Joined(Noted(0, Held(A, 0, 1), Crashed, ONCE));
    HidingSteps();
    HidingRecovery();
    steps := Prepend(WIDE, joined.(clock := 60), Recover, HIDING, [], HIDING, Timely);
    steps := Prepend(WIDE, joined, Tick(60), joined.(clock := 60), steps, HIDING, Timely);
    steps := Prepend(WIDE, s, Enqueue(BEHIND), joined, steps, HIDING, Timely);
  }

  lemma HidingMiddle() returns (steps: seq<Step>)
    ensures Leads(WIDE, Round(WIDE, Worker.Processor, Queued(0), A, true), steps, HIDING, Timely)
  {
    NotedSteps();
    steps := HidingEnds();
    var recorded, died := Noted(0, Held(A, 0, 1), ACKING, ONCE), Noted(0, Held(A, 0, 1), Crashed, ONCE);
    steps := Prepend(WIDE, recorded, Crash(0), died, steps, HIDING, Timely);
    steps := Prepend(WIDE, Round(WIDE, Worker.Processor, Queued(0), A, true), Write(0), recorded, steps, HIDING, Timely);
  }

  lemma HidingRun() returns (steps: seq<Step>)
    ensures Leads(WIDE, Nothing(0), steps, HIDING, Timely)
  {
    QueuedIsSole(WIDE, 0);
    steps := HidingMiddle();
    steps := RoundRun(WIDE, Worker.Processor, Queued(0), A, true, steps, HIDING, Timely);
    steps := OpeningRun(WIDE, 0, steps, HIDING, Timely);
  }

  lemma TwoListed(t: Tables, now: int, x: Job, y: Job, e: seq<Job>)
    requires t.jobs == map[x.slot := x, y.slot := y] && x.slot != y.slot && Eligible(x, now) && Eligible(y, now)
    requires Before(QueueOrder()(x), QueueOrder()(y)) && EligibleListing(t, now, e)
    ensures e == [x, y]
  {
    assert EligibleAt(now)(t.jobs[x.slot]) && EligibleAt(now)(t.jobs[y.slot]);
    assert x in e && y in e;
    var i :| 0 <= i < |e| && e[i] == x;
    var j :| 0 <= j < |e| && e[j] == y;
    assert i < j;
    SlotsSize(e);
    SubsetSize(Slots(e), {x.slot, y.slot});
    assert |{x.slot, y.slot}| == 2;
  }

  lemma HidingListing(e: seq<Job>)
    requires EligibleListing(HIDING.db, 60, e)
    ensures e == [FREED, BEHIND]
  {
    assert HIDING.db.jobs == map[A := FREED, B := BEHIND];
    TwoListed(HIDING.db, 60, FREED, BEHIND, e);
  }

  lemma HidingView()
    ensures Consumed(HIDING.db, 60) == {"a"} && RecentRecords(HIDING.db, 60) == map[A := Record(A, true, 1, 0)]
  {
    assert HIDING.db.jobs == map[A := FREED, B := BEHIND];
    assert RecentSuccess(HIDING.db.history[A], 60);
  }

  lemma HidingCounts(counts: map<string, int>, tags: map<string, string>)
    requires Attributed(HIDING.db, 60, true, counts, tags)
    ensures Count(counts, "s") == 1
  {
    HidingView();
    assert "a" in Recent(HIDING.db, 60) by {
      assert A in HIDING.db.history && RecentSuccess(HIDING.db.history[A], 60);
    }
    assert Share(tags, "s") == {"a"};
  }

  /** The first of the two jobs is delivered already, the second could be opened. */
  lemma HidingChoice(counts: map<string, int>, r: Option<nat>)
    requires Count(counts, "s") == 1
    ensures var recent, caps := map[A := Record(A, true, 1, 0)], Caps(2, counts);
      && Openable({"a"}, recent, caps, BEHIND)
      && (EngineChoice([FREED, BEHIND], {"a"}, recent, caps, 1, r) <==> r == None)
  {
    var e := [FREED, BEHIND];
    assert e[0] == FREED && e[1] == BEHIND;
    assert HeadOf(e, 1) == 0;
  }

  lemma HidingStops()
    ensures EngineStops(WIDE, HIDING.db, 60)
  {
    var e, counts, tags := [FREED, BEHIND], map["s" := 1], map["a" := "s"];
    HidingView();
    HidingChoice(counts, None);
    HidingRowsListed();
    HidingAttributed();
    assert EngineClaims(WIDE, HIDING.db, 60, e, counts, tags, None);
  }

  lemma HidingRowsListed()
    ensures EligibleListing(HIDING.db, 60, [FREED, BEHIND])
  {
    var e := [FREED, BEHIND];
    assert HIDING.db.jobs == map[A := FREED, B := BEHIND];
    assert e[0] == FREED && e[1] == BEHIND;
  }

  lemma HidingAttributed()
    ensures Attributed(HIDING.db, 60, true, map["s" := 1], map["a" := "s"])
  {
    var counts, tags := map["s" := 1], map["a" := "s"];
    HidingView();
    forall s ensures Count(counts, s) == |Share(tags, s)| {
      assert Share(tags, s) == if s == "s" then {"a"} else {};
    }
  }

  /** A head job that was already delivered hides the job behind it. The processor records a success
      and dies before it saves the row; the lease ends and the row waits again. From then on every
      claim of the engine comes back empty, although a slot is free and a second job could be opened,
      as long as the delivery counts as recent. */
  lemma WorkHidden(e: seq<Job>, counts: map<string, int>, tags: map<string, string>, r: Option<nat>)
    returns (steps: seq<Step>)
    ensures Fresh(Nothing(0)) && Leads(WIDE, Nothing(0), steps, HIDING, Timely) && EngineStops(WIDE, HIDING.db, HIDING.clock)
    ensures EngineClaims(WIDE, HIDING.db, HIDING.clock, e, counts, tags, r) ==>
      && r == None && BEHIND in e && |Consumed(HIDING.db, HIDING.clock)| < WIDE.globalLimit
      && Openable(Consumed(HIDING.db, HIDING.clock), RecentRecords(HIDING.db, HIDING.clock), Caps(WIDE.sourceLimit, counts), BEHIND)
  {
    steps := HidingRun();
    HidingStops();
    HidingView();
    if EngineClaims(WIDE, HIDING.db, 60, e, counts, tags, r) {
      HidingListing(e);
      HidingCounts(counts, tags);
      HidingChoice(counts, r);
    }
  }

  // ----- a version lost under the engine ------------------------------------------------------

  lemma TimelyOpens(cfg: Config, now: int)
    ensures Opens(cfg, now, Timely)
  {
  }

  lemma RunSound(cfg: Config, s: Sys, steps: seq<Step>, last: Sys)
    requires Fresh(s) && Leads(cfg, s, steps, last, Timely)
    ensures Sound(cfg, last)
  {
    RunExclusive(cfg, s, steps);
  }

  lemma NeverSentAfter(cfg: Config, s: Sys, more: seq<Step>, d: Delivery)
    requires Sound(cfg, s) && Run(cfg, s, more, Anything) && Version(d.slot, d.version) in s.db.keys
    requires Askers(s, d) == {} && d !in s.log
    ensures d !in After(cfg, s, more, Anything).log
  {
    NoAskersNoDelivery(cfg, s, more, d);
    var log := After(cfg, s, more, Anything).log;
    assert log == s.log + log[|s.log|..];
  }

  /** The engine marks whatever version the article has when it acknowledges. A version that a fetch
      brings between the call of the publisher and that write is marked without having been sent,
      and nothing that happens afterwards ever sends it. */
  lemma VersionLost(more: seq<Step>, fetchedAt: int, names: Ingest.Naming) returns (steps: seq<Step>)
    ensures NEWER == Ingest.Merged(Some(Doc("a")), ITEM, fetchedAt, names)
    ensures Fresh(Nothing(0)) && Leads(CFG, Nothing(0), steps, Updated(3), Timely)
    ensures Version(A, Some(2)) in Updated(3).db.keys && Updated(3).db.articles["a"] == NEWER
    ensures Run(CFG, Updated(3), more, Anything) ==> Delivery(A, Some(2)) !in After(CFG, Updated(3), more, Anything).log
  {
    UpdateIsFetched(fetchedAt, names);
    TimelyOpens(CFG, 0);
    steps := MarkedRun([], Updated(3), Timely);
    RunSound(CFG, Nothing(0), steps, Updated(3));
    if Run(CFG, Updated(3), more, Anything) {
      assert Askers(Updated(3), Delivery(A, Some(2))) == {};
      NeverSentAfter(CFG, Updated(3), more, Delivery(A, Some(2)));
    }
  }

  /** And the last write of the same acknowledgement takes it out of the article row as well: the
      worker saves the row as it read it before, and the stored update time goes back. */
  lemma UpdateLost() returns (steps: seq<Step>, more: seq<Step>)
    ensures Fresh(Nothing(0)) && Leads(CFG, Nothing(0), steps, Updated(3), Timely) && Leads(CFG, Updated(3), more, REVERTED, Timely)
    ensures Updated(3).db.articles["a"].updatedAt == Some(2) && REVERTED.db.articles["a"].updatedAt == None
    ensures !Catalog.Continues(Updated(3).db.articles, REVERTED.db.articles)
    ensures !Catalog.NoLater(Updated(3).db.articles["a"], Doc("a"))
  {
    TimelyOpens(CFG, 0);
    steps := MarkedRun([], Updated(3), Timely);
    more := RevertedRun([], REVERTED, Timely);
    assert !Catalog.Advanced(Updated(3).db.articles["a"], REVERTED.db.articles["a"]);
  }

  // ----- a version vouched for by the unversioned key -----------------------------------------

  const MARKED_AT := 10
  const AFTERWARDS: int := HOUR + 11
  const DATE := Ingest.FeedItem("u", true, "", "s", Some(5), None)
  const DATED := Doc("a").(publishedAt := Some(5), timeKnown := true)
  const DATED_ONE := Delivery(A, Some(5))

  lemma DateIsFetched(fetchedAt: int, names: Ingest.Naming)
    ensures DATED == Ingest.Merged(Some(Doc("a").(channelAt := Some(MARKED_AT))), DATE, fetchedAt, names)
  {
  }

  /** The processor delivers the undated article at time ten; n of its five writes are made. */
  function Settling(n: nat): Sys {
    Sys(Tables(map[A := if n <= 4 then Held(A, 10, 1) else Held(A, 10, 1).(status := Succeeded, lease := None)],
               if n == 0 then map[] else map[A := Record(A, true, 1, 10)],
               if n <= 1 then {} else if n == 2 then {Legacy(A)} else {Legacy(A), Version(A, None)},
               map["a" := if n <= 3 then Doc("a") else Doc("a").(channelAt := Some(10))]),
        10, [Task(Worker.Processor, Held(A, 10, 1), 10, if n <= 4 then Acking(Doc("a"), true, n) else Finished)],
        [UNDATED], map[A := Stats(1, 0, 0, 10, 10)])
  }

  lemma SettlingRound()
    ensures Round(CFG, Worker.Processor, Queued(10), A, true) == Settling(0)
  {
    assert OneClaim(CFG, Worker.Processor, Queued(10), A).db.jobs == Settling(0).db.jobs;
    assert OneClaim(CFG, Worker.Processor, Queued(10), A).stats == Settling(0).stats;
  }

  lemma SettlingKeys()
    ensures Linked(CFG, Settling(0), Write(0), Settling(1), Timely) && Linked(CFG, Settling(1), Write(0), Settling(2), Timely)
  {
  }

  lemma SettlingVersion()
    ensures Linked(CFG, Settling(2), Write(0), Settling(3), Timely)
  {
    assert Doc("a").NewsTimestamp() == None;
    assert {Legacy(A)} + {Version(A, None)} == {Legacy(A), Version(A, None)};
  }

  lemma SettlingRow()
    ensures Linked(CFG, Settling(3), Write(0), Settling(4), Timely) && Linked(CFG, Settling(4), Write(0), Settling(5), Timely)
  {
  }

  lemma SettledRun(rest: seq<Step>, last: Sys) returns (steps: seq<Step>)
    requires Leads(CFG, Settling(5), rest, last, Timely)
    ensures Leads(CFG, Settling(0), steps, last, Timely)
  {
    SettlingKeys();
    SettlingVersion();
    SettlingRow();
    steps := Prepend(CFG, Settling(4), Write(0), Settling(5), rest, last, Timely);
    steps := Prepend(CFG, Settling(3), Write(0), Settling(4), steps, last, Timely);
    steps := Prepend(CFG, Settling(2), Write(0), Settling(3), steps, last, Timely);
    steps := Prepend(CFG, Settling(1), Write(0), Settling(2), steps, last, Timely);
    steps := Prepend(CFG, Settling(0), Write(0), Settling(1), steps, last, Timely);
  }

  /** More than an hour later the article gets its date and the job is enqueued again. */
  function Returned(row: Job, a: Article, st: Stats): Sys {
    Sys(Tables(map[A := row], map[A := Record(A, true, 1, 10)], {Legacy(A), Version(A, None)}, map["a" := a]), AFTERWARDS,
        [Task(Worker.Processor, Held(A, 10, 1), 10, Finished)], [UNDATED], map[A := st])
  }

  const RETURNED := Returned(Waiting(A), DATED, UNTRIED)

  lemma ReturnSteps()
    ensures var row, st := Held(A, 10, 1).(status := Succeeded, lease := None), Stats(1, 0, 0, 10, 10);
      var late, dated := Returned(row, Doc("a").(channelAt := Some(10)), st), Returned(row, DATED, st);
      && Linked(CFG, Settling(5), Tick(AFTERWARDS), late, Timely) && Linked(CFG, late, Step.Ingest(DATED), dated, Timely)
      && Linked(CFG, dated, Enqueue(Waiting(A)), RETURNED, Timely)
  {
  }

  lemma ReturnRun(rest: seq<Step>, last: Sys) returns (steps: seq<Step>)
    requires Leads(CFG, RETURNED, rest, last, Timely)
    ensures Leads(CFG, Settling(5), steps, last, Timely)
  {
    ReturnSteps();
    var row, st := Held(A, 10, 1).(status := Succeeded, lease := None), Stats(1, 0, 0, 10, 10);
    var late, dated := Returned(row, Doc("a").(channelAt := Some(10)), st), Returned(row, DATED, st);
    steps := Prepend(CFG, dated, Enqueue(Waiting(A)), RETURNED, rest, last, Timely);
    steps := Prepend(CFG, late, Step.Ingest(DATED), dated, steps, last, Timely);
    steps := Prepend(CFG, Settling(5), Tick(AFTERWARDS), late, steps, last, Timely);
  }

  lemma ReturnedIsSole()
    ensures Sole(CFG, RETURNED, A)
  {
    assert Consumed(RETURNED.db, AFTERWARDS) == {};
  }

  /** The processor takes the dated version for delivered; n writes have followed. */
  function Vouching(n: nat): Sys {
    var row := Held(A, AFTERWARDS, 1);
    Sys(Tables(map[A := row], map[A := Record(A, true, 1, if n == 0 then 10 else AFTERWARDS)],
               if n <= 2 then {Legacy(A), Version(A, None)} else {Legacy(A), Version(A, None), Version(A, Some(5))},
               map["a" := DATED]), AFTERWARDS,
        [Task(Worker.Processor, Held(A, 10, 1), 10, Finished), Task(Worker.Processor, row, AFTERWARDS, Acking(DATED, true, n))],
        [UNDATED], map[A := Stats(1, 0, 0, AFTERWARDS, AFTERWARDS)])
  }

  lemma VouchingRows()
    ensures OneClaim(CFG, Worker.Processor, RETURNED, A).db.jobs == map[A := Held(A, AFTERWARDS, 1)]
    ensures OneClaim(CFG, Worker.Processor, RETURNED, A).stats == map[A := Stats(1, 0, 0, AFTERWARDS, AFTERWARDS)]
  {
  }

  lemma ReturnedIsSkipped()
    ensures SkipsUnmarked(Worker.Processor, RETURNED.db, A, DATED) && !EngineSkips(RETURNED.db, A, DATED)
  {
  }

  lemma VouchingCall()
    ensures Linked(CFG, Asked(CFG, Worker.Processor, RETURNED, A), Call(1, false), Vouching(0), Timely)
  {
    VouchingRows();
    ReturnedIsSkipped();
  }

  lemma VouchingWrites()
    ensures Linked(CFG, Vouching(0), Write(1), Vouching(1), Timely) && Linked(CFG, Vouching(1), Write(1), Vouching(2), Timely)
  {
    assert {Legacy(A), Version(A, None)} + {Legacy(A)} == {Legacy(A), Version(A, None)};
  }

  lemma VouchingMark()
    ensures Linked(CFG, Vouching(2), Write(1), Vouching(3), Timely)
  {
    assert DATED.NewsTimestamp() == Some(5);
    assert {Legacy(A), Version(A, None)} + {Version(A, Some(5))} == {Legacy(A), Version(A, None), Version(A, Some(5))};
  }

  lemma VouchingRun() returns (steps: seq<Step>)
    ensures Leads(CFG, RETURNED, steps, Vouching(3), Timely)
  {
    VouchingCall();
    VouchingWrites();
    VouchingMark();
    steps := Prepend(CFG, Vouching(2), Write(1), Vouching(3), [], Vouching(3), Timely);
    steps := Prepend(CFG, Vouching(1), Write(1), Vouching(2), steps, Vouching(3), Timely);
    steps := Prepend(CFG, Vouching(0), Write(1), Vouching(1), steps, Vouching(3), Timely);
    steps := Prepend(CFG, Asked(CFG, Worker.Processor, RETURNED, A), Call(1, false), Vouching(0), steps, Vouching(3), Timely);
    ReturnedIsSole();
    TimelyOpens(CFG, 0);
    steps := AskedRun(CFG, Worker.Processor, RETURNED, A, steps, Vouching(3), Timely);
  }

  /** An undated article is delivered; an hour later the feed dates it before that delivery, and the
      job is enqueued again. The processor skips the dated version for the sake of the unversioned key
      and marks it. It was never sent, and never will be; the engine would have sent it. */
  lemma VersionSkipped(more: seq<Step>, fetchedAt: int, names: Ingest.Naming) returns (steps: seq<Step>, rest: seq<Step>)
    ensures DATED == Ingest.Merged(Some(Doc("a").(channelAt := Some(MARKED_AT))), DATE, fetchedAt, names)
    ensures Fresh(Nothing(10)) && Leads(CFG, Nothing(10), steps, RETURNED, Timely) && Leads(CFG, RETURNED, rest, Vouching(3), Timely)
    ensures RETURNED.db.articles["a"] == DATED && !EngineSkips(RETURNED.db, A, DATED)
    ensures Version(A, Some(5)) in Vouching(3).db.keys && DATED.NewsTimestamp() == Some(5)
    ensures Run(CFG, Vouching(3), more, Anything) ==> DATED_ONE !in After(CFG, Vouching(3), more, Anything).log
  {
    DateIsFetched(fetchedAt, names);
    steps := SkippedStart();
    rest := VouchingRun();
    ReturnedIsSkipped();
    SkippedSound();
    if Run(CFG, Vouching(3), more, Anything) {
      assert Askers(Vouching(3), DATED_ONE) == {};
      NeverSentAfter(CFG, Vouching(3), more, DATED_ONE);
    }
  }

  lemma SkippedStart() returns (steps: seq<Step>)
    ensures Leads(CFG, Nothing(10), steps, RETURNED, Timely)
  {
    steps := ReturnRun([], RETURNED);
    steps := SettledRun(steps, RETURNED);
    SettlingRound();
    QueuedIsSole(CFG, 10);
    TimelyOpens(CFG, 10);
    steps := RoundRun(CFG, Worker.Processor, Queued(10), A, true, steps, RETURNED, Timely);
    steps := OpeningRun(CFG, 10, steps, RETURNED, Timely);
  }

  lemma SkippedSound()
    ensures Sound(CFG, Vouching(3))
  {
    forall i | 0 <= i < 2 ensures SoundTask(CFG, Vouching(3), Vouching(3).tasks[i]) {}
  }
}
