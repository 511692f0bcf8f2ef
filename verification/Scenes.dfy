/** The concrete jobs, articles and opening steps that the runs of Findings and Repeats share. */
module Scenes {
  import opened Base
  import opened Tables
  import opened Views
  import opened Commits
  import opened Protocol
  import opened Rounds
  import Ingest

  function Doc(id: string): Article { Article(id, "u", "s", "", None, None, false, None) }

  function Waiting(k: Slot): Job { Job(k, Pending, 0, "s", 0, 5, None, None, 0) }

  // One slot per hour, one article per source, leases of sixty ticks, no delay between attempts.
  const CFG := Config(1, 1, 60, 0, 5, 0)
  const WIDE := CFG.(globalLimit := 2, sourceLimit := 2)
  const A := Slot("a", "d")
  const B := Slot("b", "d")
  const UNTRIED := Stats(0, 0, 0, 0, 0)
  const ONCE := Stats(1, 0, 0, 0, 0)
  const UNDATED := Delivery(A, None)

  function Held(k: Slot, at: int, n: int): Job { Job(k, Processing, 0, "s", n, 5, Some(at + 60), None, 0) }

  function Claim(k: Slot, at: int, n: int, phase: Phase): Task { Task(Worker.Engine, Held(k, at, n), at, phase) }

  /** A state with the article of job A and no recorded delivery. */
  function At(now: int, jobs: map<Slot, Job>, keys: set<Key>, tasks: seq<Task>, log: seq<Delivery>, stats: map<Slot, Stats>): Sys {
    Sys(Tables(jobs, map[], keys, map["a" := Doc("a")]), now, tasks, log, stats)
  }

  function Nothing(now: int): Sys { Sys(Tables(map[], map[], {}, map[]), now, [], [], map[]) }

  function Known(now: int): Sys { At(now, map[], {}, [], [], map[]) }

  function Queued(now: int): Sys { At(now, map[A := Waiting(A)], {}, [], [], map[A := UNTRIED]) }

  /** Job A claimed at time zero by a worker now in the given phase. */
  function Started(now: int, phase: Phase, log: seq<Delivery>): Sys {
    At(now, map[A := Held(A, 0, 1)], {}, [Claim(A, 0, 1, phase)], log, map[A := ONCE])
  }

  function Called(ok: bool): Sys {
    Started(0, Acking(Doc("a"), ok, 0), if ok then [UNDATED] else [])
  }

  /** The guard lets the article and the job in, and asks no more of a round than to be in time. */
  ghost predicate Opens(cfg: Config, now: int, guard: Guard) {
    && Lenient(cfg, guard)
    && guard(cfg, Nothing(now), Ingest(Doc("a"))) && guard(cfg, Known(now), Enqueue(Waiting(A)))
  }

  lemma OpeningRun(cfg: Config, now: int, rest: seq<Step>, last: Sys, guard: Guard) returns (steps: seq<Step>)
    requires Opens(cfg, now, guard) && Leads(cfg, Queued(now), rest, last, guard)
    ensures Leads(cfg, Nothing(now), steps, last, guard)
  {
    steps := Prepend(cfg, Known(now), Enqueue(Waiting(A)), Queued(now), rest, last, guard);
    steps := Prepend(cfg, Nothing(now), Ingest(Doc("a")), Known(now), steps, last, guard);
  }

  lemma QueuedIsSole(cfg: Config, now: int)
    requires cfg.globalLimit > 0 && cfg.sourceLimit > 0
    ensures Sole(cfg, Queued(now), A)
  {
    assert Consumed(Queued(now).db, now) == {};
  }

  lemma FirstRound(ok: bool)
    ensures Round(CFG, Worker.Engine, Queued(0), A, ok) == Called(ok)
    ensures Asked(CFG, Worker.Engine, Queued(0), A) == Started(0, Tested(Doc("a"), false), [])
  {
    assert OneClaim(CFG, Worker.Engine, Queued(0), A).db.jobs == map[A := Held(A, 0, 1)];
    assert OneClaim(CFG, Worker.Engine, Queued(0), A).stats == map[A := ONCE];
  }

  /** From an empty store to the engine's call of the publisher. */
  lemma CalledRun(ok: bool, rest: seq<Step>, last: Sys, guard: Guard) returns (steps: seq<Step>)
    requires Opens(CFG, 0, guard) && Leads(CFG, Called(ok), rest, last, guard)
    ensures Leads(CFG, Nothing(0), steps, last, guard)
  {
    FirstRound(ok);
    QueuedIsSole(CFG, 0);
    steps := RoundRun(CFG, Worker.Engine, Queued(0), A, ok, rest, last, guard);
    steps := OpeningRun(CFG, 0, steps, last, guard);
  }

  const DONE := Held(A, 0, 1).(status := Succeeded, lease := None)
  const FAILING := Acking(Doc("a"), false, 0)
  const FREED := Held(A, 0, 1).(status := Retrying, lease := None)

  /** The first lease has ended and was taken back. */
  function Lapsed(phase: Phase, log: seq<Delivery>): Sys {
    At(60, map[A := FREED], {}, [Claim(A, 0, 1, phase)], log, map[A := Stats(1, 0, 1, 0, 0)])
  }

  lemma LapseSteps(phase: Phase, log: seq<Delivery>)
    ensures var s, late := Started(0, phase, log), Started(60, phase, log);
      Linked(CFG, s, Tick(60), late, Anything) && Linked(CFG, late, Recover, Lapsed(phase, log), Anything)
  {
  }

  lemma LapseRun(phase: Phase, log: seq<Delivery>, rest: seq<Step>, last: Sys, guard: Guard) returns (steps: seq<Step>)
    requires guard(CFG, Started(0, phase, log), Tick(60)) && guard(CFG, Started(60, phase, log), Recover)
    requires Leads(CFG, Lapsed(phase, log), rest, last, guard)
    ensures Leads(CFG, Started(0, phase, log), steps, last, guard)
  {
    LapseSteps(phase, log);
    steps := Prepend(CFG, Started(60, phase, log), Recover, Lapsed(phase, log), rest, last, guard);
    steps := Prepend(CFG, Started(0, phase, log), Tick(60), Started(60, phase, log), steps, last, guard);
  }

  lemma LapsedIsSole(phase: Phase, log: seq<Delivery>)
    ensures Sole(CFG, Lapsed(phase, log), A)
  {
    assert Consumed(Lapsed(phase, log).db, 60) == {};
  }

  // ----- an update that arrives while the engine is at work -----------------------------------

  const ITEM := Ingest.FeedItem("u", true, "", "s", None, Some(2))
  const NEWER := Doc("a").(updatedAt := Some(2), timeKnown := true)

  lemma UpdateIsFetched(fetchedAt: int, names: Ingest.Naming)
    ensures NEWER == Ingest.Merged(Some(Doc("a")), ITEM, fetchedAt, names)
  {
  }

  /** The article got a new version after the publisher was called; n writes have followed. */
  function Updated(n: nat): Sys {
    Sys(Tables(map[A := if n == 0 then Held(A, 0, 1) else DONE], if n <= 3 then map[] else map[A := Record(A, true, 1, 0)],
               if n <= 1 then {} else if n == 2 then {Legacy(A)} else {Legacy(A), Version(A, Some(2))}, map["a" := NEWER]),
        0, [Claim(A, 0, 1, Acking(Doc("a"), true, n))], [UNDATED], map[A := ONCE])
  }

  /** All writes are made; the last one put the article back as it was read. */
  function Past(now: int, row: Job, a: Article, st: Stats): Sys {
    Sys(Tables(map[A := row], map[A := Record(A, true, 1, 0)], {Legacy(A), Version(A, Some(2))}, map["a" := a]),
        now, [Claim(A, 0, 1, Finished)], [UNDATED], map[A := st])
  }

  const REVERTED := Past(0, DONE, Doc("a").(channelAt := Some(0)), ONCE)

  lemma UpdateArrives()
    ensures Linked(CFG, Called(true), Step.Ingest(NEWER), Updated(0), Anything)
    ensures Linked(CFG, Updated(0), Write(0), Updated(1), Anything)
    ensures Linked(CFG, Updated(1), Write(0), Updated(2), Anything)
  {
  }

  lemma UpdateIsMarked()
    ensures Linked(CFG, Updated(2), Write(0), Updated(3), Anything)
  {
    assert {Legacy(A)} + {Version(A, Some(2))} == {Legacy(A), Version(A, Some(2))};
  }

  lemma UpdateIsLost()
    ensures Linked(CFG, Updated(3), Write(0), Updated(4), Anything)
    ensures Linked(CFG, Updated(4), Write(0), REVERTED, Anything)
  {
  }

  /** The guard lets this run pass. */
  ghost predicate LetsUpdate(guard: Guard) {
    && Opens(CFG, 0, guard) && guard(CFG, Called(true), Step.Ingest(NEWER))
    && forall s: Sys :: |s.tasks| > 0 && s.clock < Until(CFG, s.tasks[0]) ==> guard(CFG, s, Write(0))
  }

  lemma MarkedRun(rest: seq<Step>, last: Sys, guard: Guard) returns (steps: seq<Step>)
    requires LetsUpdate(guard) && Leads(CFG, Updated(3), rest, last, guard)
    ensures Leads(CFG, Nothing(0), steps, last, guard)
  {
    UpdateArrives();
    UpdateIsMarked();
    steps := Prepend(CFG, Updated(2), Write(0), Updated(3), rest, last, guard);
    steps := Prepend(CFG, Updated(1), Write(0), Updated(2), steps, last, guard);
    steps := Prepend(CFG, Updated(0), Write(0), Updated(1), steps, last, guard);
    steps := Prepend(CFG, Called(true), Step.Ingest(NEWER), Updated(0), steps, last, guard);
    steps := CalledRun(true, steps, last, guard);
  }

  lemma RevertedRun(rest: seq<Step>, last: Sys, guard: Guard) returns (steps: seq<Step>)
    requires LetsUpdate(guard) && Leads(CFG, REVERTED, rest, last, guard)
    ensures Leads(CFG, Updated(3), steps, last, guard)
  {
    UpdateIsLost();
    steps := Prepend(CFG, Updated(4), Write(0), REVERTED, rest, last, guard);
    steps := Prepend(CFG, Updated(3), Write(0), Updated(4), steps, last, guard);
  }
}
