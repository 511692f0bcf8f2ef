/** One worker taking the only waiting job of a state from its claim to the call of the publisher:
    the recurring part of concrete runs. */
module Rounds {
  import opened Base
  import opened Tables
  import opened Greedy
  import opened Selection
  import opened Views
  import opened Claiming
  import opened Commits
  import opened Engine
  import opened Processor
  import opened Protocol
  import opened Exclusion

  /** With nothing counted and one eligible job, the engine claims it. */
  lemma OnlyJobIsTaken(cfg: Config, t: Tables, now: int, k: Slot)
    requires t.WellFormed() && k in t.jobs && Consumed(t, now) == {} && cfg.globalLimit > 0 && cfg.sourceLimit > 0
    requires forall j :: j in t.jobs ==> (Eligible(t.jobs[j], now) <==> j == k)
    ensures EngineTakes(cfg, t, now, [k])
  {
    var e := [t.jobs[k]];
    var r: Option<nat> := Some(0);
    assert e[0] == t.jobs[k];
    NothingCounted(t, now, true);
    assert NewPick(e, {}, map[], Caps(cfg.sourceLimit, map[]), 0);
    assert EngineClaims(cfg, t, now, e, map[], map[], r);
    assert [k] == [e[r.value].slot];
  }

  lemma NothingCounted(t: Tables, now: int, fallback: bool)
    requires Consumed(t, now) == {}
    ensures Attributed(t, now, fallback, map[], map[]) && RecentRecords(t, now) == map[]
  {
    var tags: map<string, string> := map[];
    forall s ensures Count(map[], s) == |Share(tags, s)| {
      assert Share(tags, s) == {};
    }
    forall j | j in t.history && RecentSuccess(t.history[j], now) ensures j.article in Consumed(t, now) {}
  }

  lemma OnePick(a: string, item: Item, t: int, caps: Caps)
    requires caps.Left(item.source) > 0
    ensures var pool := map[a := item];
      GreedyRun(pool, caps, [a]) && Fair(pool, caps, {a}) && OldestFirst(pool, map[a := t], {a})
    ensures forall b :: !Choosable(map[a := item], caps, {a}, b)
  {
    var pool := map[a := item];
    assert [a][..0] == [] && Elems<string>([]) == {};
    assert Of(pool, {}, item.source) == {};
    assert GreedyPick(pool, caps, {}, a);
    assert GreedyRun(pool, caps, []);
  }

  lemma OnePool(e: seq<Job>, job: Job)
    requires e == [job]
    ensures var a := job.slot.article;
      IsPool(e, {}, map[a := Item(job.priority, job.source)], map[a := job.createdAt])
  {
    var a := job.slot.article;
    assert JobOf(e, 0, a);
    assert Describes(e, a, Item(job.priority, job.source), job.createdAt);
    assert Listed(e) == {a};
  }

  /** The batch processor claims it too. */
  lemma OnlyJobIsBatched(cfg: Config, t: Tables, now: int, k: Slot)
    requires t.WellFormed() && k in t.jobs && Consumed(t, now) == {} && cfg.globalLimit > 0 && cfg.sourceLimit > 0
    requires forall j :: j in t.jobs ==> (Eligible(t.jobs[j], now) <==> j == k)
    ensures ProcessorTakes(cfg, t, now, [k])
  {
    var job, a := t.jobs[k], k.article;
    var e, caps, item := [job], Caps(cfg.sourceLimit, map[]), Item(job.priority, job.source);
    assert e[0] == job;
    NothingCounted(t, now, false);
    OnePool(e, job);
    OnePick(a, item, job.createdAt, caps);
    assert Elems([a]) == {a} && Elems([k]) == {k};
    assert Selects(e, {}, caps, Max(0, cfg.globalLimit), {a}, map[a := item], map[a := job.createdAt], [a]);
    assert Claimable(t, now, e, {a}) == {k};
    assert {} + {a} == {a};
    assert ProcessorClaims(cfg, t, now, Elems([k]), e, map[], map[], {a}, map[a := item], map[a := job.createdAt], [a]);
  }

  /** Nothing occupies capacity, and k is the one job that is waiting. */
  ghost predicate Sole(cfg: Config, s: Sys, k: Slot) {
    && s.db.WellFormed() && k in s.db.jobs && k in s.stats
    && cfg.globalLimit > 0 && cfg.sourceLimit > 0 && Consumed(s.db, s.clock) == {}
    && (forall j :: j in s.db.jobs ==> (Eligible(s.db.jobs[j], s.clock) <==> j == k))
  }

  /** The state after one claim. */
  function OneClaim(cfg: Config, w: Worker, s: Sys, k: Slot): Sys
    requires k in s.db.jobs && k in s.stats
  {
    var row := Claimed(s.db.jobs[k], s.clock, cfg.lease);
    s.(db := s.db.(jobs := s.db.jobs[k := row]), tasks := s.tasks + [Task(w, row, s.clock, Ready)],
       stats := s.stats[k := Noticed(s.stats[k], s.clock)])
  }

  lemma OneClaimIsTake(cfg: Config, w: Worker, s: Sys, k: Slot)
    requires s.db.WellFormed() && k in s.db.jobs && k in s.stats
    ensures AfterTake(cfg, s, w, [k]) == OneClaim(cfg, w, s, k)
  {
    assert forall j :: j in [k] <==> j == k;
    assert ClaimRows(s.db, Elems([k]), s.clock, cfg.lease).jobs == OneClaim(cfg, w, s, k).db.jobs;
    assert AfterTake(cfg, s, w, [k]).stats == OneClaim(cfg, w, s, k).stats;
    assert AfterTake(cfg, s, w, [k]).tasks == OneClaim(cfg, w, s, k).tasks;
  }

  lemma SoleIsTaken(cfg: Config, w: Worker, s: Sys, k: Slot)
    requires Sole(cfg, s, k)
    ensures Takes(cfg, w, s.db, s.clock, [k])
  {
    if w == Worker.Engine {
      OnlyJobIsTaken(cfg, s.db, s.clock, k);
    } else {
      OnlyJobIsBatched(cfg, s.db, s.clock, k);
    }
  }

  lemma TakeIsEnabled(cfg: Config, w: Worker, s: Sys, slots: seq<Slot>)
    requires Takes(cfg, w, s.db, s.clock, slots)
    ensures Enabled(cfg, s, Take(w, slots))
  {
  }

  lemma AfterOneTake(cfg: Config, w: Worker, s: Sys, slots: seq<Slot>)
    requires Enabled(cfg, s, Take(w, slots)) && forall k :: k in slots ==> k in s.db.jobs
    ensures Next(cfg, s, Take(w, slots)) == AfterTake(cfg, s, w, slots)
  {
  }

  lemma LinksInTime(cfg: Config, s: Sys, step: Step, s': Sys)
    requires Enabled(cfg, s, step) && Next(cfg, s, step) == s' && Timely(cfg, s, step)
    ensures Linked(cfg, s, step, s', Timely)
  {
  }

  lemma TakesOnlyJob(cfg: Config, w: Worker, s: Sys, k: Slot)
    requires Sole(cfg, s, k)
    ensures Linked(cfg, s, Take(w, [k]), OneClaim(cfg, w, s, k), Timely)
  {
    SoleIsTaken(cfg, w, s, k);
    OneClaimIsTake(cfg, w, s, k);
    TakeIsEnabled(cfg, w, s, [k]);
    AfterOneTake(cfg, w, s, [k]);
    LinksInTime(cfg, s, Take(w, [k]), OneClaim(cfg, w, s, k));
  }

  /** The steps from a claim to the call of the publisher. */
  predicate Delivering(step: Step) { step.Take? || step.Look? || step.Test? || step.Call? }

  /** The guard asks no more of these steps than to be in time. */
  ghost predicate Lenient(cfg: Config, guard: Guard) {
    forall s: Sys, step: Step :: Delivering(step) && Timely(cfg, s, step) ==> guard(cfg, s, step)
  }

  lemma Allowed(cfg: Config, s: Sys, step: Step, s': Sys, rest: seq<Step>, last: Sys, guard: Guard) returns (steps: seq<Step>)
    requires Lenient(cfg, guard) && Delivering(step) && Linked(cfg, s, step, s', Timely) && Leads(cfg, s', rest, last, guard)
    ensures Leads(cfg, s, steps, last, guard)
  {
    steps := Prepend(cfg, s, step, s', rest, last, guard);
  }

  function InPhase(cfg: Config, w: Worker, s: Sys, k: Slot, phase: Phase): Sys
    requires k in s.db.jobs && k in s.stats
  {
    var claimed := OneClaim(cfg, w, s, k);
    claimed.(tasks := claimed.tasks[|s.tasks| := claimed.tasks[|s.tasks|].(phase := phase)])
  }

  /** Claimed, read and looked up, with the publisher still to be called. */
  function Asked(cfg: Config, w: Worker, s: Sys, k: Slot): Sys
    requires k in s.db.jobs && k in s.stats && k.article in s.db.articles
  {
    var a := s.db.articles[k.article];
    InPhase(cfg, w, s, k, Tested(a, Skips(w, s.db, k, a)))
  }

  /** The publisher has been called with the given result. */
  function Round(cfg: Config, w: Worker, s: Sys, k: Slot, ok: bool): Sys
    requires k in s.db.jobs && k in s.stats && k.article in s.db.articles
  {
    var a := s.db.articles[k.article];
    InPhase(cfg, w, s, k, Acking(a, ok, 0)).(log := if ok then s.log + [Delivery(k, a.NewsTimestamp())] else s.log)
  }

  lemma AskedSteps(cfg: Config, w: Worker, s: Sys, k: Slot)
    requires k in s.db.jobs && k in s.stats && k.article in s.db.articles && s.db.jobs[k].slot == k
    ensures var i, looked := |s.tasks|, InPhase(cfg, w, s, k, Looked(s.db.articles[k.article]));
      && Linked(cfg, OneClaim(cfg, w, s, k), Look(i, {k.destination}), looked, Timely)
      && Linked(cfg, looked, Test(i), Asked(cfg, w, s, k), Timely)
  {
  }

  lemma AskedRun(cfg: Config, w: Worker, s: Sys, k: Slot, rest: seq<Step>, last: Sys, guard: Guard) returns (steps: seq<Step>)
    requires Sole(cfg, s, k) && k.article in s.db.articles && Lenient(cfg, guard)
    requires Leads(cfg, Asked(cfg, w, s, k), rest, last, guard)
    ensures Leads(cfg, s, steps, last, guard)
  {
    var i, claimed := |s.tasks|, OneClaim(cfg, w, s, k);
    var looked := InPhase(cfg, w, s, k, Looked(s.db.articles[k.article]));
    TakesOnlyJob(cfg, w, s, k);
    AskedSteps(cfg, w, s, k);
    steps := Allowed(cfg, looked, Test(i), Asked(cfg, w, s, k), rest, last, guard);
    steps := Allowed(cfg, claimed, Look(i, {k.destination}), looked, steps, last, guard);
    steps := Allowed(cfg, s, Take(w, [k]), claimed, steps, last, guard);
  }

  lemma CallStep(cfg: Config, w: Worker, s: Sys, k: Slot, ok: bool)
    requires k in s.db.jobs && k in s.stats && k.article in s.db.articles && s.db.jobs[k].slot == k && cfg.lease > 0
    requires !Skips(w, s.db, k, s.db.articles[k.article])
    ensures Linked(cfg, Asked(cfg, w, s, k), Call(|s.tasks|, ok), Round(cfg, w, s, k, ok), Timely)
  {
  }

  lemma RoundRun(cfg: Config, w: Worker, s: Sys, k: Slot, ok: bool, rest: seq<Step>, last: Sys, guard: Guard)
    returns (steps: seq<Step>)
    requires Sole(cfg, s, k) && k.article in s.db.articles && Lenient(cfg, guard) && cfg.lease > 0
    requires !Skips(w, s.db, k, s.db.articles[k.article])
    requires Leads(cfg, Round(cfg, w, s, k, ok), rest, last, guard)
    ensures Leads(cfg, s, steps, last, guard)
  {
    CallStep(cfg, w, s, k, ok);
    steps := Allowed(cfg, Asked(cfg, w, s, k), Call(|s.tasks|, ok), Round(cfg, w, s, k, ok), rest, last, guard);
    steps := AskedRun(cfg, w, s, k, steps, last, guard);
  }
}
