/** The two claim designs agree: repeating the engine's single claims until it has nothing left
    admits, at or above every priority, exactly as many new articles as one batch claim. */
module Draining {
  import opened Base
  import opened Tables
  import opened Greedy
  import opened Selection
  import opened Views
  import opened Claiming
  import opened Commits
  import opened Engine
  import opened Processor
  import opened Protocol
  import opened Exclusion
  import opened Limits
  import opened Redundancy

  ghost predicate EngineStops(cfg: Config, t: Tables, now: int) {
    exists e: seq<Job>, counts: map<string, int>, tags: map<string, string> ::
      EngineClaims(cfg, t, now, e, counts, tags, None)
  }

  /** Claiming the given jobs one after the other at one time. */
  ghost predicate Claims(cfg: Config, t: Tables, now: int, ks: seq<Slot>)
    decreases |ks|
  {
    ks != [] ==> EngineTakes(cfg, t, now, [ks[0]]) && Claims(cfg, ClaimRows(t, {ks[0]}, now, cfg.lease), now, ks[1..])
  }

  /** Doing so until nothing can be claimed. */
  ghost predicate Drains(cfg: Config, t: Tables, now: int, ks: seq<Slot>)
    decreases |ks|
  {
    if ks == [] then EngineStops(cfg, t, now)
    else EngineTakes(cfg, t, now, [ks[0]]) && Drains(cfg, ClaimRows(t, {ks[0]}, now, cfg.lease), now, ks[1..])
  }

  ghost function AfterClaims(cfg: Config, t: Tables, now: int, ks: seq<Slot>): Tables
    decreases |ks|
  {
    if ks == [] then t else AfterClaims(cfg, ClaimRows(t, {ks[0]}, now, cfg.lease), now, ks[1..])
  }

  /** The slots left under the global limit. */
  ghost function Free(cfg: Config, t: Tables, now: int): nat { Max(0, cfg.globalLimit - |Consumed(t, now)|) }

  ghost function EligibleSlots(t: Tables, now: int): set<Slot> {
    set k | k in t.jobs && Eligible(t.jobs[k], now)
  }

  lemma ClaimSpends(cfg: Config, t: Tables, now: int, k: Slot)
    requires k in EligibleSlots(t, now)
    ensures |EligibleSlots(ClaimRows(t, {k}, now, cfg.lease), now)| == |EligibleSlots(t, now)| - 1
  {
    assert EligibleSlots(ClaimRows(t, {k}, now, cfg.lease), now) == EligibleSlots(t, now) - {k};
  }

  lemma TakenSpends(cfg: Config, t: Tables, now: int, k: Slot)
    requires EngineTakes(cfg, t, now, [k])
    ensures |EligibleSlots(ClaimRows(t, {k}, now, cfg.lease), now)| == |EligibleSlots(t, now)| - 1
  {
    EngineTakesEligible(cfg, t, now, [k]);
    assert k in [k];
    ClaimSpends(cfg, t, now, k);
  }

  /** Claiming at one time cannot go on for ever: every claim removes an eligible job and adds none,
      so no sequence of claims is longer than the number of eligible jobs. */
  lemma {:induction false} DrainEnds(cfg: Config, t: Tables, now: int, ks: seq<Slot>)
    requires Claims(cfg, t, now, ks)
    ensures |ks| <= |EligibleSlots(t, now)|
    decreases |ks|
  {
    if ks != [] {
      TakenSpends(cfg, t, now, ks[0]);
      DrainEnds(cfg, ClaimRows(t, {ks[0]}, now, cfg.lease), now, ks[1..]);
    }
  }

  lemma {:induction false} DrainsClaim(cfg: Config, t: Tables, now: int, ks: seq<Slot>)
    requires Drains(cfg, t, now, ks)
    ensures Claims(cfg, t, now, ks) && EngineStops(cfg, AfterClaims(cfg, t, now, ks), now)
    decreases |ks|
  {
    if ks != [] {
      DrainsClaim(cfg, ClaimRows(t, {ks[0]}, now, cfg.lease), now, ks[1..]);
    }
  }

  lemma ClaimTakes(cfg: Config, t: Tables, now: int, e: seq<Job>, counts: map<string, int>, tags: map<string, string>,
    r: Option<nat>, job: Option<Job>)
    requires EngineClaims(cfg, t, now, e, counts, tags, r)
    requires job.Some? == r.Some? && (r.Some? ==> job.value == Claimed(e[r.value], now, cfg.lease))
    ensures job.None? ==> EngineStops(cfg, t, now)
    ensures job.Some? ==> EngineTakes(cfg, t, now, [job.value.slot])
  {
  }

  /** Claiming until nothing is left: it stops, and from every state there is a drain. */
  method Drain(engine: QueueEngine, now: int) returns (ks: seq<Slot>)
    requires engine.store.Snapshot().WellFormed()
    modifies engine.store`jobs
    ensures Drains(engine.cfg, old(engine.store.Snapshot()), now, ks)
    ensures engine.store.Snapshot() == AfterClaims(engine.cfg, old(engine.store.Snapshot()), now, ks)
    decreases |EligibleSlots(engine.store.Snapshot(), now)|
  {
    ghost var t := engine.store.Snapshot();
    var job, e, counts, tags, r := engine.ClaimNext(now);
    ClaimTakes(engine.cfg, t, now, e, counts, tags, r, job);
    if job.None? {
      return [];
    }
    var k := job.value.slot;
    TakenSpends(engine.cfg, t, now, k);
    assert engine.store.Snapshot().WellFormed() by {
      EngineTakesEligible(engine.cfg, t, now, [k]);
      assert k in [k];
      ClaimOneRow(t, k, now, engine.cfg.lease);
    }
    var rest := Drain(engine, now);
    ks := [k] + rest;
    assert ks[1..] == rest;
  }

  /** The situation both designs start from: consistent sources, every delivered article known, no
      eligible job redundant, leases that do not end before they start. */
  ghost predicate FairStart(cfg: Config, t: Tables, now: int, src: string -> string) {
    && t.WellFormed() && Consistent(t, src) && cfg.lease >= 0
    && (forall k :: k in t.history ==> k in t.jobs && k.article in t.articles)
    && (forall k :: k in EligibleSlots(t, now) ==> Newer(RecentRecords(t, now), t.jobs[k]))
  }

  /** What the candidates and limits are at the start. */
  ghost predicate Described(cfg: Config, t: Tables, now: int, src: string -> string,
    e: seq<Job>, pool: Pool, first: map<string, int>, caps: Caps)
  {
    && EligibleListing(t, now, e) && IsPool(e, Consumed(t, now), pool, first)
    && caps.limit == cfg.sourceLimit && forall s :: Count(caps.used, s) == |SourceLoad(t, now, src, s)|
  }

  /** State t arises from t0 by claims that admitted the articles `picks`. */
  ghost predicate Drained(cfg: Config, t0: Tables, t: Tables, now: int, picks: seq<string>) {
    && t.history == t0.history && t.articles == t0.articles && t.jobs.Keys == t0.jobs.Keys
    && (forall k :: k in t0.jobs ==>
          (t.jobs[k] == t0.jobs[k] || (Eligible(t0.jobs[k], now) && t.jobs[k] == Claimed(t0.jobs[k], now, cfg.lease))))
    && (forall k :: k in t0.jobs && k.article !in Consumed(t0, now) && k.article !in picks ==> t.jobs[k] == t0.jobs[k])
    && Consumed(t, now) == Consumed(t0, now) + Elems(picks)
  }

  lemma ClaimConsumes(cfg: Config, t: Tables, now: int, k: Slot)
    requires t.WellFormed() && k in t.jobs && Eligible(t.jobs[k], now) && cfg.lease >= 0
    ensures Consumed(ClaimRows(t, {k}, now, cfg.lease), now) == Consumed(t, now) + {k.article}
  {
    var t' := ClaimRows(t, {k}, now, cfg.lease);
    assert Live(t'.jobs[k], now);
    assert forall j :: j in t.jobs && j != k ==> t'.jobs[j] == t.jobs[j];
    assert InFlight(t', now) == InFlight(t, now) + {k.article};
  }

  lemma DrainedStep(cfg: Config, t0: Tables, t: Tables, now: int, picks: seq<string>, k: Slot, more: seq<string>)
    requires t0.WellFormed() && t.WellFormed() && Drained(cfg, t0, t, now, picks) && cfg.lease >= 0
    requires k in t.jobs && Eligible(t.jobs[k], now)
    requires more == if k.article in Consumed(t, now) then picks else picks + [k.article]
    ensures ClaimRows(t, {k}, now, cfg.lease).WellFormed() && Drained(cfg, t0, ClaimRows(t, {k}, now, cfg.lease), now, more)
  {
    ClaimConsumes(cfg, t, now, k);
    ClaimOneRow(t, k, now, cfg.lease);
    assert t.jobs[k] == t0.jobs[k];
    assert Elems(more) == if k.article in Consumed(t, now) then Elems(picks) else Elems(picks) + {k.article};
    assert forall a :: a in more <==> a in Elems(more);
    assert Consumed(t, now) + {k.article} == Consumed(t0, now) + Elems(more);
  }

  /** A state reached by draining, and the greedy run it corresponds to. */
  ghost predicate Midway(cfg: Config, t0: Tables, t: Tables, now: int, src: string -> string, e0: seq<Job>, pool: Pool,
    first: map<string, int>, caps: Caps, picks: seq<string>)
  {
    && FairStart(cfg, t0, now, src) && Described(cfg, t0, now, src, e0, pool, first, caps)
    && Drained(cfg, t0, t, now, picks) && t.WellFormed() && GreedyRun(pool, caps, picks)
  }

  lemma PartAfter(c0: set<string>, xs: set<string>, src: string -> string, pool: Pool, s: string)
    requires c0 !! xs && xs <= pool.Keys && forall a :: a in pool ==> pool[a].source == src(a)
    ensures |Part(c0 + xs, From(src, s))| == |Part(c0, From(src, s))| + |Of(pool, xs, s)|
    ensures |c0 + xs| == |c0| + |xs|
  {
    assert Part(c0 + xs, From(src, s)) == Part(c0, From(src, s)) + Of(pool, xs, s);
    assert Part(c0, From(src, s)) !! Of(pool, xs, s);
  }

  lemma LoadAfter(t0: Tables, t: Tables, now: int, src: string -> string, pool: Pool, caps: Caps, picks: seq<string>, s: string)
    requires Consumed(t, now) == Consumed(t0, now) + Elems(picks) && GreedyRun(pool, caps, picks)
    requires pool.Keys !! Consumed(t0, now) && forall a :: a in pool ==> pool[a].source == src(a)
    ensures |SourceLoad(t, now, src, s)| == |SourceLoad(t0, now, src, s)| + |Of(pool, Elems(picks), s)|
    ensures |Consumed(t, now)| == |Consumed(t0, now)| + |picks|
  {
    GreedyFeasible(pool, caps, picks);
    DistinctSize(picks);
    LoadIsPart(t, now, src, s);
    LoadIsPart(t0, now, src, s);
    PartAfter(Consumed(t0, now), Elems(picks), src, pool, s);
  }

  /** A candidate not yet admitted still has all its jobs waiting, its best one among them. */
  lemma BestJobWaits(cfg: Config, t0: Tables, t: Tables, now: int, e0: seq<Job>, pool: Pool, first: map<string, int>,
    picks: seq<string>, e: seq<Job>, b: string) returns (j: nat)
    requires EligibleListing(t0, now, e0) && IsPool(e0, Consumed(t0, now), pool, first)
    requires t0.WellFormed() && Drained(cfg, t0, t, now, picks) && EligibleListing(t, now, e) && b in pool && b !in picks
    ensures j < |e| && e[j].slot.article == b && e[j].priority == pool[b].priority
  {
    assert Describes(e0, b, pool[b], first[b]);
    var i :| JobOf(e0, i, b) && e0[i].priority == pool[b].priority;
    var k := e0[i].slot;
    assert k in t0.jobs && t0.jobs[k] == e0[i] && t.jobs[k] == t0.jobs[k];
    assert EligibleAt(now)(t.jobs[k]);
    assert t.jobs[k] in e;
    j :| 0 <= j < |e| && e[j] == t.jobs[k];
  }

  /** The engine's view of a drained state. */
  lemma EngineView(cfg: Config, t0: Tables, t: Tables, now: int, src: string -> string, picks: seq<string>,
    e: seq<Job>, counts: map<string, int>, tags: map<string, string>, s: string)
    requires FairStart(cfg, t0, now, src) && Drained(cfg, t0, t, now, picks) && t.WellFormed()
    requires EligibleListing(t, now, e) && Attributed(t, now, true, counts, tags)
    ensures NoRedundant(e, RecentRecords(t, now)) && Count(counts, s) == |SourceLoad(t, now, src, s)|
  {
    StillNewer(t0, t, now, e);
    DrainedCounts(cfg, t0, t, now, src, picks, counts, tags, s);
  }

  lemma DrainedCounts(cfg: Config, t0: Tables, t: Tables, now: int, src: string -> string, picks: seq<string>,
    counts: map<string, int>, tags: map<string, string>, s: string)
    requires FairStart(cfg, t0, now, src) && Drained(cfg, t0, t, now, picks) && t.WellFormed()
    requires Attributed(t, now, true, counts, tags)
    ensures Count(counts, s) == |SourceLoad(t, now, src, s)|
  {
    StillConsistent(t0, t, src);
    CountsAreLoads(t, now, true, counts, tags, src, s);
  }

  lemma StillConsistent(t0: Tables, t: Tables, src: string -> string)
    requires Consistent(t0, src) && t.articles == t0.articles && t.jobs.Keys == t0.jobs.Keys
    requires forall k :: k in t.jobs ==> t.jobs[k].source == t0.jobs[k].source
    ensures Consistent(t, src)
  {
  }

  lemma StillNewer(t0: Tables, t: Tables, now: int, e: seq<Job>)
    requires t.history == t0.history && t.jobs.Keys == t0.jobs.Keys && EligibleListing(t, now, e)
    requires forall k :: k in t.jobs && Eligible(t.jobs[k], now) ==> t.jobs[k] == t0.jobs[k]
    requires forall k :: k in EligibleSlots(t0, now) ==> Newer(RecentRecords(t0, now), t0.jobs[k])
    ensures NoRedundant(e, RecentRecords(t, now))
  {
    assert RecentRecords(t, now) == RecentRecords(t0, now);
    forall i | 0 <= i < |e| ensures Newer(RecentRecords(t, now), e[i]) {
      assert t.jobs[e[i].slot] == e[i] && Eligible(e[i], now);
      assert e[i].slot in EligibleSlots(t0, now);
    }
  }

  /** What the engine still sees as room is what the greedy run has left. */
  lemma RoomAfter(cfg: Config, t0: Tables, t: Tables, now: int, src: string -> string, e0: seq<Job>, pool: Pool,
    first: map<string, int>, caps: Caps, picks: seq<string>, e: seq<Job>, counts: map<string, int>,
    tags: map<string, string>, s: string)
    requires Midway(cfg, t0, t, now, src, e0, pool, first, caps, picks)
    requires EligibleListing(t, now, e) && Attributed(t, now, true, counts, tags)
    ensures NoRedundant(e, RecentRecords(t, now))
    ensures Caps(cfg.sourceLimit, counts).Left(s) == caps.Left(s) - |Of(pool, Elems(picks), s)|
    ensures |Consumed(t, now)| == |Consumed(t0, now)| + |picks|
  {
    EngineView(cfg, t0, t, now, src, picks, e, counts, tags, s);
    PoolSources(t0, now, e0, Consumed(t0, now), pool, first, src);
    LoadAfter(t0, t, now, src, pool, caps, picks, s);
  }

  lemma AdmittedIsCandidate(cfg: Config, t0: Tables, t: Tables, now: int, e0: seq<Job>, pool: Pool,
    first: map<string, int>, picks: seq<string>, e: seq<Job>, r: nat)
    requires t0.WellFormed() && EligibleListing(t0, now, e0) && IsPool(e0, Consumed(t0, now), pool, first)
    requires Drained(cfg, t0, t, now, picks) && EligibleListing(t, now, e) && r < |e|
    requires e[r].slot.article !in Consumed(t, now)
    ensures e[r].slot.article in pool && e[r].priority <= pool[e[r].slot.article].priority
  {
    var k := e[r].slot;
    assert k in t.jobs && t.jobs[k] == e[r] && t.jobs[k] == t0.jobs[k];
    assert EligibleAt(now)(t0.jobs[k]);
    assert t0.jobs[k] in e0;
    var i :| 0 <= i < |e0| && e0[i] == t0.jobs[k];
    assert k.article in Listed(e0) && k.article !in Consumed(t0, now);
    assert Describes(e0, k.article, pool[k.article], first[k.article]);
    assert JobOf(e0, i, k.article);
  }

  lemma LaterIsLower(e: seq<Job>, i: nat, j: nat)
    requires Sorted(e, QueueOrder()) && i <= j < |e|
    ensures e[j].priority <= e[i].priority
  {
    assert i < j ==> !Before(QueueOrder()(e[j]), QueueOrder()(e[i]));
  }

  lemma NewPickIsGreedy(cfg: Config, t0: Tables, t: Tables, now: int, src: string -> string, e0: seq<Job>, pool: Pool,
    first: map<string, int>, caps: Caps, picks: seq<string>, e: seq<Job>, counts: map<string, int>,
    tags: map<string, string>, r: nat)
    requires Midway(cfg, t0, t, now, src, e0, pool, first, caps, picks)
    requires EngineClaims(cfg, t, now, e, counts, tags, Some(r)) && e[r].slot.article !in Consumed(t, now)
    ensures GreedyPick(pool, caps, Elems(picks), e[r].slot.article)
    ensures |picks| < cfg.globalLimit - |Consumed(t0, now)|
  {
    var a := e[r].slot.article;
    var consumed, recent, left := Consumed(t, now), RecentRecords(t, now), Caps(cfg.sourceLimit, counts);
    RoomAfter(cfg, t0, t, now, src, e0, pool, first, caps, picks, e, counts, tags, e[r].source);
    ClaimIsFirstWithRoom(e, consumed, recent, left, cfg.globalLimit - |consumed|, Some(r));
    PoolSources(t0, now, e0, Consumed(t0, now), pool, first, src);
    AdmittedIsCandidate(cfg, t0, t, now, e0, pool, first, picks, e, r);
    forall b | Choosable(pool, caps, Elems(picks), b) ensures pool[b].priority <= pool[a].priority {
      var j := BestJobWaits(cfg, t0, t, now, e0, pool, first, picks, e, b);
      RoomAfter(cfg, t0, t, now, src, e0, pool, first, caps, picks, e, counts, tags, e[j].source);
      assert e[j].source == pool[b].source;
      LaterIsLower(e, r, j);
    }
  }

  lemma NoRoomLeft(cfg: Config, t0: Tables, t: Tables, now: int, src: string -> string, e0: seq<Job>, pool: Pool,
    first: map<string, int>, caps: Caps, picks: seq<string>, e: seq<Job>, counts: map<string, int>,
    tags: map<string, string>, b: string)
    requires Midway(cfg, t0, t, now, src, e0, pool, first, caps, picks) && b in pool && b !in picks
    requires EligibleListing(t, now, e) && Attributed(t, now, true, counts, tags)
    requires forall i :: 0 <= i < |e| ==> Caps(cfg.sourceLimit, counts).Left(e[i].source) <= 0
    ensures !Choosable(pool, caps, Elems(picks), b)
  {
    PoolSources(t0, now, e0, Consumed(t0, now), pool, first, src);
    var j := BestJobWaits(cfg, t0, t, now, e0, pool, first, picks, e, b);
    RoomAfter(cfg, t0, t, now, src, e0, pool, first, caps, picks, e, counts, tags, e[j].source);
    assert e[j].source == pool[b].source;
  }

  lemma NoRoomSeen(cfg: Config, t: Tables, now: int, e: seq<Job>, counts: map<string, int>, tags: map<string, string>)
    requires EngineClaims(cfg, t, now, e, counts, tags, None) && NoRedundant(e, RecentRecords(t, now))
    requires |Consumed(t, now)| < cfg.globalLimit
    ensures forall i :: 0 <= i < |e| ==> Caps(cfg.sourceLimit, counts).Left(e[i].source) <= 0
  {
    ClaimIsFirstWithRoom(e, Consumed(t, now), RecentRecords(t, now), Caps(cfg.sourceLimit, counts),
      cfg.globalLimit - |Consumed(t, now)|, None);
  }

  lemma EmptyClaimMeansNoRoom(cfg: Config, t0: Tables, t: Tables, now: int, src: string -> string, e0: seq<Job>, pool: Pool,
    first: map<string, int>, caps: Caps, picks: seq<string>, e: seq<Job>, counts: map<string, int>, tags: map<string, string>)
    requires Midway(cfg, t0, t, now, src, e0, pool, first, caps, picks) && |picks| < Free(cfg, t0, now)
    requires EngineClaims(cfg, t, now, e, counts, tags, None)
    ensures forall i :: 0 <= i < |e| ==> Caps(cfg.sourceLimit, counts).Left(e[i].source) <= 0
  {
    RoomAfter(cfg, t0, t, now, src, e0, pool, first, caps, picks, e, counts, tags, "");
    NoRoomSeen(cfg, t, now, e, counts, tags);
  }

  /** When the engine finds nothing, nothing can be picked. */
  lemma StopIsComplete(cfg: Config, t0: Tables, t: Tables, now: int, src: string -> string, e0: seq<Job>, pool: Pool,
    first: map<string, int>, caps: Caps, picks: seq<string>)
    requires Midway(cfg, t0, t, now, src, e0, pool, first, caps, picks) && EngineStops(cfg, t, now)
    requires |picks| <= Free(cfg, t0, now)
    ensures Complete(pool, caps, Free(cfg, t0, now), picks)
  {
    if |picks| < Free(cfg, t0, now) {
      var e: seq<Job>, counts: map<string, int>, tags: map<string, string> :|
        EngineClaims(cfg, t, now, e, counts, tags, None);
      EmptyClaimMeansNoRoom(cfg, t0, t, now, src, e0, pool, first, caps, picks, e, counts, tags);
      forall b | b in pool && b !in picks ensures !Choosable(pool, caps, Elems(picks), b) {
        NoRoomLeft(cfg, t0, t, now, src, e0, pool, first, caps, picks, e, counts, tags, b);
      }
    }
  }

  /** One claim extends the greedy run by the article it admits, if it admits one. */
  lemma DrainClaim(cfg: Config, t0: Tables, t: Tables, now: int, src: string -> string, e0: seq<Job>, pool: Pool,
    first: map<string, int>, caps: Caps, picks: seq<string>, k: Slot) returns (more: seq<string>)
    requires Midway(cfg, t0, t, now, src, e0, pool, first, caps, picks) && EngineTakes(cfg, t, now, [k])
    ensures k in t.jobs && Midway(cfg, t0, ClaimRows(t, {k}, now, cfg.lease), now, src, e0, pool, first, caps, more)
    ensures more == if k.article in Consumed(t, now) then picks else picks + [k.article]
    ensures k.article !in Consumed(t, now) ==> |picks| < cfg.globalLimit - |Consumed(t0, now)|
    ensures Consumed(ClaimRows(t, {k}, now, cfg.lease), now) == Consumed(t, now) + {k.article}
  {
    var e: seq<Job>, counts: map<string, int>, tags: map<string, string>, r: Option<nat> :|
      EngineClaims(cfg, t, now, e, counts, tags, r) && r.Some? && [k] == [e[r.value].slot];
    assert [k][0] == [e[r.value].slot][0];
    ClaimConsumes(cfg, t, now, k);
    more := picks;
    if k.article !in Consumed(t, now) {
      NewPickIsGreedy(cfg, t0, t, now, src, e0, pool, first, caps, picks, e, counts, tags, r.value);
      GreedyExtend(pool, caps, picks, k.article);
      more := picks + [k.article];
    }
    DrainedStep(cfg, t0, t, now, picks, k, more);
  }

  ghost function Admitted(picks: seq<string>, ks: seq<Slot>, consumed: set<string>): set<string> {
    Elems(picks) + (Articles(ks) - consumed)
  }

  lemma AdmittedStep(picks: seq<string>, ks: seq<Slot>, consumed: set<string>, more: seq<string>)
    requires ks != [] && more == if ks[0].article in consumed then picks else picks + [ks[0].article]
    ensures Admitted(more, ks[1..], consumed + {ks[0].article}) == Admitted(picks, ks, consumed)
  {
    assert Articles(ks) == {ks[0].article} + Articles(ks[1..]) by {
      assert forall k :: k in ks <==> k == ks[0] || k in ks[1..];
    }
    assert Elems(more) == if ks[0].article in consumed then Elems(picks) else Elems(picks) + {ks[0].article};
  }

  lemma AdmittedEnds(picks: seq<string>, ks: seq<Slot>, consumed: set<string>)
    ensures Admitted(picks, [], consumed) == Elems(picks)
    ensures Admitted([], ks, consumed) == Articles(ks) - consumed
  {
  }

  lemma SelectedCount(pool: Pool, caps: Caps, free: nat, picks: seq<string>, p: int)
    requires GreedyRun(pool, caps, picks) && Complete(pool, caps, free, picks)
    ensures Elems(picks) <= pool.Keys
    ensures |AtLeast(pool, Elems(picks), p)| == Min(free, Capacity(pool, caps, p))
  {
    GreedyFeasible(pool, caps, picks);
    GreedyCount(pool, caps, free, picks, p);
  }

  /** Draining is itself a complete greedy run over the candidates of the start. */
  lemma {:induction false} DrainCount(cfg: Config, t0: Tables, t: Tables, now: int, src: string -> string,
    e0: seq<Job>, pool: Pool, first: map<string, int>, caps: Caps, picks: seq<string>, ks: seq<Slot>, p: int)
    requires Midway(cfg, t0, t, now, src, e0, pool, first, caps, picks) && Drains(cfg, t, now, ks)
    requires |picks| <= Free(cfg, t0, now)
    ensures |AtLeast(pool, Admitted(picks, ks, Consumed(t, now)), p)|
         == Min(Free(cfg, t0, now), Capacity(pool, caps, p))
    decreases |ks|
  {
    if ks == [] {
      StopIsComplete(cfg, t0, t, now, src, e0, pool, first, caps, picks);
      SelectedCount(pool, caps, Free(cfg, t0, now), picks, p);
      AdmittedEnds(picks, ks, Consumed(t, now));
    } else {
      var more := DrainClaim(cfg, t0, t, now, src, e0, pool, first, caps, picks, ks[0]);
      DrainCount(cfg, t0, ClaimRows(t, {ks[0]}, now, cfg.lease), now, src, e0, pool, first, caps, more, ks[1..], p);
      AdmittedStep(picks, ks, Consumed(t, now), more);
    }
  }

  lemma SelectedIsClaimed(t: Tables, now: int, e: seq<Job>, slots: seq<Slot>, selected: set<string>, pool: Pool,
    first: map<string, int>, a: string)
    requires IsPool(e, Consumed(t, now), pool, first) && selected <= pool.Keys && a in selected
    requires Elems(slots) == Claimable(t, now, e, Consumed(t, now) + selected)
    ensures a in Articles(slots) && a !in Consumed(t, now)
  {
    assert Describes(e, a, pool[a], first[a]);
    var i :| JobOf(e, i, a);
    assert e[i].slot !in RecentRecords(t, now);
    assert e[i].slot in Claimable(t, now, e, Consumed(t, now) + selected);
    assert e[i].slot in slots;
  }

  /** The articles a batch claim admits are exactly the ones its greedy loop selected: a new article
      was not delivered within the hour, so none of its jobs is left out as already delivered. */
  lemma BatchAdmits(t: Tables, now: int, slots: seq<Slot>, e: seq<Job>, selected: set<string>, pool: Pool,
    first: map<string, int>)
    requires EligibleListing(t, now, e) && IsPool(e, Consumed(t, now), pool, first) && selected <= pool.Keys
    requires Elems(slots) == Claimable(t, now, e, Consumed(t, now) + selected)
    ensures Articles(slots) - Consumed(t, now) == selected
  {
    FreshIsSelected(t, now, e, slots, selected);
    forall a | a in selected ensures a in Articles(slots) && a !in Consumed(t, now) {
      SelectedIsClaimed(t, now, e, slots, selected, pool, first, a);
    }
  }

  lemma BatchCount(cfg: Config, t: Tables, now: int, slots: seq<Slot>, e: seq<Job>, counts: map<string, int>,
    tags: map<string, string>, selected: set<string>, pool: Pool, first: map<string, int>, picks: seq<string>, p: int)
    requires ProcessorClaims(cfg, t, now, Elems(slots), e, counts, tags, selected, pool, first, picks)
    ensures |AtLeast(pool, Articles(slots) - Consumed(t, now), p)|
         == Min(Free(cfg, t, now), Capacity(pool, Caps(cfg.sourceLimit, counts), p))
  {
    SelectedCount(pool, Caps(cfg.sourceLimit, counts), Free(cfg, t, now), picks, p);
    BatchAdmits(t, now, slots, e, selected, pool, first);
  }

  lemma DrainStart(cfg: Config, t: Tables, now: int, src: string -> string, e: seq<Job>, counts: map<string, int>,
    tags: map<string, string>, pool: Pool, first: map<string, int>)
    requires FairStart(cfg, t, now, src) && EligibleListing(t, now, e) && IsPool(e, Consumed(t, now), pool, first)
    requires Attributed(t, now, false, counts, tags)
    ensures Midway(cfg, t, t, now, src, e, pool, first, Caps(cfg.sourceLimit, counts), [])
  {
    forall s ensures Count(counts, s) == |SourceLoad(t, now, src, s)| {
      CountsAreLoads(t, now, false, counts, tags, src, s);
    }
    assert Elems<string>([]) == {};
  }

  /** Draining equivalence: from the same state and time, the engine's claims, repeated until none
      is left, admit at or above every priority exactly as many new articles as one batch claim. */
  lemma DrainMatchesBatch(cfg: Config, t: Tables, now: int, src: string -> string, ks: seq<Slot>, slots: seq<Slot>,
    e: seq<Job>, counts: map<string, int>, tags: map<string, string>, selected: set<string>, pool: Pool,
    first: map<string, int>, picks: seq<string>, p: int)
    requires FairStart(cfg, t, now, src) && Drains(cfg, t, now, ks)
    requires ProcessorClaims(cfg, t, now, Elems(slots), e, counts, tags, selected, pool, first, picks)
    ensures |AtLeast(pool, Articles(ks) - Consumed(t, now), p)| == |AtLeast(pool, Articles(slots) - Consumed(t, now), p)|
  {
    DrainStart(cfg, t, now, src, e, counts, tags, pool, first);
    DrainCount(cfg, t, t, now, src, e, pool, first, Caps(cfg.sourceLimit, counts), [], ks, p);
    AdmittedEnds([], ks, Consumed(t, now));
    BatchCount(cfg, t, now, slots, e, counts, tags, selected, pool, first, picks, p);
  }

  // ----- the states both designs start from are reached ---------------------------------------

  /** Ordered, and entered with the sources the articles have. */
  ghost function OrderedFor(src: string -> string): Guard {
    (cfg, s, step) => Ordered(cfg, s, step) && Sourced(src, step)
  }

  lemma {:induction false} RunOrderedFor(cfg: Config, s: Sys, steps: seq<Step>, src: string -> string)
    requires KeptInOrder(cfg, s) && ConsistentSys(s, src) && Run(cfg, s, steps, OrderedFor(src))
    ensures KeptInOrder(cfg, After(cfg, s, steps, OrderedFor(src))) && ConsistentSys(After(cfg, s, steps, OrderedFor(src)), src)
    decreases |steps|
  {
    if steps != [] {
      InOrderStep(cfg, s, steps[0]);
      ConsistentStep(cfg, s, steps[0], src);
      RunOrderedFor(cfg, Next(cfg, s, steps[0]), steps[1..], src);
    }
  }

  lemma FairWhenKept(cfg: Config, s: Sys, src: string -> string)
    requires KeptInOrder(cfg, s) && Consistent(s.db, src) && cfg.lease >= 0
    ensures FairStart(cfg, s.db, s.clock, src)
  {
    forall k | k in EligibleSlots(s.db, s.clock) ensures Newer(RecentRecords(s.db, s.clock), s.db.jobs[k]) {
      EligibleIsNewer(cfg, s, s.db.jobs[k]);
    }
  }

  /** Every state reached from an empty store in an ordered run with consistent sources is one from which
      draining and one batch claim admit equally many. */
  lemma FairStartReached(cfg: Config, s: Sys, steps: seq<Step>, src: string -> string)
    requires Fresh(s) && cfg.lease >= 0 && Run(cfg, s, steps, OrderedFor(src))
    ensures var s' := After(cfg, s, steps, OrderedFor(src)); FairStart(cfg, s'.db, s'.clock, src)
  {
    RunOrderedFor(cfg, s, steps, src);
    FairWhenKept(cfg, After(cfg, s, steps, OrderedFor(src)), src);
  }
}
