/** Heartbeat supervision with bounded, cooled-down recovery. */
module Supervision {
  import opened Base

  datatype HealthState = Healthy | Degraded | Failed

  datatype Policy = Policy(staleAfter: int, maxRecoveryAttempts: int, recoveryCooldown: int)

  /** What a recovery callback does; an exception counts as not recovered. */
  datatype Reply = Recovered | NotRecovered | Raised

  type Recover = string -> Reply

  /** A component was registered, or its recovery callback was called. */
  datatype Event = Registered(name: string, at: int) | Called(name: string, at: int, ok: bool)

  // ----- the supervision as functions -------------------------------------------------------

  datatype Beat = Beat(lastSeen: int, state: HealthState, attempts: int, error: bool)

  /** The heartbeats, the time of the last recovery attempt of each component, and what happened. */
  datatype Dog = Dog(beats: map<string, Beat>, last: map<string, int>, events: seq<Event>)

  function AfterRegister(d: Dog, name: string, now: int): Dog {
    Dog(d.beats[name := Beat(now, Healthy, 0, false)], d.last, d.events + [Registered(name, now)])
  }

  function AfterTouch(d: Dog, name: string, now: int): Dog {
    var e := if name in d.beats then d else AfterRegister(d, name, now);
    e.(beats := e.beats[name := Beat(now, Healthy, e.beats[name].attempts, false)])
  }

  /** May the recovery of a stale component be attempted? */
  predicate MayRecover(p: Policy, d: Dog, name: string, now: int)
    requires name in d.beats
  {
    && now - d.beats[name].lastSeen > p.staleAfter
    && d.beats[name].attempts < p.maxRecoveryAttempts
    && (name in d.last ==> now - d.last[name] >= p.recoveryCooldown)
  }

  /** A heartbeat after one more recovery attempt. */
  function Settled(p: Policy, b: Beat, now: int, reply: Reply): Beat {
    if reply == Recovered then Beat(now, Healthy, 0, false)
    else Beat(b.lastSeen, if b.attempts + 1 >= p.maxRecoveryAttempts then Failed else Degraded, b.attempts + 1,
              b.error || reply == Raised)
  }

  function AfterAttempt(p: Policy, d: Dog, name: string, now: int, reply: Reply): Dog
    requires name in d.beats
  {
    Dog(d.beats[name := Settled(p, d.beats[name], now, reply)],
        if reply == Recovered then d.last - {name} else d.last[name := now],
        d.events + [Called(name, now, reply == Recovered)])
  }

  function AfterInspect(p: Policy, d: Dog, name: string, now: int, recover: Option<Recover>): Dog
    requires name in d.beats
  {
    var b := d.beats[name];
    if now - b.lastSeen <= p.staleAfter then d
    else if recover.Some? && MayRecover(p, d, name, now) then AfterAttempt(p, d, name, now, recover.value(name))
    else
      var spent := recover.Some? && b.attempts >= p.maxRecoveryAttempts;
      d.(beats := d.beats[name := b.(state := if spent then Failed else Degraded)])
  }

  function AfterInspectUpTo(p: Policy, d: Dog, names: seq<string>, n: nat, now: int, recover: Option<Recover>): (r: Dog)
    requires n <= |names| && Elems(names) <= d.beats.Keys
    ensures r.beats.Keys == d.beats.Keys
  {
    if n == 0 then d
    else
      assert names[n - 1] in Elems(names);
      AfterInspect(p, AfterInspectUpTo(p, d, names, n - 1, now, recover), names[n - 1], now, recover)
  }

  // ----- the supervision as objects ----------------------------------------------------------

  class Heartbeat {
    const name: string
    var lastSeen: int
    var state: HealthState
    var recoveryAttempts: int
    var lastError: bool

    constructor (name: string, lastSeen: int)
      ensures this.name == name && Value() == Beat(lastSeen, Healthy, 0, false)
    {
      this.name, this.lastSeen, state, recoveryAttempts, lastError := name, lastSeen, Healthy, 0, false;
    }

    function Value(): Beat
      reads this
    {
      Beat(lastSeen, state, recoveryAttempts, lastError)
    }

    method Touch(when: int, resetRecovery: bool)
      modifies this
      ensures Value() == Beat(when, Healthy, if resetRecovery then 0 else old(recoveryAttempts), false)
    {
      lastSeen := when;
      state := Healthy;
      lastError := false;
      if resetRecovery {
        recoveryAttempts := 0;
      }
    }

    /** After a recovery attempt that was already counted. */
    method Settle(reply: Reply, current: int, limit: int)
      modifies this
      ensures Value() ==
        if reply == Recovered then Beat(current, Healthy, 0, false)
        else Beat(old(lastSeen), if old(recoveryAttempts) >= limit then Failed else Degraded, old(recoveryAttempts),
                  old(lastError) || reply == Raised)
    {
      state := Degraded;
      if reply == Raised {
        lastError := true;
      }
      if reply == Recovered {
        Touch(current, true);
      } else if recoveryAttempts >= limit {
        state := Failed;
      }
    }
  }

  class Watchdog {
    const policy: Policy
    var heartbeats: map<string, Heartbeat>
    var order: seq<string>
    var lastRecovery: map<string, int>
    ghost var parts: set<Heartbeat>
    ghost var beats: map<string, Beat>
    ghost var events: seq<Event>

    constructor (policy: Policy)
      ensures Valid() && this.policy == policy && Value() == Dog(map[], map[], [])
    {
      this.policy, heartbeats, order, lastRecovery := policy, map[], [], map[];
      parts, beats, events := {}, map[], [];
    }

    /** `beats` mirrors the heartbeat objects; `order` lists the components in order of registration. */
    ghost predicate Valid()
      reads this, parts
    {
      && heartbeats.Keys == beats.Keys == Elems(order) && Distinct(order)
      && (forall x :: x in heartbeats ==>
            heartbeats[x] in parts && heartbeats[x].name == x && heartbeats[x].Value() == beats[x])
    }

    ghost function Value(): Dog
      reads this
    {
      Dog(beats, lastRecovery, events)
    }

    /** An empty name is refused. */
    method Register(name: string, now: int) returns (ok: bool)
      requires Valid()
      modifies this
      ensures Valid() && ok == (name != "")
      ensures Value() == if ok then AfterRegister(old(Value()), name, now) else old(Value())
      ensures fresh(parts - old(parts)) && (ok ==> name in heartbeats)
    {
      ok := name != "";
      if ok {
        var heartbeat := new Heartbeat(name, now);
        Adopt(heartbeat);
        events := events + [Registered(name, now)];
      }
    }

    /** Setting the entry of a component, at its old place if it had one. */
    method Adopt(heartbeat: Heartbeat)
      requires Valid() && heartbeat !in parts
      modifies this`heartbeats, this`order, this`parts, this`beats
      ensures Valid() && parts == old(parts) + {heartbeat}
      ensures order == if heartbeat.name in old(order) then old(order) else old(order) + [heartbeat.name]
      ensures beats == old(beats)[heartbeat.name := heartbeat.Value()]
    {
      var name := heartbeat.name;
      if name !in order {
        NewComponent(order, name);
        order := order + [name];
      }
      heartbeats, parts, beats := heartbeats[name := heartbeat], parts + {heartbeat}, beats[name := heartbeat.Value()];
    }

    method Touch(name: string, now: int) returns (ok: bool)
      requires Valid()
      modifies this, parts
      ensures Valid() && ok == (name != "" || name in old(heartbeats))
      ensures Value() == if ok then AfterTouch(old(Value()), name, now) else old(Value())
    {
      ok := true;
      if name !in heartbeats {
        ok := Register(name, now);
      }
      if ok {
        Beating(name, now);
      }
    }

    method Beating(name: string, now: int)
      requires Valid() && name in heartbeats
      modifies this`beats, parts
      ensures Valid() && beats == old(beats)[name := Beat(now, Healthy, old(beats)[name].attempts, false)]
    {
      heartbeats[name].Touch(now, false);
      beats := beats[name := heartbeats[name].Value()];
    }

    /** One recovery attempt: it is counted and timed before the callback runs. */
    method TryRecover(name: string, current: int, recover: Recover)
      requires Valid() && name in heartbeats
      modifies this`lastRecovery, this`beats, this`events, parts
      ensures Valid() && Value() == AfterAttempt(policy, old(Value()), name, current, recover(name))
    {
      var heartbeat := heartbeats[name];
      ghost var last := lastRecovery;
      lastRecovery := lastRecovery[name := current];
      var reply := CountAndCall(heartbeat, current, recover);
      if reply == Recovered {
        lastRecovery := lastRecovery - {name};
        assert lastRecovery == last - {name};
      }
    }

    /** The callback and what it means for the heartbeat. */
    method CountAndCall(heartbeat: Heartbeat, current: int, recover: Recover) returns (reply: Reply)
      requires Valid() && heartbeat.name in heartbeats && heartbeats[heartbeat.name] == heartbeat
      modifies this`beats, this`events, parts
      ensures Valid() && reply == recover(heartbeat.name)
      ensures events == old(events) + [Called(heartbeat.name, current, reply == Recovered)]
      ensures beats == old(beats)[heartbeat.name := Settled(policy, old(heartbeat.Value()), current, reply)]
    {
      assert forall x :: x in heartbeats && x != heartbeat.name ==> heartbeats[x] != heartbeat;
      heartbeat.recoveryAttempts := heartbeat.recoveryAttempts + 1;
      reply := recover(heartbeat.name);
      heartbeat.Settle(reply, current, policy.maxRecoveryAttempts);
      beats := beats[heartbeat.name := heartbeat.Value()];
      events := events + [Called(heartbeat.name, current, reply == Recovered)];
    }

    method SetState(name: string, state: HealthState)
      requires Valid() && name in heartbeats
      modifies parts, this`beats
      ensures Valid() && beats == old(beats)[name := old(beats)[name].(state := state)]
    {
      heartbeats[name].state := state;
      beats := beats[name := heartbeats[name].Value()];
    }

    /** Inspecting one component. */
    method InspectOne(name: string, current: int, recover: Option<Recover>)
      requires Valid() && name in heartbeats
      modifies this`lastRecovery, this`beats, this`events, parts
      ensures Valid() && Value() == AfterInspect(policy, old(Value()), name, current, recover)
      ensures order == old(order) && parts == old(parts)
    {
      if current - heartbeats[name].lastSeen <= policy.staleAfter {
        return;
      }
      if recover.None? {
        SetState(name, Degraded);
      } else if heartbeats[name].recoveryAttempts >= policy.maxRecoveryAttempts {
        SetState(name, Failed);
      } else if name in lastRecovery && current - lastRecovery[name] < policy.recoveryCooldown {
        SetState(name, Degraded);
      } else {
        TryRecover(name, current, recover.value);
      }
    }

    method Inspect(current: int, recover: Option<Recover>)
      requires Valid()
      modifies this`lastRecovery, this`beats, this`events, parts
      ensures Valid()
      ensures Value() == AfterInspectUpTo(policy, old(Value()), order, |order|, current, recover)
    {
      ghost var d, names := Value(), order;
      for n := 0 to |order|
        invariant order == names && parts == old(parts)
        invariant Valid() && Value() == AfterInspectUpTo(policy, d, names, n, current, recover)
      {
        var name := order[n];
        assert name in Elems(order);
        InspectStep(policy, d, names, n, current, recover);
        InspectOne(name, current, recover);
      }
    }
  }

  lemma NewComponent(order: seq<string>, name: string)
    requires Distinct(order) && name !in order
    ensures Distinct(order + [name]) && Elems(order + [name]) == Elems(order) + {name}
  {
  }

  lemma InspectStep(p: Policy, d: Dog, names: seq<string>, n: nat, now: int, recover: Option<Recover>)
    requires n < |names| && Elems(names) <= d.beats.Keys
    ensures names[n] in d.beats && names[n] in AfterInspectUpTo(p, d, names, n, now, recover).beats
    ensures AfterInspectUpTo(p, d, names, n + 1, now, recover) ==
      AfterInspect(p, AfterInspectUpTo(p, d, names, n, now, recover), names[n], now, recover)
  {
    assert names[n] in Elems(names);
  }

  // ----- one inspection, component by component -----------------------------------------------

  /** How often the recovery of a component was called. */
  function Calls(events: seq<Event>, name: string): nat {
    if events == [] then 0
    else
      var n := |events| - 1;
      Calls(events[..n], name) + if events[n].Called? && events[n].name == name then 1 else 0
  }

  lemma CallsAdd(events: seq<Event>, e: Event, name: string)
    ensures Calls(events + [e], name) == Calls(events, name) + if e.Called? && e.name == name then 1 else 0
  {
    assert (events + [e])[..|events|] == events;
  }

  /** The states agree on one component. */
  predicate AgreeOn(d: Dog, d': Dog, x: string) {
    && x in d.beats && x in d'.beats && d'.beats[x] == d.beats[x]
    && (x in d.last <==> x in d'.last) && (x in d.last ==> d'.last[x] == d.last[x])
    && Calls(d'.events, x) == Calls(d.events, x)
  }

  lemma AttemptOnOthers(p: Policy, d: Dog, name: string, now: int, reply: Reply, x: string)
    requires name in d.beats && x in d.beats && x != name
    ensures AgreeOn(d, AfterAttempt(p, d, name, now, reply), x)
  {
    var d' := AfterAttempt(p, d, name, now, reply);
    assert d'.events == d.events + [Called(name, now, reply == Recovered)];
    CallsAdd(d.events, Called(name, now, reply == Recovered), x);
    LastElsewhere(d.last, name, now, reply, x);
  }

  lemma LastElsewhere(last: map<string, int>, name: string, now: int, reply: Reply, x: string)
    requires x != name
    ensures var last' := if reply == Recovered then last - {name} else last[name := now];
      (x in last' <==> x in last) && (x in last ==> last'[x] == last[x])
  {
  }

  lemma InspectOthers(p: Policy, d: Dog, name: string, now: int, recover: Option<Recover>, x: string)
    requires name in d.beats && x in d.beats && x != name
    ensures AgreeOn(d, AfterInspect(p, d, name, now, recover), x)
  {
    if recover.Some? && MayRecover(p, d, name, now) {
      AttemptOnOthers(p, d, name, now, recover.value(name), x);
    }
  }

  lemma AttemptAlike(p: Policy, d: Dog, d': Dog, name: string, now: int, reply: Reply)
    requires AgreeOn(d, d', name)
    ensures AgreeOn(AfterAttempt(p, d, name, now, reply), AfterAttempt(p, d', name, now, reply), name)
  {
    CallsAdd(d.events, Called(name, now, reply == Recovered), name);
    CallsAdd(d'.events, Called(name, now, reply == Recovered), name);
  }

  lemma InspectAlike(p: Policy, d: Dog, d': Dog, name: string, now: int, recover: Option<Recover>)
    requires AgreeOn(d, d', name)
    ensures AgreeOn(AfterInspect(p, d, name, now, recover), AfterInspect(p, d', name, now, recover), name)
  {
    if recover.Some? && MayRecover(p, d, name, now) {
      AttemptAlike(p, d, d', name, now, recover.value(name));
    }
  }

  lemma AgreeChain(d: Dog, d': Dog, d'': Dog, x: string)
    requires AgreeOn(d, d', x) && AgreeOn(d', d'', x)
    ensures AgreeOn(d, d'', x)
  {
  }

  /** Every component is inspected as if it were the only one. */
  lemma {:induction false} InspectedAlone(p: Policy, d: Dog, names: seq<string>, n: nat, now: int, recover: Option<Recover>, x: string)
    requires Distinct(names) && n <= |names| && Elems(names) <= d.beats.Keys && x in d.beats
    ensures AgreeOn(if x in names[..n] then AfterInspect(p, d, x, now, recover) else d,
                    AfterInspectUpTo(p, d, names, n, now, recover), x)
  {
    if n > 0 {
      var mid := AfterInspectUpTo(p, d, names, n - 1, now, recover);
      InspectedAlone(p, d, names, n - 1, now, recover, x);
      InspectStep(p, d, names, n - 1, now, recover);
      assert names[..n] == names[..n - 1] + [names[n - 1]];
      if names[n - 1] == x {
        assert x !in names[..n - 1];
        InspectAlike(p, d, mid, x, now, recover);
      } else {
        InspectOthers(p, mid, names[n - 1], now, recover, x);
        AgreeChain(if x in names[..n] then AfterInspect(p, d, x, now, recover) else d, mid,
                   AfterInspectUpTo(p, d, names, n, now, recover), x);
      }
    }
  }

  /** Nothing about the component has changed but perhaps its state. */
  predicate OnlyState(d: Dog, d': Dog, x: string, state: HealthState)
    requires x in d.beats
  {
    && x in d'.beats && d'.beats[x] == d.beats[x].(state := state)
    && (x in d'.last <==> x in d.last) && (x in d.last ==> d'.last[x] == d.last[x])
    && Calls(d'.events, x) == Calls(d.events, x)
  }

  /** What an inspection does to each component. One seen lately stays as it is. A stale one is degraded
      without a callback, failed with its attempts used up, and degraded while it cools down. Otherwise its
      recovery is called, once: if it succeeds, the component is healthy, seen now, with no attempts and no
      recovery time; if not, the attempt is counted and timed, and the last one allowed makes it fail. */
  lemma InspectsExactly(p: Policy, d: Dog, names: seq<string>, now: int, recover: Option<Recover>, x: string)
    requires Distinct(names) && Elems(names) <= d.beats.Keys && x in names
    ensures
      var d', b := AfterInspectUpTo(p, d, names, |names|, now, recover), d.beats[x];
      if now - b.lastSeen <= p.staleAfter then OnlyState(d, d', x, b.state)
      else if recover.None? then OnlyState(d, d', x, Degraded)
      else if b.attempts >= p.maxRecoveryAttempts then OnlyState(d, d', x, Failed)
      else if x in d.last && now - d.last[x] < p.recoveryCooldown then OnlyState(d, d', x, Degraded)
      else
        && x in d'.beats && Calls(d'.events, x) == Calls(d.events, x) + 1
        && if recover.value(x) == Recovered then
             && d'.beats[x].state == Healthy && d'.beats[x].lastSeen == now && d'.beats[x].attempts == 0
             && !d'.beats[x].error && x !in d'.last
           else
             && d'.beats[x].state == (if b.attempts + 1 >= p.maxRecoveryAttempts then Failed else Degraded)
             && d'.beats[x].lastSeen == b.lastSeen && d'.beats[x].attempts == b.attempts + 1
             && d'.beats[x].error == (b.error || recover.value(x) == Raised) && x in d'.last && d'.last[x] == now
  {
    assert x in Elems(names);
    assert names[..|names|] == names;
    InspectedAlone(p, d, names, |names|, now, recover, x);
    if recover.Some? {
      CallsAdd(d.events, Called(x, now, recover.value(x) == Recovered), x);
    }
  }

  /** A touch makes a component healthy and clears its error; it keeps the attempts counted and the time
      of the last one. */
  lemma TouchKeeps(d: Dog, name: string, now: int)
    ensures var t := AfterTouch(d, name, now);
      && name in t.beats && t.last == d.last && Calls(t.events, name) == Calls(d.events, name)
      && t.beats[name].state == Healthy && t.beats[name].lastSeen == now && !t.beats[name].error
      && t.beats[name].attempts == (if name in d.beats then d.beats[name].attempts else 0)
  {
    CallsAdd(d.events, Registered(name, now), name);
  }

  /** A registration starts a component afresh, also one that is registered already, and keeps the time of
      its last recovery attempt. */
  lemma RegisterStarts(d: Dog, name: string, now: int)
    ensures var t := AfterRegister(d, name, now);
      && name in t.beats && t.last == d.last && t.beats == d.beats[name := t.beats[name]]
      && t.beats[name].state == Healthy && t.beats[name].lastSeen == now && t.beats[name].attempts == 0 && !t.beats[name].error
  {
  }

  /** Until a component is stale, inspections leave it alone, whatever the others do. */
  lemma SeenIsSpared(p: Policy, d: Dog, names: seq<string>, now: int, recover: Option<Recover>, x: string)
    requires Distinct(names) && Elems(names) <= d.beats.Keys && x in d.beats && now - d.beats[x].lastSeen <= p.staleAfter
    ensures AgreeOn(d, AfterInspectUpTo(p, d, names, |names|, now, recover), x)
  {
    InspectedAlone(p, d, names, |names|, now, recover, x);
  }

  // ----- bounded recovery over every run -----------------------------------------------------

  /** Unsuccessful callbacks of a component since it was last registered or recovered. */
  function Since(events: seq<Event>, name: string): nat {
    if events == [] then 0
    else
      var n := |events| - 1;
      if events[n].name != name then Since(events[..n], name)
      else if events[n].Registered? || events[n].ok then 0
      else 1 + Since(events[..n], name)
  }

  lemma SinceAdd(events: seq<Event>, e: Event, name: string)
    ensures Since(events + [e], name) ==
      if e.name != name then Since(events, name) else if e.Registered? || e.ok then 0 else 1 + Since(events, name)
  {
    assert (events + [e])[..|events|] == events;
  }

  predicate IsCall(events: seq<Event>, i: int, name: string) { 0 <= i < |events| && events[i].Called? && events[i].name == name }

  /** Every callback is made with the budget not yet used up. */
  ghost predicate WithinBudget(p: Policy, events: seq<Event>) {
    forall i :: 0 <= i < |events| && events[i].Called? ==> Since(events[..i], events[i].name) < p.maxRecoveryAttempts
  }

  /** Two callbacks for one component are some time apart. */
  ghost predicate SpacedOut(p: Policy, events: seq<Event>) {
    forall i, j :: 0 <= i < j < |events| && events[i].Called? && events[j].Called? && events[i].name == events[j].name
      ==> events[j].at - events[i].at >= Min(p.recoveryCooldown, p.staleAfter)
  }

  /** The time from which the next callback of a component is measured. */
  function Mark(d: Dog, name: string): int
    requires name in d.beats
  {
    if name in d.last then d.last[name] else d.beats[name].lastSeen
  }

  ghost predicate Tracked(p: Policy, d: Dog, clock: int, name: string)
    requires name in d.beats
  {
    var b := d.beats[name];
    && b.attempts == Since(d.events, name)
    && (b.state == Failed ==> b.attempts >= p.maxRecoveryAttempts)
    && b.lastSeen <= clock && Mark(d, name) <= clock
    && (forall i :: IsCall(d.events, i, name) ==> d.events[i].at <= Mark(d, name))
  }

  ghost predicate Sound(p: Policy, d: Dog, clock: int) {
    && (forall i :: 0 <= i < |d.events| ==> d.events[i].name in d.beats)
    && (forall x :: x in d.last ==> x in d.beats)
    && (forall x :: x in d.beats ==> Tracked(p, d, clock, x))
    && WithinBudget(p, d.events) && SpacedOut(p, d.events)
  }

  lemma Later(p: Policy, d: Dog, clock: int, now: int)
    requires Sound(p, d, clock) && clock <= now
    ensures Sound(p, d, now)
  {
  }

  /** One more event leaves the other components' bookkeeping alone. */
  lemma OthersTracked(p: Policy, d: Dog, d': Dog, now: int, e: Event, x: string)
    requires x in d.beats && Tracked(p, d, now, x) && x != e.name && d'.events == d.events + [e]
    requires x in d'.beats && d'.beats[x] == d.beats[x] && (x in d.last <==> x in d'.last)
    requires x in d.last ==> d'.last[x] == d.last[x]
    ensures Tracked(p, d', now, x)
  {
    SinceAdd(d.events, e, x);
    forall i | IsCall(d'.events, i, x) ensures d'.events[i].at <= Mark(d', x) {
      assert IsCall(d.events, i, x);
    }
  }

  lemma RegisterSound(p: Policy, d: Dog, now: int, name: string)
    requires Sound(p, d, now)
    ensures Sound(p, AfterRegister(d, name, now), now)
  {
    var e, d' := Registered(name, now), AfterRegister(d, name, now);
    SinceAdd(d.events, e, name);
    forall x | x in d'.beats ensures Tracked(p, d', now, x) {
      if x != name {
        OthersTracked(p, d, d', now, e, x);
      } else {
        forall i | IsCall(d'.events, i, name) ensures d'.events[i].at <= Mark(d', name) {
          assert IsCall(d.events, i, name) && Tracked(p, d, now, name);
        }
      }
    }
    assert forall i :: 0 <= i < |d.events| ==> d'.events[..i] == d.events[..i];
  }

  lemma TouchSound(p: Policy, d: Dog, now: int, name: string)
    requires Sound(p, d, now)
    ensures Sound(p, AfterTouch(d, name, now), now)
  {
    var e := if name in d.beats then d else AfterRegister(d, name, now);
    if name !in d.beats {
      RegisterSound(p, d, now, name);
    }
    BeatSound(p, e, now, name);
  }

  lemma BeatSound(p: Policy, e: Dog, now: int, name: string)
    requires Sound(p, e, now) && name in e.beats
    ensures Sound(p, e.(beats := e.beats[name := Beat(now, Healthy, e.beats[name].attempts, false)]), now)
  {
    var d' := e.(beats := e.beats[name := Beat(now, Healthy, e.beats[name].attempts, false)]);
    assert Tracked(p, e, now, name);
    forall x | x in d'.beats ensures Tracked(p, d', now, x) {
      assert Tracked(p, e, now, x);
    }
  }

  /** The budget and the spacing at the moment of a callback. */
  lemma CallInTime(p: Policy, d: Dog, now: int, name: string, ok: bool)
    requires Sound(p, d, now) && name in d.beats && MayRecover(p, d, name, now)
    ensures WithinBudget(p, d.events + [Called(name, now, ok)]) && SpacedOut(p, d.events + [Called(name, now, ok)])
  {
    var events := d.events + [Called(name, now, ok)];
    assert Tracked(p, d, now, name);
    assert events[..|d.events|] == d.events;
    assert forall i :: 0 <= i < |d.events| ==> events[..i] == d.events[..i];
    forall i | 0 <= i < |d.events| && d.events[i].Called? && d.events[i].name == name
      ensures now - d.events[i].at >= Min(p.recoveryCooldown, p.staleAfter)
    {
      assert IsCall(d.events, i, name);
    }
  }

  lemma AttemptSound(p: Policy, d: Dog, now: int, name: string, reply: Reply)
    requires Sound(p, d, now) && name in d.beats && MayRecover(p, d, name, now)
    ensures Sound(p, AfterAttempt(p, d, name, now, reply), now)
  {
    var e, d' := Called(name, now, reply == Recovered), AfterAttempt(p, d, name, now, reply);
    SinceAdd(d.events, e, name);
    CallInTime(p, d, now, name, reply == Recovered);
    forall x | x in d'.beats ensures Tracked(p, d', now, x) {
      if x != name {
        OthersTracked(p, d, d', now, e, x);
      } else {
        assert Tracked(p, d, now, name);
        forall i | IsCall(d'.events, i, name) ensures d'.events[i].at <= Mark(d', name) {
          assert i < |d.events| ==> IsCall(d.events, i, name);
        }
      }
    }
  }

  lemma InspectSound(p: Policy, d: Dog, now: int, name: string, recover: Option<Recover>)
    requires Sound(p, d, now) && name in d.beats
    ensures Sound(p, AfterInspect(p, d, name, now, recover), now)
  {
    assert Tracked(p, d, now, name);
    if now - d.beats[name].lastSeen > p.staleAfter {
      if recover.Some? && MayRecover(p, d, name, now) {
        AttemptSound(p, d, now, name, recover.value(name));
      } else {
        var d' := AfterInspect(p, d, name, now, recover);
        forall x | x in d'.beats ensures Tracked(p, d', now, x) {
          assert Tracked(p, d, now, x);
        }
      }
    }
  }

  lemma StepSound(p: Policy, d: Dog, now: int, names: seq<string>, n: nat, recover: Option<Recover>)
    requires 0 < n <= |names| && Elems(names) <= d.beats.Keys && Sound(p, AfterInspectUpTo(p, d, names, n - 1, now, recover), now)
    ensures Sound(p, AfterInspectUpTo(p, d, names, n, now, recover), now)
  {
    InspectStep(p, d, names, n - 1, now, recover);
    InspectSound(p, AfterInspectUpTo(p, d, names, n - 1, now, recover), now, names[n - 1], recover);
  }

  lemma {:induction false} InspectUpToSound(p: Policy, d: Dog, now: int, names: seq<string>, n: nat, recover: Option<Recover>)
    requires Sound(p, d, now) && n <= |names| && Elems(names) <= d.beats.Keys
    ensures Sound(p, AfterInspectUpTo(p, d, names, n, now, recover), now)
  {
    if n > 0 {
      InspectUpToSound(p, d, now, names, n - 1, recover);
      StepSound(p, d, now, names, n, recover);
    }
  }

  datatype Action = Registering(name: string) | Touching(name: string) | Inspecting(names: seq<string>, recover: Option<Recover>)

  /** Any sequence of calls, none earlier than the one before. */
  ghost predicate Run(p: Policy, d: Dog, clock: int, actions: seq<(int, Action)>)
    decreases |actions|
  {
    actions != [] ==>
      clock <= actions[0].0
      && (actions[0].1.Inspecting? ==> Elems(actions[0].1.names) <= d.beats.Keys)
      && Run(p, Does(p, d, actions[0].0, actions[0].1), actions[0].0, actions[1..])
  }

  function Does(p: Policy, d: Dog, now: int, action: Action): Dog {
    match action
    case Registering(name) => AfterRegister(d, name, now)
    case Touching(name) => AfterTouch(d, name, now)
    case Inspecting(names, recover) =>
      if Elems(names) <= d.beats.Keys then AfterInspectUpTo(p, d, names, |names|, now, recover) else d
  }

  function Finally(p: Policy, d: Dog, actions: seq<(int, Action)>): Dog
    decreases |actions|
  {
    if actions == [] then d else Finally(p, Does(p, d, actions[0].0, actions[0].1), actions[1..])
  }

  lemma {:induction false} RunSound(p: Policy, d: Dog, clock: int, actions: seq<(int, Action)>) returns (end: int)
    requires Sound(p, d, clock) && Run(p, d, clock, actions)
    ensures Sound(p, Finally(p, d, actions), end)
    decreases |actions|
  {
    if actions == [] {
      end := clock;
    } else {
      var (now, action) := actions[0];
      Later(p, d, clock, now);
      match action {
        case Registering(name) => RegisterSound(p, d, now, name);
        case Touching(name) => TouchSound(p, d, now, name);
        case Inspecting(names, recover) => InspectUpToSound(p, d, now, names, |names|, recover);
      }
      end := RunSound(p, Does(p, d, now, action), now, actions[1..]);
    }
  }

  /** Recovery is bounded in every run: each callback for a component is preceded by fewer than the
      allowed number of failed ones since it was last registered or recovered; two callbacks for it
      are at least the smaller of cooldown and staleness apart; and a failed component has used up
      its budget. */
  lemma BoundedRecovery(p: Policy, clock: int, actions: seq<(int, Action)>)
    requires Run(p, Dog(map[], map[], []), clock, actions)
    ensures var d := Finally(p, Dog(map[], map[], []), actions);
      && WithinBudget(p, d.events) && SpacedOut(p, d.events)
      && (forall x :: x in d.beats && d.beats[x].state == Failed ==> Since(d.events, x) >= p.maxRecoveryAttempts)
      && (forall x :: x in d.beats ==> Since(d.events, x) <= Max(0, p.maxRecoveryAttempts))
  {
    var end := RunSound(p, Dog(map[], map[], []), clock, actions);
    var d := Finally(p, Dog(map[], map[], []), actions);
    forall x | x in d.beats
      ensures d.beats[x].state == Failed ==> Since(d.events, x) >= p.maxRecoveryAttempts
      ensures Since(d.events, x) <= Max(0, p.maxRecoveryAttempts)
    {
      assert Tracked(p, d, end, x);
      SinceBounded(p, d.events, x);
    }
  }

  lemma {:induction false} SinceBounded(p: Policy, events: seq<Event>, name: string)
    requires WithinBudget(p, events)
    ensures Since(events, name) <= Max(0, p.maxRecoveryAttempts)
  {
    if events != [] {
      var n := |events| - 1;
      assert forall i :: 0 <= i < n ==> events[..n][..i] == events[..i];
      SinceBounded(p, events[..n], name);
    }
  }
}
