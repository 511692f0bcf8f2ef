/** The direct publishing path: independent destinations, each with its own retries, a delivery
    record and keys for the versions it has been sent. */
module Orchestrator {
  import opened Base
  import opened Tables
  import opened Reliability

  datatype PublishResult = PublishResult(destination: string, success: bool, skipped: bool)

  /** A successful send: to whom, and at which update time if the article had one. */
  datatype Sent = Sent(slot: Slot, version: Option<int>)

  datatype Outlet = Outlet(name: string, replies: Replies, limit: nat)

  /** The durable state, the calls made to each publisher, and the successful sends so far. */
  datatype Desk = Desk(keys: set<Key>, history: map<Slot, Record>, calls: seq<nat>, log: seq<Sent>)

  predicate AlreadySent(keys: set<Key>, a: Article, destination: string) {
    var k := Slot(a.id, destination);
    if a.updatedAt.Some? then Update(k, a.updatedAt.value) in keys else Legacy(k) in keys
  }

  function SentKeys(a: Article, k: Slot): set<Key> {
    {Legacy(k)} + if a.updatedAt.Some? then {Update(k, a.updatedAt.value)} else {}
  }

  predicate Fits(outlets: seq<Outlet>, s: Desk) {
    |s.calls| == |outlets| && forall i :: 0 <= i < |outlets| ==> outlets[i].limit >= 1
  }

  /** The state after a send that took so many tries. */
  function AfterSend(s: Desk, i: nat, k: Slot, a: Article, ok: bool, tries: nat, now: int): Desk
    requires i < |s.calls|
  {
    Desk(if ok then s.keys + SentKeys(a, k) else s.keys,
         s.history[k := Record(k, ok, tries, now)],
         s.calls[i := s.calls[i] + tries],
         if ok then s.log + [Sent(k, a.updatedAt)] else s.log)
  }

  /** Publishing an article to one destination. */
  function PublishTo(outlets: seq<Outlet>, s: Desk, i: nat, a: Article, now: int): (r: Desk)
    requires Fits(outlets, s) && i < |outlets|
    ensures Fits(outlets, r)
  {
    var outlet := outlets[i];
    if AlreadySent(s.keys, a, outlet.name) then s
    else AfterSend(s, i, Slot(a.id, outlet.name), a, Succeeds(outlet.replies, s.calls[i], outlet.limit),
                   Tries(outlet.replies, s.calls[i], outlet.limit), now)
  }

  function ResultOf(outlets: seq<Outlet>, s: Desk, i: nat, a: Article): PublishResult
    requires Fits(outlets, s) && i < |outlets|
  {
    var skip := AlreadySent(s.keys, a, outlets[i].name);
    PublishResult(outlets[i].name, skip || Succeeds(outlets[i].replies, s.calls[i], outlets[i].limit), skip)
  }

  /** Publishing an article to the first n destinations, in order. */
  function PublishUpTo(outlets: seq<Outlet>, s: Desk, n: nat, a: Article, now: int): (r: Desk)
    requires Fits(outlets, s) && n <= |outlets|
    ensures Fits(outlets, r)
  {
    if n == 0 then s else PublishTo(outlets, PublishUpTo(outlets, s, n - 1, a, now), n - 1, a, now)
  }

  function ResultsUpTo(outlets: seq<Outlet>, s: Desk, n: nat, a: Article, now: int): (r: seq<PublishResult>)
    requires Fits(outlets, s) && n <= |outlets|
    ensures |r| == n
  {
    if n == 0 then []
    else ResultsUpTo(outlets, s, n - 1, a, now) + [ResultOf(outlets, PublishUpTo(outlets, s, n - 1, a, now), n - 1, a)]
  }

  class PublishingOrchestrator {
    const store: Store
    const publishers: seq<ReliablePublisher>
    ghost var log: seq<Sent>

    constructor (store: Store, publishers: seq<ReliablePublisher>)
      ensures this.store == store && this.publishers == publishers && log == []
    {
      this.store, this.publishers, log := store, publishers, [];
    }

    /** Every publisher has a wrapper of its own. */
    ghost predicate Valid()
    {
      forall i, j :: 0 <= i < j < |publishers| ==>
        publishers[i] != publishers[j] && publishers[i].publisher != publishers[j].publisher
    }

    ghost function Wrappers(): set<ReliablePublisher> { set p | p in publishers }

    ghost function Wrapped(): set<Publisher> { set p | p in publishers :: p.publisher }

    ghost function Outlets(): seq<Outlet> {
      seq(|publishers|, i requires 0 <= i < |publishers| =>
        Outlet(publishers[i].publisher.name, publishers[i].publisher.replies, publishers[i].policy.Attempts()))
    }

    ghost function State(): (s: Desk)
      reads this, store, Wrapped()
      ensures Fits(Outlets(), s)
    {
      Desk(store.keys, store.history, Calls(|publishers|), log)
    }

    ghost function Calls(n: nat): (c: seq<nat>)
      requires n <= |publishers|
      reads Wrapped()
      ensures |c| == n && forall i :: 0 <= i < n ==> c[i] == publishers[i].publisher.calls
    {
      if n == 0 then [] else
        assert publishers[n - 1] in publishers;
        Calls(n - 1) + [publishers[n - 1].publisher.calls]
    }

    /** Calling one publisher, with its retries, leaves the others' counts alone. */
    method Call(i: nat) returns (success: bool, attempts: nat)
      requires Valid() && i < |publishers|
      modifies Wrappers(), Wrapped()
      ensures var outlet, c := Outlets()[i], old(publishers[i].publisher.calls);
        attempts == Tries(outlet.replies, c, outlet.limit) && success == Succeeds(outlet.replies, c, outlet.limit)
      ensures Calls(|publishers|) == old(Calls(|publishers|))[i := old(publishers[i].publisher.calls) + attempts]
    {
      assert publishers[i] in publishers;
      ghost var before := Calls(|publishers|);
      var slept;
      success, slept := publishers[i].Publish();
      attempts := publishers[i].attempts;
      forall j | 0 <= j < |publishers| && j != i ensures publishers[j].publisher.calls == before[j] {
        assert publishers[j].publisher != publishers[i].publisher;
      }
    }

    /** The record and, after a success, the keys of one send. */
    method RecordSend(a: Article, k: Slot, success: bool, attempts: nat, now: int)
      modifies store`keys, store`history, this`log
      ensures store.history == old(store.history)[k := Record(k, success, attempts, now)]
      ensures store.keys == if success then old(store.keys) + SentKeys(a, k) else old(store.keys)
      ensures log == if success then old(log) + [Sent(k, a.updatedAt)] else old(log)
    {
      store.Add(Record(k, success, attempts, now));
      if success {
        if a.updatedAt.Some? {
          store.Mark(Update(k, a.updatedAt.value));
        }
        store.Mark(Legacy(k));
        log := log + [Sent(k, a.updatedAt)];
      }
    }

    method PublishOne(i: nat, a: Article, now: int) returns (result: PublishResult)
      requires Valid() && i < |publishers|
      modifies store`keys, store`history, this`log, Wrappers(), Wrapped()
      ensures State() == PublishTo(Outlets(), old(State()), i, a, now)
      ensures result == ResultOf(Outlets(), old(State()), i, a)
      ensures var k := Slot(a.id, publishers[i].publisher.name);
        && result.destination == k.destination
        && (result.skipped <==> if a.updatedAt.Some? then Update(k, a.updatedAt.value) in old(store.keys) else Legacy(k) in old(store.keys))
    {
      var destination := publishers[i].publisher.name;
      var k := Slot(a.id, destination);
      var alreadyPublished := a.updatedAt.Some? && Update(k, a.updatedAt.value) in store.keys;
      var unchangedLegacy := a.updatedAt.None? && Legacy(k) in store.keys;
      if alreadyPublished || unchangedLegacy {
        return PublishResult(destination, true, true);
      }
      result := SendOne(i, a, now);
    }

    method SendOne(i: nat, a: Article, now: int) returns (result: PublishResult)
      requires Valid() && i < |publishers| && !AlreadySent(store.keys, a, publishers[i].publisher.name)
      modifies store`keys, store`history, this`log, Wrappers(), Wrapped()
      ensures State() == PublishTo(Outlets(), old(State()), i, a, now)
      ensures result == ResultOf(Outlets(), old(State()), i, a)
    {
      var k := Slot(a.id, publishers[i].publisher.name);
      ghost var s, target := State(), PublishTo(Outlets(), State(), i, a, now);
      var success, attempts := Call(i);
      ghost var called := Calls(|publishers|);
      assert called == target.calls;
      RecordSend(a, k, success, attempts, now);
      assert Calls(|publishers|) == called;
      assert store.keys == target.keys && store.history == target.history && log == target.log;
      result := PublishResult(k.destination, success, false);
    }

    method Publish(a: Article, now: int) returns (results: seq<PublishResult>)
      requires Valid()
      modifies store`keys, store`history, this`log, Wrappers(), Wrapped()
      ensures State() == PublishUpTo(Outlets(), old(State()), |publishers|, a, now)
      ensures results == ResultsUpTo(Outlets(), old(State()), |publishers|, a, now)
    {
      results := [];
      ghost var outlets, before := Outlets(), State();
      for i := 0 to |publishers|
        invariant State() == PublishUpTo(outlets, before, i, a, now)
        invariant results == ResultsUpTo(outlets, before, i, a, now)
      {
        var result := PublishOne(i, a, now);
        results := results + [result];
      }
    }
  }

  // ----- at most once per version ------------------------------------------------------------

  /** Every successful send has left its keys. */
  ghost predicate Keyed(s: Desk) {
    forall x :: x in s.log ==>
      Legacy(x.slot) in s.keys && (x.version.Some? ==> Update(x.slot, x.version.value) in s.keys)
  }

  /** Of two sends of one article to one destination, the later one has an update time, and another
      one than the earlier. */
  ghost predicate OnceEach(log: seq<Sent>) {
    forall i, j :: 0 <= i < j < |log| && log[i].slot == log[j].slot ==> log[j].version.Some? && log[j].version != log[i].version
  }

  lemma OnceStep(outlets: seq<Outlet>, s: Desk, i: nat, a: Article, now: int)
    requires Fits(outlets, s) && i < |outlets| && Keyed(s) && OnceEach(s.log)
    ensures Keyed(PublishTo(outlets, s, i, a, now)) && OnceEach(PublishTo(outlets, s, i, a, now).log)
  {
    var r := PublishTo(outlets, s, i, a, now);
    if r.log != s.log {
      var x := Sent(Slot(a.id, outlets[i].name), a.updatedAt);
      forall j | 0 <= j < |s.log| && s.log[j].slot == x.slot ensures x.version.Some? && x.version != s.log[j].version {
        assert s.log[j] in s.log;
      }
    }
  }

  lemma {:induction false} OnceUpTo(outlets: seq<Outlet>, s: Desk, n: nat, a: Article, now: int)
    requires Fits(outlets, s) && n <= |outlets| && Keyed(s) && OnceEach(s.log)
    ensures Keyed(PublishUpTo(outlets, s, n, a, now)) && OnceEach(PublishUpTo(outlets, s, n, a, now).log)
  {
    if n > 0 {
      OnceUpTo(outlets, s, n - 1, a, now);
      OnceStep(outlets, PublishUpTo(outlets, s, n - 1, a, now), n - 1, a, now);
    }
  }

  datatype Issue = Issue(article: Article, at: int)

  /** Any sequence of articles, each published to all destinations. */
  function PublishRun(outlets: seq<Outlet>, s: Desk, issues: seq<Issue>): (r: Desk)
    requires Fits(outlets, s)
    ensures Fits(outlets, r)
  {
    if issues == [] then s
    else
      var n := |issues| - 1;
      PublishUpTo(outlets, PublishRun(outlets, s, issues[..n]), |outlets|, issues[n].article, issues[n].at)
  }

  /** Over any sequence of publish calls each destination succeeds at most once per update time of an
      article, and an article without one is never sent after any success. */
  lemma {:induction false} SentOnce(outlets: seq<Outlet>, s: Desk, issues: seq<Issue>)
    requires Fits(outlets, s) && Keyed(s) && OnceEach(s.log)
    ensures Keyed(PublishRun(outlets, s, issues)) && OnceEach(PublishRun(outlets, s, issues).log)
  {
    if issues != [] {
      var n := |issues| - 1;
      SentOnce(outlets, s, issues[..n]);
      OnceUpTo(outlets, PublishRun(outlets, s, issues[..n]), |outlets|, issues[n].article, issues[n].at);
    }
  }

  /** A send that is not skipped records the calls it made: all but the last failed, the last decides,
      and without a success the limit was used up. */
  lemma RecordedAttempts(outlets: seq<Outlet>, s: Desk, i: nat, a: Article, now: int)
    requires Fits(outlets, s) && i < |outlets| && !AlreadySent(s.keys, a, outlets[i].name)
    ensures var r, k, c := PublishTo(outlets, s, i, a, now), Slot(a.id, outlets[i].name), s.calls[i];
      && k in r.history && r.history[k].attempts == r.calls[i] - c && 1 <= r.history[k].attempts <= outlets[i].limit
      && (forall j :: c <= j < r.calls[i] - 1 ==> !outlets[i].replies(j))
      && (r.history[k].success <==> outlets[i].replies(r.calls[i] - 1))
      && (!r.history[k].success ==> r.history[k].attempts == outlets[i].limit)
  {
    TriesStopAtSuccess(outlets[i].replies, s.calls[i], outlets[i].limit);
  }

  // ----- skipped exactly what was sent --------------------------------------------------------

  predicate SentBefore(log: seq<Sent>, k: Slot, j: int) { 0 <= j < |log| && log[j].slot == k }

  /** Every key was left by a successful send. */
  ghost predicate Logged(s: Desk) {
    && (forall k, u :: Update(k, u) in s.keys ==> Sent(k, Some(u)) in s.log)
    && (forall k :: Legacy(k) in s.keys ==> exists j :: SentBefore(s.log, k, j))
  }

  lemma LoggedSend(s: Desk, i: nat, k: Slot, a: Article, ok: bool, tries: nat, now: int)
    requires i < |s.calls| && Logged(s)
    ensures Logged(AfterSend(s, i, k, a, ok, tries, now))
  {
    var r := AfterSend(s, i, k, a, ok, tries, now);
    if ok {
      assert r.log[|s.log|] == Sent(k, a.updatedAt);
      forall x | Legacy(x) in r.keys ensures exists j :: SentBefore(r.log, x, j) {
        if x == k {
          assert SentBefore(r.log, x, |s.log|);
        } else {
          var j :| SentBefore(s.log, x, j);
          assert SentBefore(r.log, x, j);
        }
      }
    }
  }

  lemma LoggedStep(outlets: seq<Outlet>, s: Desk, i: nat, a: Article, now: int)
    requires Fits(outlets, s) && i < |outlets| && Logged(s)
    ensures Logged(PublishTo(outlets, s, i, a, now))
  {
    if PublishTo(outlets, s, i, a, now) != s {
      var outlet := outlets[i];
      LoggedSend(s, i, Slot(a.id, outlet.name), a, Succeeds(outlet.replies, s.calls[i], outlet.limit),
                 Tries(outlet.replies, s.calls[i], outlet.limit), now);
    }
  }

  lemma {:induction false} LoggedUpTo(outlets: seq<Outlet>, s: Desk, n: nat, a: Article, now: int)
    requires Fits(outlets, s) && n <= |outlets| && Logged(s)
    ensures Logged(PublishUpTo(outlets, s, n, a, now))
  {
    if n > 0 {
      LoggedUpTo(outlets, s, n - 1, a, now);
      LoggedStep(outlets, PublishUpTo(outlets, s, n - 1, a, now), n - 1, a, now);
    }
  }

  lemma {:induction false} LoggedRun(outlets: seq<Outlet>, s: Desk, issues: seq<Issue>)
    requires Fits(outlets, s) && Logged(s)
    ensures Logged(PublishRun(outlets, s, issues))
  {
    if issues != [] {
      var n := |issues| - 1;
      LoggedRun(outlets, s, issues[..n]);
      LoggedUpTo(outlets, PublishRun(outlets, s, issues[..n]), |outlets|, issues[n].article, issues[n].at);
    }
  }

  /** This version of the article was sent to k: an article with an update time at that update time, one
      without at any. */
  ghost predicate WasSent(log: seq<Sent>, k: Slot, a: Article) {
    if a.updatedAt.Some? then Sent(k, a.updatedAt) in log else exists j :: SentBefore(log, k, j)
  }

  /** One of the next answers of the publisher, within the limit, is a success. */
  ghost predicate Answers(outlet: Outlet, c: nat) {
    exists j: nat :: c <= j < c + outlet.limit && outlet.replies(j)
  }

  lemma {:induction false} SucceedsExactly(replies: Replies, c: nat, n: nat)
    requires n >= 1
    ensures Succeeds(replies, c, n) <==> exists j: nat :: c <= j < c + n && replies(j)
    decreases n
  {
    if n > 1 {
      SucceedsExactly(replies, c + 1, n - 1);
    }
  }

  lemma SeenExactly(s: Desk, a: Article, destination: string)
    requires Keyed(s) && Logged(s)
    ensures AlreadySent(s.keys, a, destination) <==> WasSent(s.log, Slot(a.id, destination), a)
  {
    var k := Slot(a.id, destination);
    if a.updatedAt.None? {
      if j :| SentBefore(s.log, k, j) {
        assert s.log[j] in s.log;
      }
    }
  }

  /** The state in which an article's turn at destination i comes, after other articles were published. */
  function TurnOf(outlets: seq<Outlet>, s: Desk, issues: seq<Issue>, i: nat, a: Article, now: int): (r: Desk)
    requires Fits(outlets, s) && i <= |outlets|
    ensures Fits(outlets, r)
  {
    PublishUpTo(outlets, PublishRun(outlets, s, issues), i, a, now)
  }

  lemma TurnIsKeyed(outlets: seq<Outlet>, s: Desk, issues: seq<Issue>, i: nat, a: Article, now: int)
    requires Fits(outlets, s) && s.keys == {} && s.log == [] && i <= |outlets|
    ensures Keyed(TurnOf(outlets, s, issues, i, a, now)) && Logged(TurnOf(outlets, s, issues, i, a, now))
  {
    SentOnce(outlets, s, issues);
    LoggedRun(outlets, s, issues);
    OnceUpTo(outlets, PublishRun(outlets, s, issues), i, a, now);
    LoggedUpTo(outlets, PublishRun(outlets, s, issues), i, a, now);
  }

  /** Over any sequence of articles from an empty desk: a destination is skipped exactly when this version
      of the article was sent to it before - so an update is never mistaken for what it replaces.
      Otherwise the send succeeds exactly when one of the publisher's next answers within the limit is a
      success, and then, and only then, the log gains this article at its update time. */
  lemma SkipsExactlyTheSent(outlets: seq<Outlet>, s: Desk, issues: seq<Issue>, i: nat, a: Article, now: int)
    requires Fits(outlets, s) && s.keys == {} && s.log == [] && i < |outlets|
    ensures
      var desk, k := PublishRun(outlets, s, issues), Slot(a.id, outlets[i].name);
      var before, after := TurnOf(outlets, s, issues, i, a, now), TurnOf(outlets, s, issues, i + 1, a, now);
      var r := ResultsUpTo(outlets, desk, |outlets|, a, now)[i];
      && r.destination == outlets[i].name
      && (r.skipped <==> WasSent(before.log, k, a))
      && (r.skipped ==> r.success && after == before)
      && (!r.skipped ==> (r.success <==> Answers(outlets[i], before.calls[i])))
      && after.log == before.log + if r.success && !r.skipped then [Sent(k, a.updatedAt)] else []
  {
    var before := TurnOf(outlets, s, issues, i, a, now);
    ResultAt(outlets, PublishRun(outlets, s, issues), |outlets|, i, a, now);
    TurnIsKeyed(outlets, s, issues, i, a, now);
    SeenExactly(before, a, outlets[i].name);
    SucceedsExactly(outlets[i].replies, before.calls[i], outlets[i].limit);
  }

  /** What a send leaves behind: the calls made, recorded with the outcome and the time; after a success
      the unversioned key, and that of the update time if there is one; the rest of the state as it was. */
  lemma SendLeaves(outlets: seq<Outlet>, s: Desk, i: nat, a: Article, now: int)
    requires Fits(outlets, s) && i < |outlets|
    ensures
      var r, after, k := ResultOf(outlets, s, i, a), PublishTo(outlets, s, i, a, now), Slot(a.id, outlets[i].name);
      !r.skipped ==>
        && (forall key :: key in after.keys <==>
              || key in s.keys
              || (r.success && (key == Legacy(k) || (a.updatedAt.Some? && key == Update(k, a.updatedAt.value)))))
        && after.history == s.history[k := Record(k, r.success, after.calls[i] - s.calls[i], now)]
        && after.calls == s.calls[i := after.calls[i]] && s.calls[i] < after.calls[i] <= s.calls[i] + outlets[i].limit
        && (r.success <==> outlets[i].replies(after.calls[i] - 1))
        && (!r.success ==> after.calls[i] == s.calls[i] + outlets[i].limit)
        && forall j :: s.calls[i] <= j < after.calls[i] - 1 ==> !outlets[i].replies(j)
  {
    TriesStopAtSuccess(outlets[i].replies, s.calls[i], outlets[i].limit);
  }

  // ----- independence of the destinations ----------------------------------------------------

  ghost predicate SameName(outlets: seq<Outlet>, outlets': seq<Outlet>, i: nat) {
    && |outlets| == |outlets'| && i < |outlets| && outlets[i] == outlets'[i]
    && forall j :: 0 <= j < |outlets| && j != i ==> outlets[j].name != outlets[i].name && outlets'[j].name != outlets[i].name
  }

  /** The states agree on everything about destination i. */
  ghost predicate Agree(outlets: seq<Outlet>, s: Desk, s': Desk, i: nat)
    requires |s.calls| == |s'.calls| == |outlets| && i < |outlets|
  {
    && s.calls[i] == s'.calls[i]
    && (forall key: Key :: key.slot.destination == outlets[i].name ==> (key in s.keys <==> key in s'.keys))
    && (forall k: Slot :: k.destination == outlets[i].name ==>
          (k in s.history <==> k in s'.history) && (k in s.history ==> s.history[k] == s'.history[k]))
  }

  lemma AgreeOther(outlets: seq<Outlet>, s: Desk, i: nat, j: nat, a: Article, now: int)
    requires Fits(outlets, s) && i < |outlets| && j < |outlets| && j != i && outlets[j].name != outlets[i].name
    ensures Agree(outlets, s, PublishTo(outlets, s, j, a, now), i)
  {
  }

  lemma AgreeSame(outlets: seq<Outlet>, outlets': seq<Outlet>, s: Desk, s': Desk, i: nat, a: Article, now: int)
    requires Fits(outlets, s) && Fits(outlets', s') && SameName(outlets, outlets', i) && Agree(outlets, s, s', i)
    ensures Agree(outlets, PublishTo(outlets, s, i, a, now), PublishTo(outlets', s', i, a, now), i)
    ensures ResultOf(outlets, s, i, a) == ResultOf(outlets', s', i, a)
  {
    var k := Slot(a.id, outlets[i].name);
    assert Legacy(k) in s.keys <==> Legacy(k) in s'.keys;
    assert a.updatedAt.Some? ==> (Update(k, a.updatedAt.value) in s.keys <==> Update(k, a.updatedAt.value) in s'.keys);
  }

  lemma AgreeOthers(outlets: seq<Outlet>, outlets': seq<Outlet>, s: Desk, s': Desk, i: nat, j: nat, a: Article, now: int)
    requires Fits(outlets, s) && Fits(outlets', s') && SameName(outlets, outlets', i) && Agree(outlets, s, s', i)
    requires j < |outlets| && j != i
    ensures Agree(outlets, PublishTo(outlets, s, j, a, now), PublishTo(outlets', s', j, a, now), i)
  {
    AgreeOther(outlets, s, i, j, a, now);
    AgreeOther(outlets', s', i, j, a, now);
  }

  lemma AgreeStep(outlets: seq<Outlet>, outlets': seq<Outlet>, s: Desk, s': Desk, i: nat, j: nat, a: Article, now: int)
    requires Fits(outlets, s) && Fits(outlets', s') && SameName(outlets, outlets', i) && Agree(outlets, s, s', i)
    requires j < |outlets|
    ensures Agree(outlets, PublishTo(outlets, s, j, a, now), PublishTo(outlets', s', j, a, now), i)
  {
    if j == i {
      AgreeSame(outlets, outlets', s, s', i, a, now);
    } else {
      AgreeOthers(outlets, outlets', s, s', i, j, a, now);
    }
  }

  lemma {:induction false} AgreeUpTo(outlets: seq<Outlet>, outlets': seq<Outlet>, s: Desk, s': Desk, n: nat, i: nat, a: Article, now: int)
    requires Fits(outlets, s) && Fits(outlets', s') && SameName(outlets, outlets', i) && n <= |outlets| && Agree(outlets, s, s', i)
    ensures Agree(outlets, PublishUpTo(outlets, s, n, a, now), PublishUpTo(outlets', s', n, a, now), i)
  {
    if n > 0 {
      AgreeUpTo(outlets, outlets', s, s', n - 1, i, a, now);
      AgreeStep(outlets, outlets', PublishUpTo(outlets, s, n - 1, a, now), PublishUpTo(outlets', s', n - 1, a, now),
                i, n - 1, a, now);
    }
  }

  lemma {:induction false} ResultAt(outlets: seq<Outlet>, s: Desk, n: nat, i: nat, a: Article, now: int)
    requires Fits(outlets, s) && i < n <= |outlets|
    ensures ResultsUpTo(outlets, s, n, a, now)[i] == ResultOf(outlets, PublishUpTo(outlets, s, i, a, now), i, a)
  {
    if i < n - 1 {
      ResultAt(outlets, s, n - 1, i, a, now);
    }
  }

  /** Whatever the other publishers answer, and whatever their state, what happens to a destination is
      the same: one destination's failures never change another's outcome. */
  lemma Independent(outlets: seq<Outlet>, outlets': seq<Outlet>, s: Desk, s': Desk, i: nat, a: Article, now: int)
    requires Fits(outlets, s) && Fits(outlets', s') && SameName(outlets, outlets', i) && Agree(outlets, s, s', i)
    ensures ResultsUpTo(outlets, s, |outlets|, a, now)[i] == ResultsUpTo(outlets', s', |outlets|, a, now)[i]
    ensures Agree(outlets, PublishUpTo(outlets, s, |outlets|, a, now), PublishUpTo(outlets', s', |outlets|, a, now), i)
  {
    ResultAt(outlets, s, |outlets|, i, a, now);
    ResultAt(outlets', s', |outlets|, i, a, now);
    AgreeUpTo(outlets, outlets', s, s', i, i, a, now);
    AgreeSame(outlets, outlets', PublishUpTo(outlets, s, i, a, now), PublishUpTo(outlets', s', i, a, now), i, a, now);
    AgreeUpTo(outlets, outlets', s, s', |outlets|, i, a, now);
  }
}
