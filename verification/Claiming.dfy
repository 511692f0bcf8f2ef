/** The single-job engine's choice: first a further destination of an article that already
    occupies capacity, else the head job of the first group that can be opened. */
module Claiming {
  import opened Base
  import opened Tables
  import opened Greedy

  function GroupOf(job: Job): Item { Item(job.priority, job.source) }

  /** Position of the first listed job with the same priority and source. */
  function HeadFrom(e: seq<Job>, k: Item, from: nat): (h: nat)
    requires exists i :: from <= i < |e| && GroupOf(e[i]) == k
    ensures from <= h < |e| && GroupOf(e[h]) == k
    ensures forall j :: from <= j < h ==> GroupOf(e[j]) != k
    decreases |e| - from
  {
    if GroupOf(e[from]) == k then from else HeadFrom(e, k, from + 1)
  }

  function HeadOf(e: seq<Job>, i: nat): nat
    requires i < |e|
  {
    HeadFrom(e, GroupOf(e[i]), 0)
  }

  predicate Newer(recent: map<Slot, Record>, job: Job) {
    job.slot !in recent || job.createdAt > recent[job.slot].createdAt
  }

  /** A waiting job of an article that already occupies capacity. */
  predicate Fan(consumed: set<string>, recent: map<Slot, Record>, job: Job) {
    job.slot.article in consumed && Newer(recent, job)
  }

  /** A job that would occupy one more slot, and may. */
  predicate Openable(consumed: set<string>, recent: map<Slot, Record>, caps: Caps, job: Job) {
    caps.Left(job.source) > 0 && Newer(recent, job) && job.slot.article !in consumed
  }

  predicate Precedes(e: seq<Job>, i: nat, j: nat)
    requires i < |e| && j < |e|
  {
    HeadOf(e, i) < HeadOf(e, j) || (HeadOf(e, i) == HeadOf(e, j) && i < j)
  }

  ghost predicate FanPick(e: seq<Job>, consumed: set<string>, recent: map<Slot, Record>, i: nat) {
    && i < |e| && Fan(consumed, recent, e[i])
    && forall j :: 0 <= j < |e| && j != i && Fan(consumed, recent, e[j]) ==> Precedes(e, i, j)
  }

  ghost predicate OpenHead(e: seq<Job>, consumed: set<string>, recent: map<Slot, Record>, caps: Caps, i: nat) {
    i < |e| && HeadOf(e, i) == i && Openable(consumed, recent, caps, e[i])
  }

  ghost predicate NewPick(e: seq<Job>, consumed: set<string>, recent: map<Slot, Record>, caps: Caps, i: nat) {
    OpenHead(e, consumed, recent, caps, i) && forall j: nat :: OpenHead(e, consumed, recent, caps, j) ==> i <= j
  }

  ghost predicate NoFan(e: seq<Job>, consumed: set<string>, recent: map<Slot, Record>) {
    forall i :: 0 <= i < |e| ==> !Fan(consumed, recent, e[i])
  }

  /** The job at which the claim loops stop. */
  ghost predicate EngineChoice(e: seq<Job>, consumed: set<string>, recent: map<Slot, Record>, caps: Caps, slots: int,
    r: Option<nat>)
  {
    match r
    case Some(i) =>
      || FanPick(e, consumed, recent, i)
      || (NoFan(e, consumed, recent) && slots > 0 && NewPick(e, consumed, recent, caps, i))
    case None =>
      NoFan(e, consumed, recent) && (slots <= 0 || forall i: nat :: !OpenHead(e, consumed, recent, caps, i))
  }

  /** No waiting job is older than a recent delivery of the same article and destination. */
  ghost predicate NoRedundant(e: seq<Job>, recent: map<Slot, Record>) {
    forall i :: 0 <= i < |e| ==> Newer(recent, e[i])
  }

  ghost predicate FirstWithRoom(e: seq<Job>, caps: Caps, i: nat) {
    && i < |e| && caps.Left(e[i].source) > 0
    && forall j :: 0 <= j < i ==> caps.Left(e[j].source) <= 0
  }

  /** The one-line specification: without redundant jobs and with nothing to fan out, the nested
      loops find exactly the first listed job whose source is below its limit. */
  lemma ClaimIsFirstWithRoom(e: seq<Job>, consumed: set<string>, recent: map<Slot, Record>, caps: Caps, slots: int,
    r: Option<nat>)
    requires NoRedundant(e, recent) && NoFan(e, consumed, recent)
    ensures EngineChoice(e, consumed, recent, caps, slots, r) <==>
      match r
      case Some(i) => slots > 0 && FirstWithRoom(e, caps, i)
      case None => slots <= 0 || forall i :: 0 <= i < |e| ==> caps.Left(e[i].source) <= 0
  {
    forall i: nat | i < |e| ensures caps.Left(e[i].source) > 0 ==> OpenHead(e, consumed, recent, caps, HeadOf(e, i)) {
      assert !Fan(consumed, recent, e[HeadOf(e, i)]);
    }
  }

  /** An openable job that the claim does not see: the first listed job of its priority and source
      was delivered already, at or after its creation. */
  predicate Hidden(e: seq<Job>, recent: map<Slot, Record>, i: nat)
    requires i < |e|
  {
    !Newer(recent, e[HeadOf(e, i)])
  }

  /** In general the claim comes back empty exactly when there is nothing to fan out and either no
      slot is free or every job that could be opened is hidden behind a delivered one. */
  lemma EmptyHandedExactlyWhen(e: seq<Job>, consumed: set<string>, recent: map<Slot, Record>, caps: Caps, slots: int)
    ensures EngineChoice(e, consumed, recent, caps, slots, None) <==>
      && NoFan(e, consumed, recent)
      && (slots > 0 ==> forall i :: 0 <= i < |e| && Openable(consumed, recent, caps, e[i]) ==> Hidden(e, recent, i))
  {
    if NoFan(e, consumed, recent) {
      forall i: nat | i < |e| && Openable(consumed, recent, caps, e[i])
        ensures Hidden(e, recent, i) <==> !OpenHead(e, consumed, recent, caps, HeadOf(e, i))
      {
        assert !Fan(consumed, recent, e[HeadOf(e, i)]);
      }
    }
  }
}
