/** The tables column by column: what a save, a recovery and a claim leave in every row, which rows a
    claim sees, and which articles occupy capacity. Everything here is spelled out in the fields of the
    rows, so that it can be compared with the statements of the database layer one by one. */
module Columns {
  import opened Base
  import opened Tables
  import opened Views

  /** Only the job rows may differ. */
  predicate OtherTables(t: Tables, t': Tables) {
    t'.history == t.history && t'.keys == t.keys && t'.articles == t.articles
  }

  /** No job row but this one may differ. */
  ghost predicate OtherRows(t: Tables, t': Tables, k: Slot) {
    t'.jobs.Keys == t.jobs.Keys + {k} && forall j :: j in t.jobs && j != k ==> t'.jobs[j] == t.jobs[j]
  }

  // ----- saving -----------------------------------------------------------------------------

  /** A first save stores the job. A later one replaces status, attempts, lease and next attempt; it
      keeps priority, source and limit, and the creation time too, unless a finished job is pending again. */
  lemma SavedExactly(t: Tables, job: Job)
    ensures var t' := SaveJob(t, job); OtherTables(t, t') && OtherRows(t, t', job.slot)
    ensures job.slot !in t.jobs ==> SaveJob(t, job).jobs[job.slot] == job
    ensures job.slot in t.jobs ==>
      var was, row := t.jobs[job.slot], SaveJob(t, job).jobs[job.slot];
      && row.slot == was.slot && row.priority == was.priority && row.source == was.source && row.maxAttempts == was.maxAttempts
      && row.status == job.status && row.attempts == job.attempts && row.lease == job.lease && row.nextAttempt == job.nextAttempt
      && row.createdAt ==
           if (was.status == Succeeded || was.status == DeadLetter) && job.status == Pending then job.createdAt else was.createdAt
  {
  }

  // ----- recovery ---------------------------------------------------------------------------

  /** The lease of a job in work is over. */
  predicate LeaseOver(job: Job, now: int) { job.status == Processing && job.lease.Some? && job.lease.value <= now }

  /** A recovery puts every job whose lease is over back to waiting, whatever its attempts and its limit:
      to retrying if it was ever claimed, else to pending. It takes the lease away and changes nothing else. */
  lemma RecoveredExactly(t: Tables, now: int, k: Slot)
    requires k in t.jobs
    ensures var t' := RecoverRows(t, now); OtherTables(t, t') && t'.jobs.Keys == t.jobs.Keys
    ensures var was, row := t.jobs[k], RecoverRows(t, now).jobs[k];
      if LeaseOver(was, now) then
        && row == was.(status := row.status, lease := row.lease)
        && row.lease == None && row.status in {Pending, Retrying}
        && (row.status == Retrying <==> was.attempts > 0)
      else row == was
  {
  }

  /** A job whose lease is over and whose next attempt is not in the future can be claimed again right
      after the recovery, also when its attempts have reached the limit. */
  lemma RecoveredIsEligible(t: Tables, now: int, k: Slot, e: seq<Job>)
    requires t.WellFormed() && k in t.jobs && LeaseOver(t.jobs[k], now)
    requires t.jobs[k].nextAttempt.Some? ==> t.jobs[k].nextAttempt.value <= now
    requires EligibleListing(RecoverRows(t, now), now, e)
    ensures Eligible(RecoverRows(t, now).jobs[k], now)
    ensures exists i :: 0 <= i < |e| && e[i].slot == k && e[i].attempts == t.jobs[k].attempts
  {
    RecoveredExactly(t, now, k);
    var row := RecoverRows(t, now).jobs[k];
    assert EligibleAt(now)(row);
    assert row in e;
  }

  // ----- claims -----------------------------------------------------------------------------

  /** A claim leases exactly the chosen rows until `now + lease` and counts one attempt each. */
  lemma LeasedExactly(t: Tables, slots: set<Slot>, now: int, lease: int, k: Slot)
    requires k in t.jobs
    ensures var t' := ClaimRows(t, slots, now, lease); OtherTables(t, t') && t'.jobs.Keys == t.jobs.Keys
    ensures var was, row := t.jobs[k], ClaimRows(t, slots, now, lease).jobs[k];
      if k in slots then
        && row == was.(status := row.status, lease := row.lease, attempts := row.attempts)
        && row.status == Processing && row.lease == Some(now + lease) && row.attempts == was.attempts + 1
      else row == was
  {
  }

  /** The job waits, and neither its next attempt nor a lease lies in the future. */
  predicate Waits(t: Tables, now: int, k: Slot) {
    k in t.jobs &&
    var row := t.jobs[k];
    && row.status in {Pending, Retrying}
    && (row.nextAttempt == None || (row.nextAttempt.Some? && row.nextAttempt.value <= now))
    && (row.lease == None || (row.lease.Some? && row.lease.value <= now))
  }

  /** A claim sees exactly the waiting jobs: higher priorities first, and within a priority older jobs first. */
  lemma ListedExactly(t: Tables, now: int, e: seq<Job>)
    requires t.WellFormed() && EligibleListing(t, now, e)
    ensures forall k :: Waits(t, now, k) <==> exists i :: 0 <= i < |e| && e[i].slot == k
    ensures forall i :: 0 <= i < |e| ==> Waits(t, now, e[i].slot) && t.jobs[e[i].slot] == e[i]
    ensures forall i, j :: 0 <= i < j < |e| ==>
      && e[i].slot != e[j].slot && e[i].priority >= e[j].priority
      && (e[i].priority == e[j].priority ==> e[i].createdAt <= e[j].createdAt)
  {
    forall k | Waits(t, now, k) ensures exists i :: 0 <= i < |e| && e[i].slot == k {
      assert EligibleAt(now)(t.jobs[k]);
      assert t.jobs[k] in e;
    }
    forall i | 0 <= i < |e| ensures Waits(t, now, e[i].slot) && t.jobs[e[i].slot] == e[i] {
      assert EligibleAt(now)(e[i]);
    }
    forall i, j | 0 <= i < j < |e|
      ensures e[i].priority >= e[j].priority && (e[i].priority == e[j].priority ==> e[i].createdAt <= e[j].createdAt)
    {
      assert !Before(QueueOrder()(e[j]), QueueOrder()(e[i]));
    }
  }

  // ----- capacity ---------------------------------------------------------------------------

  /** A delivery to this slot is recorded as a success of the last 3600 seconds. */
  predicate DeliveredLately(t: Tables, now: int, k: Slot) {
    k in t.history && t.history[k].success && t.history[k].createdAt >= now - 3_600_000_000
  }

  /** The job is in work, under no lease or under one that has not ended before now. */
  predicate InWork(t: Tables, now: int, k: Slot) {
    k in t.jobs && t.jobs[k].status == Processing && (t.jobs[k].lease.Some? ==> t.jobs[k].lease.value >= now)
  }

  ghost predicate Occupies(t: Tables, now: int, a: string) {
    exists k: Slot :: k.article == a && (DeliveredLately(t, now, k) || InWork(t, now, k))
  }

  /** Exactly those articles take up a slot; `Recent` are the delivered ones, `InFlight` those in work. */
  lemma OccupiesExactly(t: Tables, now: int, a: string)
    ensures a in Consumed(t, now) <==> Occupies(t, now, a)
    ensures a in Recent(t, now) <==> exists k: Slot :: k.article == a && DeliveredLately(t, now, k)
    ensures a in InFlight(t, now) <==> exists k: Slot :: k.article == a && InWork(t, now, k)
  {
    if a in Recent(t, now) {
      var k :| k in t.history && RecentSuccess(t.history[k], now) && k.article == a;
      assert DeliveredLately(t, now, k);
    }
    if a in InFlight(t, now) {
      var k :| k in t.jobs && Live(t.jobs[k], now) && k.article == a;
      assert InWork(t, now, k);
    }
    forall k: Slot | k.article == a
      ensures DeliveredLately(t, now, k) ==> a in Recent(t, now)
      ensures InWork(t, now, k) ==> a in InFlight(t, now)
    {
      assert DeliveredLately(t, now, k) ==> k in t.history && RecentSuccess(t.history[k], now);
      assert InWork(t, now, k) ==> k in t.jobs && Live(t.jobs[k], now);
    }
  }

  /** Some slot of the article was delivered lately and still has its job. */
  ghost predicate DeliveredJob(t: Tables, now: int, a: string) {
    exists k: Slot :: k.article == a && DeliveredLately(t, now, k) && k in t.jobs
  }

  /** Job k of the article, of this source, is one that was delivered lately, if the engine finds such a job,
      or else one in work. */
  ghost predicate SourceBy(t: Tables, now: int, engine: bool, a: string, k: Slot, s: string) {
    && k.article == a && k in t.jobs && t.jobs[k].source == s
    && if engine && DeliveredJob(t, now, a) then DeliveredLately(t, now, k) else InWork(t, now, k)
  }

  /** Who counts against a source: every article in work, and every one delivered lately that has a row or,
      for the engine only, a job by which it was delivered. A delivered one counts for the source of its row,
      else of such a job; the others for the source of a job in work. The count is their number. */
  lemma CountedExactly(t: Tables, now: int, engine: bool, counts: map<string, int>, tags: map<string, string>, a: string)
    requires t.WellFormed() && Attributed(t, now, engine, counts, tags)
    ensures forall s :: Count(counts, s) == |set x | x in tags && tags[x] == s|
    ensures a in tags <==>
      || (exists k: Slot :: k.article == a && InWork(t, now, k))
      || ((exists k: Slot :: k.article == a && DeliveredLately(t, now, k)) && (a in t.articles || (engine && DeliveredJob(t, now, a))))
    ensures a in tags ==>
      if (exists k: Slot :: k.article == a && DeliveredLately(t, now, k)) && a in t.articles then tags[a] == t.articles[a].source
      else exists k: Slot :: SourceBy(t, now, engine, a, k, tags[a])
  {
    OccupiesExactly(t, now, a);
    DeliveredJobMeans(t, now, a);
    forall s ensures Count(counts, s) == |set x | x in tags && tags[x] == s| {
      assert Share(tags, s) == set x | x in tags && tags[x] == s;
    }
    if a in tags {
      assert CountedAs(t, now, engine, a, tags[a]);
      CountedAsMeans(t, now, engine, a, tags[a]);
    }
  }

  lemma DeliveredJobMeans(t: Tables, now: int, a: string)
    ensures DeliveredJob(t, now, a) <==> exists k :: DeliveredBy(t, now, a, k)
    ensures forall k :: DeliveredBy(t, now, a, k) ==> k in RecentRecords(t, now)
  {
    if k: Slot :| k.article == a && DeliveredLately(t, now, k) && k in t.jobs {
      assert DeliveredBy(t, now, a, k);
    }
    if k :| DeliveredBy(t, now, a, k) {
      assert DeliveredLately(t, now, k);
    }
  }

  lemma CountedAsMeans(t: Tables, now: int, engine: bool, a: string, s: string)
    requires CountedAs(t, now, engine, a, s)
    ensures a in Recent(t, now) && a in t.articles ==> s == t.articles[a].source
    ensures !(a in Recent(t, now) && a in t.articles) ==>
      exists k: Slot :: SourceBy(t, now, engine, a, k, s)
  {
    DeliveredJobMeans(t, now, a);
    if !(a in Recent(t, now) && a in t.articles) {
      if engine && DeliveredJob(t, now, a) {
        var k :| DeliveredBy(t, now, a, k) && t.jobs[k].source == s;
        assert SourceBy(t, now, engine, a, k, s);
      } else {
        var k :| InFlightBy(t, now, a, k) && t.jobs[k].source == s;
        assert SourceBy(t, now, engine, a, k, s);
      }
    }
  }

  // ----- the time of the news ---------------------------------------------------------------

  /** The article is dated `time`: by its update time unless that is missing or zero, else by its
      publication time unless that is missing or zero. */
  predicate DatedAt(a: Article, time: int) {
    && time != 0
    && (a.updatedAt == Some(time) || (a.updatedAt in {None, Some(0)} && a.publishedAt == Some(time)))
  }

  lemma NewsTimeExactly(a: Article, time: int)
    ensures a.NewsTimestamp() == Some(time) <==> DatedAt(a, time)
    ensures a.NewsTimestamp() == None <==> a.updatedAt in {None, Some(0)} && a.publishedAt in {None, Some(0)}
  {
  }

  /** Dated, and not before the given time. */
  predicate DatedSince(a: Article, time: int) {
    if a.updatedAt.Some? && a.updatedAt.value != 0 then a.updatedAt.value >= time
    else a.publishedAt.Some? && a.publishedAt.value != 0 && a.publishedAt.value >= time
  }

  /** Dated later than the given time. */
  predicate DatedAfter(a: Article, time: int) {
    if a.updatedAt.Some? && a.updatedAt.value != 0 then a.updatedAt.value > time
    else a.publishedAt.Some? && a.publishedAt.value != 0 && a.publishedAt.value > time
  }
}
