/** What delivering and acknowledging a claimed job leaves behind, in terms of the rows; and that the
    jobs of a batch do not interfere. */
module Effects {
  import opened Base
  import opened Tables
  import opened Views
  import opened Commits
  import opened Engine
  import opened Processor
  import opened Columns

  predicate Undated(a: Article) { a.updatedAt in {None, Some(0)} && a.publishedAt in {None, Some(0)} }

  /** The key of the article's version: its nonzero update time, else its nonzero publication time, else none. */
  predicate IsVersionKey(k: Slot, a: Article, key: Key) {
    key.Version? && key.slot == k && match key.version case Some(time) => DatedAt(a, time) case None => Undated(a)
  }

  lemma VersionKeyIs(k: Slot, a: Article, key: Key)
    ensures IsVersionKey(k, a, key) <==> key == Version(k, a.NewsTimestamp())
  {
    if key.Version? && key.slot == k {
      NewsTimeExactly(a, if key.version.Some? then key.version.value else 0);
      assert key == Version(k, key.version);
    }
  }

  // ----- the decision to skip ---------------------------------------------------------------

  /** The unversioned key is marked, and nothing shows that the article is later than its last delivery:
      the engine asks the delivery mark of the article, the processor the recorded success. */
  predicate Covered(w: Worker, t: Tables, k: Slot, a: Article) {
    && Legacy(k) in t.keys
    && if w == Worker.Engine then a.channelAt.Some? && !DatedAfter(a, a.channelAt.value)
       else k in t.history && t.history[k].success ==> !DatedAfter(a, t.history[k].createdAt)
  }

  /** A job without article or publisher is not delivered; otherwise it is skipped exactly when the key of
      its version is marked or its unversioned key covers it, and counts as delivered exactly when it is
      skipped or the publisher succeeds. */
  lemma DeliversExactly(w: Worker, t: Tables, k: Slot, publishers: set<string>, publishes: bool)
    ensures var r := Deliver(w, t, k, publishers, publishes);
      && (r == Missing <==> k.article !in t.articles || k.destination !in publishers)
      && (r != Missing ==>
            var a := t.articles[k.article];
            && (r.skipped <==> (exists key :: key in t.keys && IsVersionKey(k, a, key)) || Covered(w, t, k, a))
            && (r.success <==> r.skipped || publishes))
  {
    if k.article in t.articles && k.destination in publishers {
      var a := t.articles[k.article];
      forall key: Key ensures IsVersionKey(k, a, key) <==> key == Version(k, a.NewsTimestamp()) {
        VersionKeyIs(k, a, key);
      }
    }
  }

  // ----- the acknowledgement ----------------------------------------------------------------

  function Limit(cfg: Config, w: Worker, job: Job): int {
    if w == Worker.Engine then cfg.engineMaxAttempts else job.maxAttempts
  }

  function Pause(cfg: Config, w: Worker): nat {
    if w == Worker.Engine then cfg.engineRetryBase else cfg.processorRetryBase
  }

  /** The worker's copy is the stored row. */
  predicate Holds(t: Tables, job: Job) { job.slot in t.jobs && t.jobs[job.slot] == job }

  /** A success ends the job, records the attempts it took, marks the unversioned key and that of the
      version, and dates the article's delivery mark. */
  lemma SuccessLeaves(cfg: Config, w: Worker, t: Tables, job: Job, publishers: set<string>, publishes: bool, at: int)
    requires t.WellFormed() && Holds(t, job)
    requires var r := Deliver(w, t, job.slot, publishers, publishes); r.Handled? && r.success
    ensures var t', k, a := Handle(cfg, w, t, job, publishers, publishes, at), job.slot, t.articles[job.slot.article];
      && t'.jobs == t.jobs[k := job.(status := Succeeded, lease := None)]
      && t'.history == t.history[k := Record(k, true, job.attempts, at)]
      && (forall key :: key in t'.keys <==> key in t.keys || key == Legacy(k) || IsVersionKey(k, a, key))
      && t'.articles == t.articles[k.article := a.(channelAt := Some(at))]
  {
    var k, a := job.slot, t.articles[job.slot.article];
    forall key: Key ensures IsVersionKey(k, a, key) <==> key == Version(k, a.NewsTimestamp()) {
      VersionKeyIs(k, a, key);
    }
    if w == Worker.Engine {
      SuccessCommits(cfg, t, job, a, at);
    } else {
      CommitsInOrder(cfg, t, job, a, at, true);
    }
  }

  /** The acknowledgement of a success by the job's id alone: nothing for an unknown job; without the article
      row no version key is marked, and no article is touched in any case. */
  lemma AcknowledgedById(t: Tables, k: Slot, now: int)
    ensures k !in t.jobs ==> AfterSuccess(t, k, now) == t
    ensures k in t.jobs ==>
      var t' := AfterSuccess(t, k, now);
      && t'.jobs == t.jobs[k := t.jobs[k].(status := Succeeded, lease := None)]
      && t'.history == t.history[k := Record(k, true, t.jobs[k].attempts, now)] && t'.articles == t.articles
      && forall key :: key in t'.keys <==>
           || key in t.keys || key == Legacy(k)
           || (k.article in t.articles && IsVersionKey(k, t.articles[k.article], key))
  {
    if k.article in t.articles {
      forall key: Key ensures IsVersionKey(k, t.articles[k.article], key) <==> key == Version(k, t.articles[k.article].NewsTimestamp()) {
        VersionKeyIs(k, t.articles[k.article], key);
      }
    }
  }

  /** A failure buries the job if its attempts have reached the limit, and only then; otherwise the job,
      which was claimed at least once, can be claimed again from `at + base * 2^(attempts - 1)` on and not
      before. The failure is recorded, and keys and articles stay as they are. */
  lemma FailureLeaves(cfg: Config, w: Worker, t: Tables, job: Job, publishers: set<string>, publishes: bool, at: int)
    requires t.WellFormed() && Holds(t, job)
    requires var r := Deliver(w, t, job.slot, publishers, publishes); r.Handled? && !r.success
    ensures var t', k := Handle(cfg, w, t, job, publishers, publishes, at), job.slot;
      && k in t'.jobs && t'.jobs == t.jobs[k := t'.jobs[k]]
      && t'.jobs[k] == job.(status := t'.jobs[k].status, lease := None, nextAttempt := t'.jobs[k].nextAttempt)
      && t'.jobs[k].status == (if job.attempts >= Limit(cfg, w, job) then DeadLetter else Retrying)
      && (1 <= job.attempts < Limit(cfg, w, job) ==>
            forall now :: Waits(t', now, k) <==> now >= at + Pause(cfg, w) * Pow2(job.attempts - 1))
      && t'.history == t.history[k := Record(k, false, job.attempts, at)]
      && t'.keys == t.keys && t'.articles == t.articles
  {
    var a := t.articles[job.slot.article];
    if w == Worker.Engine {
      FailureCommits(cfg, t, job, a, at);
    } else {
      CommitsInOrder(cfg, t, job, a, at, false);
    }
    if job.attempts >= 1 {
      DoubledIsPower(Pause(cfg, w), job.attempts - 1);
    }
  }

  /** A job without article or publisher is buried at once, whatever its attempts; no delivery is recorded. */
  lemma MissingLeaves(cfg: Config, w: Worker, t: Tables, job: Job, publishers: set<string>, publishes: bool, at: int)
    requires t.WellFormed() && Holds(t, job)
    requires job.slot.article !in t.articles || job.slot.destination !in publishers
    ensures Handle(cfg, w, t, job, publishers, publishes, at) ==
      t.(jobs := t.jobs[job.slot := job.(status := DeadLetter, lease := None)])
  {
  }

  // ----- a batch ----------------------------------------------------------------------------

  /** The states agree on what the delivery to k depends on, and what it leaves behind. */
  ghost predicate Alike(t: Tables, t': Tables, k: Slot) {
    && (k in t.jobs <==> k in t'.jobs) && (k in t.jobs ==> t'.jobs[k] == t.jobs[k])
    && (k in t.history <==> k in t'.history) && (k in t.history ==> t'.history[k] == t.history[k])
    && (forall key: Key :: key.slot == k ==> (key in t.keys <==> key in t'.keys))
    && AlikeArticle(t, t', k.article)
  }

  /** The articles agree but for the delivery mark. */
  predicate AlikeArticle(t: Tables, t': Tables, a: string) {
    && (a in t.articles <==> a in t'.articles)
    && (a in t.articles ==> t'.articles[a] == t.articles[a].(channelAt := t'.articles[a].channelAt))
  }

  /** Only what belongs to k, and the delivery mark of its article, may differ. */
  ghost predicate OnlyAbout(t: Tables, t': Tables, k: Slot) {
    && (forall j :: j in t.jobs.Keys + t'.jobs.Keys && j != k ==> j in t.jobs && j in t'.jobs && t'.jobs[j] == t.jobs[j])
    && (forall j :: j in t.history.Keys + t'.history.Keys && j != k ==> j in t.history && j in t'.history && t'.history[j] == t.history[j])
    && (forall key: Key :: key.slot != k ==> (key in t.keys <==> key in t'.keys))
    && (forall a :: AlikeArticle(t, t', a))
  }

  lemma SavedAbout(t: Tables, job: Job)
    requires t.WellFormed()
    ensures SaveJob(t, job).WellFormed() && OnlyAbout(t, SaveJob(t, job), job.slot)
  {
  }

  /** The writes of a success that come before the row's. */
  function Delivering(t: Tables, r: Record, a: Article, at: int): Tables {
    SaveArticle(MarkKey(MarkKey(AddRecord(t, r), Legacy(r.slot)), Version(r.slot, a.NewsTimestamp())), a.(channelAt := Some(at)))
  }

  lemma DeliveringAbout(t: Tables, r: Record, a: Article, at: int)
    requires t.WellFormed() && a.id in t.articles && t.articles[a.id] == a && a.id == r.slot.article
    ensures Delivering(t, r, a, at).WellFormed() && OnlyAbout(t, Delivering(t, r, a, at), r.slot)
  {
  }

  lemma RecordAbout(t: Tables, r: Record)
    requires t.WellFormed()
    ensures AddRecord(t, r).WellFormed() && OnlyAbout(t, AddRecord(t, r), r.slot)
  {
  }

  lemma AboutChain(t: Tables, t': Tables, t'': Tables, k: Slot)
    requires OnlyAbout(t, t', k) && OnlyAbout(t', t'', k)
    ensures OnlyAbout(t, t'', k)
  {
    forall a ensures AlikeArticle(t, t'', a) {
      assert AlikeArticle(t, t', a) && AlikeArticle(t', t'', a);
    }
  }

  /** The processor's writes as two parts. */
  lemma TwoParts(cfg: Config, t: Tables, job: Job, a: Article, at: int, ok: bool) returns (mid: Tables, row: Job)
    requires t.WellFormed()
    ensures var r := Record(job.slot, ok, job.attempts, at);
      mid == (if ok then Delivering(t, r, a, at) else AddRecord(t, r)) && row.slot == job.slot
      && row == (if ok then SucceededRow(job) else FailedRow(job, at, job.maxAttempts, cfg.processorRetryBase))
      && CommitFrom(cfg, Worker.Processor, t, job, a, at, ok, 0) == SaveJob(mid, row)
  {
    var r := Record(job.slot, ok, job.attempts, at);
    mid := if ok then Delivering(t, r, a, at) else AddRecord(t, r);
    row := if ok then SucceededRow(job) else FailedRow(job, at, job.maxAttempts, cfg.processorRetryBase);
    CommitsInOrder(cfg, t, job, a, at, ok);
  }

  lemma AcknowledgedAbout(cfg: Config, t: Tables, job: Job, a: Article, at: int, ok: bool)
    requires t.WellFormed() && a.id in t.articles && t.articles[a.id] == a && a.id == job.slot.article
    ensures var t' := CommitFrom(cfg, Worker.Processor, t, job, a, at, ok, 0); t'.WellFormed() && OnlyAbout(t, t', job.slot)
  {
    var mid, row := TwoParts(cfg, t, job, a, at, ok);
    if ok {
      DeliveringAbout(t, Record(job.slot, ok, job.attempts, at), a, at);
    } else {
      RecordAbout(t, Record(job.slot, ok, job.attempts, at));
    }
    SavedAbout(mid, row);
    AboutChain(t, mid, SaveJob(mid, row), job.slot);
  }

  lemma HandledAbout(cfg: Config, t: Tables, job: Job, publishers: set<string>, publishes: bool, at: int)
    requires t.WellFormed()
    ensures var t' := Handle(cfg, Worker.Processor, t, job, publishers, publishes, at); t'.WellFormed() && OnlyAbout(t, t', job.slot)
  {
    match Deliver(Worker.Processor, t, job.slot, publishers, publishes)
    case Missing => SavedAbout(t, DeadRow(job));
    case Handled(ok, _) => AcknowledgedAbout(cfg, t, job, t.articles[job.slot.article], at, ok);
  }

  lemma OthersAlike(cfg: Config, t: Tables, job: Job, publishers: set<string>, publishes: bool, at: int, k: Slot)
    requires t.WellFormed() && k != job.slot
    ensures var t' := Handle(cfg, Worker.Processor, t, job, publishers, publishes, at); t'.WellFormed() && Alike(t, t', k)
  {
    HandledAbout(cfg, t, job, publishers, publishes, at);
  }

  lemma SameOutcome(t: Tables, t': Tables, k: Slot, publishers: set<string>, publishes: bool)
    requires t.WellFormed() && t'.WellFormed() && Alike(t, t', k)
    ensures Deliver(Worker.Processor, t', k, publishers, publishes) == Deliver(Worker.Processor, t, k, publishers, publishes)
  {
    assert Legacy(k) in t.keys <==> Legacy(k) in t'.keys;
    if k.article in t.articles {
      var a, a' := t.articles[k.article], t'.articles[k.article];
      assert Version(k, a.NewsTimestamp()) in t.keys <==> Version(k, a'.NewsTimestamp()) in t'.keys;
    }
  }

  lemma SameSave(t: Tables, t': Tables, job: Job)
    requires Alike(t, t', job.slot)
    ensures Alike(SaveJob(t, job), SaveJob(t', job), job.slot)
  {
  }

  lemma SameRecord(t: Tables, t': Tables, r: Record)
    requires Alike(t, t', r.slot)
    ensures Alike(AddRecord(t, r), AddRecord(t', r), r.slot)
  {
  }

  lemma SameDelivering(t: Tables, t': Tables, r: Record, a: Article, a': Article, at: int)
    requires Alike(t, t', r.slot) && a' == a.(channelAt := a'.channelAt)
    ensures Alike(Delivering(t, r, a, at), Delivering(t', r, a', at), r.slot)
  {
    assert a'.NewsTimestamp() == a.NewsTimestamp();
  }

  lemma SameCommits(cfg: Config, t: Tables, t': Tables, job: Job, a: Article, a': Article, at: int, ok: bool)
    requires t.WellFormed() && t'.WellFormed() && Alike(t, t', job.slot) && a' == a.(channelAt := a'.channelAt)
    ensures Alike(CommitFrom(cfg, Worker.Processor, t, job, a, at, ok, 0),
                  CommitFrom(cfg, Worker.Processor, t', job, a', at, ok, 0), job.slot)
  {
    var mid, row := TwoParts(cfg, t, job, a, at, ok);
    var mid', row' := TwoParts(cfg, t', job, a', at, ok);
    if ok {
      SameDelivering(t, t', Record(job.slot, ok, job.attempts, at), a, a', at);
    } else {
      SameRecord(t, t', Record(job.slot, ok, job.attempts, at));
    }
    SameSave(mid, mid', row);
  }

  /** Handling a job has the same effect on its own rows in states that agree about it. */
  lemma SameEffect(cfg: Config, t: Tables, t': Tables, job: Job, publishers: set<string>, publishes: bool, at: int)
    requires t.WellFormed() && t'.WellFormed() && Alike(t, t', job.slot)
    ensures Alike(Handle(cfg, Worker.Processor, t, job, publishers, publishes, at),
                  Handle(cfg, Worker.Processor, t', job, publishers, publishes, at), job.slot)
  {
    SameOutcome(t, t', job.slot, publishers, publishes);
    match Deliver(Worker.Processor, t, job.slot, publishers, publishes)
    case Missing => SameSave(t, t', DeadRow(job));
    case Handled(ok, _) =>
      SameCommits(cfg, t, t', job, t.articles[job.slot.article], t'.articles[job.slot.article], at, ok);
  }

  lemma AlikeChain(t: Tables, t': Tables, t'': Tables, k: Slot)
    requires Alike(t, t', k) && Alike(t', t'', k)
    ensures Alike(t, t'', k)
  {
  }

  ghost predicate DistinctSlots(jobs: seq<Job>) { forall i, j :: 0 <= i < j < |jobs| ==> jobs[i].slot != jobs[j].slot }

  lemma {:induction false} NotYetHandled(cfg: Config, t: Tables, jobs: seq<Job>, publishers: set<string>, publishes: Slot -> bool,
    at: int, k: Slot)
    requires t.WellFormed() && forall i :: 0 <= i < |jobs| ==> jobs[i].slot != k
    ensures var t' := HandleAll(cfg, t, jobs, publishers, publishes, at); t'.WellFormed() && Alike(t, t', k)
  {
    if jobs != [] {
      var n := |jobs| - 1;
      NotYetHandled(cfg, t, jobs[..n], publishers, publishes, at, k);
      var mid := HandleAll(cfg, t, jobs[..n], publishers, publishes, at);
      OthersAlike(cfg, mid, jobs[n], publishers, publishes(jobs[n].slot), at, k);
      AlikeChain(t, mid, HandleAll(cfg, t, jobs, publishers, publishes, at), k);
    }
  }

  lemma {:induction false} BatchOutcome(cfg: Config, t: Tables, jobs: seq<Job>, publishers: set<string>, publishes: Slot -> bool,
    at: int, i: nat)
    requires t.WellFormed() && DistinctSlots(jobs) && i < |jobs|
    ensures Deliver(Worker.Processor, HandleAll(cfg, t, jobs[..i], publishers, publishes, at), jobs[i].slot, publishers, publishes(jobs[i].slot))
         == Deliver(Worker.Processor, t, jobs[i].slot, publishers, publishes(jobs[i].slot))
  {
    NotYetHandled(cfg, t, jobs[..i], publishers, publishes, at, jobs[i].slot);
    SameOutcome(t, HandleAll(cfg, t, jobs[..i], publishers, publishes, at), jobs[i].slot, publishers, publishes(jobs[i].slot));
  }

  /** Every job of a batch is delivered and acknowledged as if it were the only one: the other jobs of the
      batch, also those of the same article, change neither its outcome nor what it leaves in its row, its record and its keys. */
  lemma {:induction false} BatchAsAlone(cfg: Config, t: Tables, jobs: seq<Job>, publishers: set<string>, publishes: Slot -> bool,
    at: int, i: nat)
    requires t.WellFormed() && DistinctSlots(jobs) && i < |jobs|
    ensures Alike(Handle(cfg, Worker.Processor, t, jobs[i], publishers, publishes(jobs[i].slot), at),
                  HandleAll(cfg, t, jobs, publishers, publishes, at), jobs[i].slot)
  {
    var n, k := |jobs| - 1, jobs[i].slot;
    var mid := HandleAll(cfg, t, jobs[..n], publishers, publishes, at);
    NotYetHandled(cfg, t, jobs[..n], publishers, publishes, at, jobs[n].slot);
    if i == n {
      SameEffect(cfg, t, mid, jobs[n], publishers, publishes(k), at);
    } else {
      BatchAsAlone(cfg, t, jobs[..n], publishers, publishes, at, i);
      OthersAlike(cfg, mid, jobs[n], publishers, publishes(jobs[n].slot), at, k);
      AlikeChain(Handle(cfg, Worker.Processor, t, jobs[i], publishers, publishes(k), at), mid,
                 HandleAll(cfg, t, jobs, publishers, publishes, at), k);
    }
  }

  /** The jobs that have an article and a publisher. */
  function Present(t: Tables, jobs: seq<Job>, publishers: set<string>): seq<Job> {
    if jobs == [] then []
    else
      var n := |jobs| - 1;
      Present(t, jobs[..n], publishers) +
        if jobs[n].slot.article in t.articles && jobs[n].slot.destination in publishers then [jobs[n]] else []
  }

  /** A batch returns one result for each of these jobs, in their order: that of its own delivery. */
  lemma {:induction false} ResultsExactly(cfg: Config, t: Tables, jobs: seq<Job>, publishers: set<string>, publishes: Slot -> bool, at: int)
    requires t.WellFormed() && DistinctSlots(jobs)
    ensures var results, present := ResultsOf(cfg, t, jobs, publishers, publishes, at), Present(t, jobs, publishers);
      |results| == |present| && forall i :: 0 <= i < |results| ==>
        results[i] == Deliver(Worker.Processor, t, present[i].slot, publishers, publishes(present[i].slot))
  {
    if jobs != [] {
      var n := |jobs| - 1;
      ResultsExactly(cfg, t, jobs[..n], publishers, publishes, at);
      BatchOutcome(cfg, t, jobs, publishers, publishes, at, n);
    }
  }
}
