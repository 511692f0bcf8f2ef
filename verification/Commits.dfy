/** How a claimed job is delivered and acknowledged: the decision to skip, and the separately
    committed writes that follow, in the order in which each worker makes them. */
module Commits {
  import opened Base
  import opened Tables

  datatype Config = Config(
    globalLimit: int, sourceLimit: int, lease: int,
    engineRetryBase: nat, engineMaxAttempts: int, processorRetryBase: nat)

  datatype Worker = Engine | Processor

  /** base * 2^(attempts - 1). */
  function Backoff(base: nat, attempts: int): nat {
    if attempts >= 1 then Doubled(base, attempts - 1) else Halved(base, 1 - attempts)
  }

  function SucceededRow(job: Job): Job { job.(status := Succeeded, lease := None) }

  function DeadRow(job: Job): Job { job.(status := DeadLetter, lease := None) }

  function FailedRow(job: Job, now: int, maxAttempts: int, base: nat): Job {
    if job.attempts >= maxAttempts then DeadRow(job)
    else job.(status := Retrying, lease := None, nextAttempt := Some(now + Backoff(base, job.attempts)))
  }

  predicate NotAfter(version: Option<int>, time: int) { version.None? || version.value <= time }

  /** The engine skips a version it has marked, or any version not later than the article's own
      delivery mark when the destination has the unversioned key. */
  predicate EngineSkips(t: Tables, k: Slot, a: Article) {
    || Version(k, a.NewsTimestamp()) in t.keys
    || (a.channelAt.Some? && NotAfter(a.NewsTimestamp(), a.channelAt.value) && Legacy(k) in t.keys)
  }

  /** The processor compares with the recorded delivery instead. */
  predicate ProcessorSkips(t: Tables, k: Slot, a: Article) {
    || Version(k, a.NewsTimestamp()) in t.keys
    || (Legacy(k) in t.keys &&
        (k in t.history && t.history[k].success ==> NotAfter(a.NewsTimestamp(), t.history[k].createdAt)))
  }

  predicate Skips(w: Worker, t: Tables, k: Slot, a: Article) {
    if w == Engine then EngineSkips(t, k, a) else ProcessorSkips(t, k, a)
  }

  function Stages(ok: bool): nat { if ok then 5 else 2 }

  /** Write number `stage` of an acknowledgement. `job` is the worker's copy of the claimed row and
      `a` the article it read; the engine reads the row (and, for the version key, the article) anew. */
  function Commit(cfg: Config, w: Worker, t: Tables, job: Job, a: Article, at: int, ok: bool, stage: nat): Tables {
    var k := job.slot;
    match (w, ok)
    case (Engine, true) =>
      if k !in t.jobs then t
      else if stage == 0 then SaveJob(t, SucceededRow(t.jobs[k]))
      else if stage == 1 then MarkKey(t, Legacy(k))
      else if stage == 2 then
        if k.article in t.articles then MarkKey(t, Version(k, t.articles[k.article].NewsTimestamp())) else t
      else if stage == 3 then AddRecord(t, Record(k, true, t.jobs[k].attempts, at))
      else SaveArticle(t, a.(channelAt := Some(at)))
    case (Engine, false) =>
      if k !in t.jobs then t
      else if stage == 0 then SaveJob(t, FailedRow(t.jobs[k], at, cfg.engineMaxAttempts, cfg.engineRetryBase))
      else AddRecord(t, Record(k, false, t.jobs[k].attempts, at))
    case (Processor, true) =>
      if stage == 0 then AddRecord(t, Record(k, true, job.attempts, at))
      else if stage == 1 then MarkKey(t, Legacy(k))
      else if stage == 2 then MarkKey(t, Version(k, a.NewsTimestamp()))
      else if stage == 3 then SaveArticle(t, a.(channelAt := Some(at)))
      else SaveJob(t, SucceededRow(job))
    case (Processor, false) =>
      if stage == 0 then AddRecord(t, Record(k, false, job.attempts, at))
      else SaveJob(t, FailedRow(job, at, job.maxAttempts, cfg.processorRetryBase))
  }

  /** All remaining writes in order. */
  function CommitFrom(cfg: Config, w: Worker, t: Tables, job: Job, a: Article, at: int, ok: bool, stage: nat): Tables
    decreases Stages(ok) - stage
  {
    if stage >= Stages(ok) then t
    else CommitFrom(cfg, w, Commit(cfg, w, t, job, a, at, ok, stage), job, a, at, ok, stage + 1)
  }

  datatype Outcome = Missing | Handled(success: bool, skipped: bool)

  /** The article or the publisher of the job does not exist. */
  predicate Lacks(t: Tables, k: Slot, publishers: set<string>) {
    k.article !in t.articles || k.destination !in publishers
  }

  function Deliver(w: Worker, t: Tables, k: Slot, publishers: set<string>, publishes: bool): Outcome {
    if Lacks(t, k, publishers) then Missing
    else
      var skip := Skips(w, t, k, t.articles[k.article]);
      Handled(skip || publishes, skip)
  }

  /** Delivering one claimed job and acknowledging it without interruption. */
  function Handle(cfg: Config, w: Worker, t: Tables, job: Job, publishers: set<string>, publishes: bool, at: int): Tables {
    match Deliver(w, t, job.slot, publishers, publishes)
    case Missing => SaveJob(t, DeadRow(job))
    case Handled(ok, _) => CommitFrom(cfg, w, t, job, t.articles[job.slot.article], at, ok, 0)
  }
}
