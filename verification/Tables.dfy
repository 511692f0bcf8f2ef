/** The durable state (queue rows, delivery history, idempotency keys, articles) with its
    upsert rules, first as values and then as the store object that updates them. */
module Tables {
  import opened Base

  /** A job is identified by its article and destination (see module Keys for the text form). */
  datatype Slot = Slot(article: string, destination: string)

  datatype Status = Pending | Processing | Retrying | Failed | DeadLetter | Succeeded

  datatype Job = Job(
    slot: Slot, status: Status, priority: int, source: string,
    attempts: int, maxAttempts: int,
    lease: Option<int>, nextAttempt: Option<int>, createdAt: int)

  datatype Record = Record(slot: Slot, success: bool, attempts: int, createdAt: int)

  datatype Key =
    | Legacy(slot: Slot)
    | Version(slot: Slot, version: Option<int>)
    | Update(slot: Slot, updatedAt: int)

  datatype Article = Article(
    id: string, url: string, source: string, content: string,
    publishedAt: Option<int>, updatedAt: Option<int>, timeKnown: bool, channelAt: Option<int>)
  {
    /** The most specific valid timestamp; zero is the epoch placeholder for "unknown". */
    function NewsTimestamp(): Option<int> {
      if updatedAt.Some? && updatedAt.value != 0 then updatedAt
      else if publishedAt.Some? && publishedAt.value != 0 then publishedAt
      else None
    }
  }

  datatype Tables = Tables(
    jobs: map<Slot, Job>, history: map<Slot, Record>, keys: set<Key>, articles: map<string, Article>)
  {
    ghost predicate WellFormed() {
      && (forall k :: k in jobs ==> jobs[k].slot == k)
      && (forall k :: k in history ==> history[k].slot == k)
      && (forall a :: a in articles ==> articles[a].id == a)
    }
  }

  predicate Terminal(status: Status) { status == Succeeded || status == DeadLetter }

  predicate Eligible(job: Job, now: int) {
    && (job.status == Pending || job.status == Retrying)
    && (job.nextAttempt.None? || job.nextAttempt.value <= now)
    && (job.lease.None? || job.lease.value <= now)
  }

  /** A processing row whose lease may be taken away at `now`. */
  predicate Stale(job: Job, now: int) {
    job.status == Processing && job.lease.Some? && job.lease.value <= now
  }

  /** A processing row that occupies capacity at `now`. */
  predicate Live(job: Job, now: int) {
    job.status == Processing && (job.lease.None? || job.lease.value >= now)
  }

  // ----- single committed writes ------------------------------------------------------

  /** Saving a job over an existing row keeps its priority, source and attempt limit, and keeps
      its creation time unless a finished row is put back to pending. */
  function SaveJob(t: Tables, job: Job): Tables {
    var row :=
      if job.slot in t.jobs then
        var prior := t.jobs[job.slot];
        prior.(status := job.status, attempts := job.attempts, lease := job.lease,
               nextAttempt := job.nextAttempt,
               createdAt := if Terminal(prior.status) && job.status == Pending then job.createdAt else prior.createdAt)
      else job;
    t.(jobs := t.jobs[job.slot := row])
  }

  function AddRecord(t: Tables, r: Record): Tables {
    t.(history := t.history[r.slot := r])
  }

  function MarkKey(t: Tables, key: Key): Tables { t.(keys := t.keys + {key}) }

  function SaveArticle(t: Tables, a: Article): Tables {
    t.(articles := t.articles[a.id := a])
  }

  function Claimed(job: Job, now: int, lease: int): Job {
    job.(status := Processing, lease := Some(now + lease), attempts := job.attempts + 1)
  }

  function Recovered(job: Job): Job {
    job.(status := if job.attempts > 0 then Retrying else Pending, lease := None)
  }

  /** The rows of all the claimed slots, each leased once. */
  function ClaimRows(t: Tables, slots: set<Slot>, now: int, lease: int): Tables {
    t.(jobs := map k | k in t.jobs :: if k in slots then Claimed(t.jobs[k], now, lease) else t.jobs[k])
  }

  /** Every stale lease taken back. */
  function RecoverRows(t: Tables, now: int): Tables {
    t.(jobs := map k | k in t.jobs :: if Stale(t.jobs[k], now) then Recovered(t.jobs[k]) else t.jobs[k])
  }

  // ----- row listings -----------------------------------------------------------------

  /** Lexicographic order on sort keys. */
  predicate Before(a: (int, int), b: (int, int)) { a.0 < b.0 || (a.0 == b.0 && a.1 < b.1) }

  ghost predicate Sorted(rows: seq<Job>, key: Job -> (int, int)) {
    forall i, j :: 0 <= i < j < |rows| ==> rows[i].slot != rows[j].slot && !Before(key(rows[j]), key(rows[i]))
  }

  /** A SELECT: exactly the matching rows, each once, in key order; ties in any order. */
  ghost predicate Listing(t: Tables, keep: Job -> bool, key: Job -> (int, int), rows: seq<Job>) {
    && (forall i :: 0 <= i < |rows| ==> rows[i].slot in t.jobs && t.jobs[rows[i].slot] == rows[i] && keep(rows[i]))
    && (forall k :: k in t.jobs && keep(t.jobs[k]) ==> t.jobs[k] in rows)
    && Sorted(rows, key)
  }

  function EligibleAt(now: int): Job -> bool { job => Eligible(job, now) }

  function StaleAt(now: int): Job -> bool { job => Stale(job, now) }

  /** ORDER BY priority DESC, created_at ASC. */
  function QueueOrder(): Job -> (int, int) { (job: Job) => (-job.priority, job.createdAt) }

  function CreationOrder(): Job -> (int, int) { (job: Job) => (job.createdAt, 0) }

  function NoOrder(): Job -> (int, int) { (job: Job) => (0, 0) }

  ghost predicate EligibleListing(t: Tables, now: int, rows: seq<Job>) {
    Listing(t, EligibleAt(now), QueueOrder(), rows)
  }

  ghost predicate HistoryListing(t: Tables, rows: seq<Record>) {
    && (forall i :: 0 <= i < |rows| ==> rows[i].slot in t.history && t.history[rows[i].slot] == rows[i])
    && (forall i, j :: 0 <= i < j < |rows| ==> rows[i].slot != rows[j].slot)
    && (forall k :: k in t.history ==> t.history[k] in rows)
  }

  function Insert(rows: seq<Job>, key: Job -> (int, int), job: Job): (r: seq<Job>)
    ensures |r| == |rows| + 1
  {
    if rows == [] || Before(key(job), key(rows[0])) then [job] + rows
    else [rows[0]] + Insert(rows[1..], key, job)
  }

  lemma {:induction false} InsertKeepsOrder(rows: seq<Job>, key: Job -> (int, int), job: Job)
    requires Sorted(rows, key)
    requires forall x :: x in rows ==> x.slot != job.slot
    ensures forall x :: x in Insert(rows, key, job) <==> x in rows || x == job
    ensures Sorted(Insert(rows, key, job), key)
  {
    var r := Insert(rows, key, job);
    if rows == [] || Before(key(job), key(rows[0])) {
      assert r == [job] + rows;
    } else {
      InsertKeepsOrder(rows[1..], key, job);
      var tail := Insert(rows[1..], key, job);
      assert rows == [rows[0]] + rows[1..];
      assert r == [rows[0]] + tail;
      forall x | x in tail ensures x.slot != rows[0].slot && !Before(key(x), key(rows[0])) {
        assert x in rows[1..] || x == job;
      }
    }
  }

  // ----- the store --------------------------------------------------------------------

  class Store {
    var jobs: map<Slot, Job>
    var history: map<Slot, Record>
    var keys: set<Key>
    var articles: map<string, Article>

    constructor ()
      ensures Snapshot() == Tables(map[], map[], {}, map[])
    {
      jobs, history, keys, articles := map[], map[], {}, map[];
    }

    function Snapshot(): Tables
      reads this
    {
      Tables(jobs, history, keys, articles)
    }

    method AddJob(job: Job)
      modifies this`jobs
      ensures Snapshot() == SaveJob(old(Snapshot()), job)
    {
      if job.slot in jobs {
        var row := jobs[job.slot];
        var created := row.createdAt;
        if (row.status == Succeeded || row.status == DeadLetter) && job.status == Pending {
          created := job.createdAt;
        }
        row := row.(status := job.status, attempts := job.attempts, lease := job.lease,
          nextAttempt := job.nextAttempt, createdAt := created);
        jobs := jobs[job.slot := row];
      } else {
        jobs := jobs[job.slot := job];
      }
    }

    method Add(r: Record)
      modifies this`history
      ensures Snapshot() == AddRecord(old(Snapshot()), r)
    {
      history := history[r.slot := r];
    }

    method Mark(key: Key)
      modifies this`keys
      ensures Snapshot() == MarkKey(old(Snapshot()), key)
    {
      keys := keys + {key};
    }

    method Save(a: Article)
      modifies this`articles
      ensures Snapshot() == SaveArticle(old(Snapshot()), a)
    {
      articles := articles[a.id := a];
    }

    method Select(keep: Job -> bool, key: Job -> (int, int)) returns (rows: seq<Job>)
      requires Snapshot().WellFormed()
      ensures Listing(Snapshot(), keep, key, rows)
    {
      rows := [];
      var rest := jobs.Keys;
      while rest != {}
        invariant rest <= jobs.Keys
        invariant forall i :: 0 <= i < |rows| ==>
          rows[i].slot in jobs && rows[i].slot !in rest && jobs[rows[i].slot] == rows[i] && keep(rows[i])
        invariant forall k :: k in jobs && k !in rest && keep(jobs[k]) ==> jobs[k] in rows
        invariant Sorted(rows, key)
      {
        var k :| k in rest;
        if keep(jobs[k]) {
          InsertKeepsOrder(rows, key, jobs[k]);
          ghost var was := rows;
          rows := Insert(rows, key, jobs[k]);
          assert forall i :: 0 <= i < |rows| ==> rows[i] in was || rows[i] == jobs[k];
        }
        rest := rest - {k};
      }
    }

    method GetEligibleJobs(now: int) returns (rows: seq<Job>)
      requires Snapshot().WellFormed()
      ensures EligibleListing(Snapshot(), now, rows)
    {
      rows := Select(EligibleAt(now), QueueOrder());
    }

    method GetAllJobs() returns (rows: seq<Job>)
      requires Snapshot().WellFormed()
      ensures Listing(Snapshot(), _ => true, CreationOrder(), rows)
    {
      rows := Select(_ => true, CreationOrder());
    }

    method GetStaleLeasedJobs(now: int) returns (rows: seq<Job>)
      requires Snapshot().WellFormed()
      ensures Listing(Snapshot(), StaleAt(now), NoOrder(), rows)
    {
      rows := Select(StaleAt(now), NoOrder());
    }

    method AllRecords() returns (rows: seq<Record>)
      requires Snapshot().WellFormed()
      ensures HistoryListing(Snapshot(), rows)
    {
      rows := [];
      var rest := history.Keys;
      while rest != {}
        invariant rest <= history.Keys
        invariant forall i :: 0 <= i < |rows| ==>
          rows[i].slot in history && rows[i].slot !in rest && history[rows[i].slot] == rows[i]
        invariant forall i, j :: 0 <= i < j < |rows| ==> rows[i].slot != rows[j].slot
        invariant forall k :: k in history && k !in rest ==> history[k] in rows
      {
        var k :| k in rest;
        rows := rows + [history[k]];
        rest := rest - {k};
      }
    }
  }
}
