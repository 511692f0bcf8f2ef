/** The ingest gate: only fresh articles are ever enqueued, each row changes exactly when it must,
    and fetching an unchanged, delivered item again leaves the queue alone. */
module Gate {
  import opened Base
  import opened Tables
  import opened Ingest
  import opened Catalog
  import opened Service
  import opened Columns

  /** The article's time is known and not before `since`. */
  predicate Young(a: Article, since: int) { a.timeKnown && DatedSince(a, since) }

  lemma FreshMeans(a: Article, now: int, maxAge: int)
    ensures IsFresh(a, now, maxAge) <==> Young(a, now - maxAge)
  {
  }

  ghost predicate SameRow(t: Tables, t': Tables, k: Slot) {
    (k in t.jobs <==> k in t'.jobs) && (k in t.jobs ==> t'.jobs[k] == t.jobs[k])
  }

  /** The row that enqueueing article a leaves behind for slot k. */
  function Row(cfg: Settings, t: Tables, a: Article, k: Slot, now: int): Job {
    EnqueueOne(cfg, t, a, k, now).jobs[k]
  }

  /** Enqueueing twice at one time is enqueueing once. */
  lemma EnqueueTwice(cfg: Settings, t: Tables, t1: Tables, a: Article, k: Slot, now: int)
    requires k in t1.jobs && t1.jobs[k] == Row(cfg, t, a, k, now)
    ensures Row(cfg, t1, a, k, now) == Row(cfg, t, a, k, now)
  {
  }

  /** Enqueueing one job touches its row only. */
  lemma EnqueueOneRow(cfg: Settings, t: Tables, a: Article, slot: Slot, now: int, k: Slot)
    ensures var r := EnqueueOne(cfg, t, a, slot, now);
      if k == slot then k in r.jobs && r.jobs[k] == Row(cfg, t, a, k, now) else SameRow(t, r, k)
  {
  }

  lemma {:induction false} EnqueueForRow(cfg: Settings, t: Tables, a: Article, destinations: seq<string>, now: int, k: Slot)
    ensures var r := EnqueueFor(cfg, t, a, destinations, now);
      if k.article == a.id && k.destination in destinations then k in r.jobs && r.jobs[k] == Row(cfg, t, a, k, now)
      else SameRow(t, r, k)
  {
    if destinations != [] {
      var n := |destinations| - 1;
      var front := destinations[..n];
      assert destinations == front + [destinations[n]];
      EnqueueForRow(cfg, t, a, front, now, k);
      EnqueueOneRow(cfg, EnqueueFor(cfg, t, a, front, now), a, Slot(a.id, destinations[n]), now, k);
      if k == Slot(a.id, destinations[n]) && destinations[n] in front {
        EnqueueTwice(cfg, t, EnqueueFor(cfg, t, a, front, now), a, k, now);
      }
    }
  }

  ghost predicate DistinctIds(articles: seq<Article>) {
    forall i, j :: 0 <= i < j < |articles| ==> articles[i].id != articles[j].id
  }

  /** A batch leaves alone the rows of other articles and other destinations. */
  lemma {:induction false} EnqueueAllElsewhere(cfg: Settings, t: Tables, articles: seq<Article>, now: int, k: Slot)
    requires k.destination !in cfg.destinations || forall i :: 0 <= i < |articles| ==> articles[i].id != k.article
    ensures SameRow(t, EnqueueAll(cfg, t, articles, now), k)
  {
    if articles != [] {
      var n := |articles| - 1;
      EnqueueAllElsewhere(cfg, t, articles[..n], now, k);
      EnqueueForRow(cfg, EnqueueAll(cfg, t, articles[..n], now), articles[n], cfg.destinations, now, k);
    }
  }

  /** What a batch of different articles does to a row: the article it belongs to decides. */
  lemma {:induction false} EnqueueAllRow(cfg: Settings, t: Tables, articles: seq<Article>, now: int, k: Slot)
    requires DistinctIds(articles)
    ensures var r := EnqueueAll(cfg, t, articles, now);
      forall i :: 0 <= i < |articles| && k.article == articles[i].id && k.destination in cfg.destinations ==>
        k in r.jobs && r.jobs[k] == Row(cfg, t, articles[i], k, now)
  {
    if articles != [] {
      var n := |articles| - 1;
      EnqueueAllRow(cfg, t, articles[..n], now, k);
      if k.article == articles[n].id {
        EnqueueAllElsewhere(cfg, t, articles[..n], now, k);
      }
      EnqueueForRow(cfg, EnqueueAll(cfg, t, articles[..n], now), articles[n], cfg.destinations, now, k);
    }
  }

  /** Every article to be enqueued is a wanted one of the batch. */
  lemma {:induction false} UndeliveredFrom(cfg: Settings, t: Tables, news: seq<Article>, now: int, a: Article) returns (i: nat)
    requires a in Undelivered(cfg, t, news, now)
    ensures i < |news| && Wanted(cfg, t, news[i], now) && a == Enriched(cfg, news[i])
  {
    var n := |news| - 1;
    if a in Undelivered(cfg, t, news[..n], now) {
      i := UndeliveredFrom(cfg, t, news[..n], now, a);
    } else {
      i := n;
    }
  }

  lemma {:induction false} UndeliveredHas(cfg: Settings, t: Tables, news: seq<Article>, now: int, i: nat)
    requires i < |news| && Wanted(cfg, t, news[i], now)
    ensures Enriched(cfg, news[i]) in Undelivered(cfg, t, news, now)
  {
    var n := |news| - 1;
    if i < n {
      UndeliveredHas(cfg, t, news[..n], now, i);
    }
  }

  lemma {:induction false} UndeliveredDistinct(cfg: Settings, t: Tables, news: seq<Article>, now: int)
    requires DistinctIds(news)
    ensures DistinctIds(Undelivered(cfg, t, news, now))
  {
    if news != [] {
      var n := |news| - 1;
      UndeliveredDistinct(cfg, t, news[..n], now);
      var front := Undelivered(cfg, t, news[..n], now);
      forall j | 0 <= j < |front| ensures front[j].id != news[n].id {
        var i := UndeliveredFrom(cfg, t, news[..n], now, front[j]);
      }
    }
  }

  function Queued(cfg: Settings, t: Tables, news: seq<Article>, now: int): Tables {
    EnqueueAll(cfg, t, Undelivered(cfg, t, news, now), now)
  }

  /** A row is enqueued, and so changed, only for an article of known time that is dated within the age limit. */
  lemma OnlyFreshEnqueued(cfg: Settings, t: Tables, news: seq<Article>, now: int, k: Slot)
    requires !SameRow(t, Queued(cfg, t, news, now), k)
    ensures exists i :: 0 <= i < |news| && news[i].id == k.article && Young(news[i], now - cfg.maxAge)
    ensures k.destination in cfg.destinations
  {
    var u := Undelivered(cfg, t, news, now);
    if k.destination !in cfg.destinations || forall j :: 0 <= j < |u| ==> u[j].id != k.article {
      EnqueueAllElsewhere(cfg, t, u, now, k);
    }
    var j :| 0 <= j < |u| && u[j].id == k.article;
    var i := UndeliveredFrom(cfg, t, news, now, u[j]);
  }

  /** A fresh article's row for a configured destination is set back to a first attempt exactly when
      the destination is not fully served and has no row yet, or the article counts as undelivered
      or outdated; otherwise it stays as it is, retries and all. */
  lemma EnqueuedExactly(cfg: Settings, t: Tables, news: seq<Article>, now: int, i: nat, d: string)
    requires DistinctIds(news) && i < |news| && d in cfg.destinations
    ensures var k := Slot(news[i].id, d);
      if Wanted(cfg, t, news[i], now) && NeedsQueue(t, news[i], k)
      then k in Queued(cfg, t, news, now).jobs
        && Queued(cfg, t, news, now).jobs[k] == SaveJob(t, NewJob(cfg, Enriched(cfg, news[i]), k, now)).jobs[k]
      else SameRow(t, Queued(cfg, t, news, now), k)
  {
    var k, u := Slot(news[i].id, d), Undelivered(cfg, t, news, now);
    UndeliveredDistinct(cfg, t, news, now);
    EnqueueAllRow(cfg, t, u, now, k);
    if Wanted(cfg, t, news[i], now) {
      UndeliveredHas(cfg, t, news, now, i);
      var j :| 0 <= j < |u| && u[j] == Enriched(cfg, news[i]);
    } else {
      forall j | 0 <= j < |u| ensures u[j].id != k.article {
        var x := UndeliveredFrom(cfg, t, news, now, u[j]);
      }
      EnqueueAllElsewhere(cfg, t, u, now, k);
    }
  }

  /** Re-ingest: an item is fetched again unchanged after some destination delivered its article, the
      news being at most five seconds later than that delivery. Then every row of the article stays
      as it is, whatever else the batch contains. */
  lemma ReingestIsQuiet(cfg: Settings, t: Tables, names: Naming, existing: Option<Article>, item: FeedItem, fetchedAt: int,
    again: int, deliveredAt: int, text: string, news: seq<Article>, now: int, i: nat, d: string)
    requires existing.Some? ==> existing.value.id != ""
    requires var stored := Merged(existing, item, fetchedAt, names).(channelAt := Some(deliveredAt), content := text);
      && !PreEpoch(stored, item) && !Outdated(stored)
      && DistinctIds(news) && i < |news| && news[i] == Merged(Some(stored), item, again, names)
      && Slot(stored.id, d) in t.jobs
    ensures news[i].channelAt == Some(deliveredAt)
    ensures SameRow(t, Queued(cfg, t, news, now), Slot(news[i].id, d))
  {
    FetchTwice(existing, item, fetchedAt, again, names, Some(deliveredAt), text);
    if d in cfg.destinations {
      EnqueuedExactly(cfg, t, news, now, i, d);
    } else {
      EnqueueAllElsewhere(cfg, t, Undelivered(cfg, t, news, now), now, Slot(news[i].id, d));
    }
  }

  // ----- what is enqueued, column by column --------------------------------------------------

  /** Dated later than its delivery mark by more than five seconds. */
  predicate UpdatedSince(a: Article) { a.channelAt.Some? && DatedAfter(a, a.channelAt.value + 5_000_000) }

  /** Some destination may still lack this version. */
  ghost predicate Lacking(t: Tables, a: Article, destinations: seq<string>) {
    || a.channelAt.None? || UpdatedSince(a)
    || exists d :: d in destinations && Legacy(Slot(a.id, d)) !in t.keys
  }

  /** A job before its first attempt. */
  predicate Untried(job: Job) {
    job.status == Pending && job.attempts == 0 && job.lease == None && job.nextAttempt == None
  }

  lemma OutdatedMeans(a: Article)
    requires a.channelAt.Some?
    ensures Outdated(a) <==> UpdatedSince(a)
  {
  }

  lemma WantedMeans(cfg: Settings, t: Tables, a: Article, now: int)
    requires cfg.destinations != []
    ensures Wanted(cfg, t, a, now) <==> Young(a, now - cfg.maxAge) && Lacking(t, a, cfg.destinations)
  {
    if a.channelAt.Some? {
      OutdatedMeans(a);
      OutdatedMeans(Enriched(cfg, a));
    }
    assert forall d :: d in cfg.destinations ==> Slot(Enriched(cfg, a).id, d) == Slot(a.id, d);
  }

  lemma NeedsQueueMeans(t: Tables, a: Article, k: Slot)
    ensures NeedsQueue(t, a, k) <==> k !in t.jobs || a.channelAt.None? || UpdatedSince(a)
  {
    if a.channelAt.Some? {
      OutdatedMeans(a);
    }
  }

  /** In a batch of different articles a row is set to a first attempt exactly when the article is within
      the age limit, some destination may lack it, and the row is missing or the article unmarked or
      updated since its mark. A new row takes rank and source from the rewritten article, the configured
      limit and the time of the fetch; an old one keeps priority, source and limit. Otherwise it stays. */
  lemma EnqueuedInColumns(cfg: Settings, t: Tables, news: seq<Article>, now: int, i: nat, d: string)
    requires DistinctIds(news) && i < |news| && d in cfg.destinations
    ensures var a, k, t' := news[i], Slot(news[i].id, d), Queued(cfg, t, news, now);
      if Young(a, now - cfg.maxAge) && Lacking(t, a, cfg.destinations) && (k !in t.jobs || a.channelAt.None? || UpdatedSince(a)) then
        && k in t'.jobs && Untried(t'.jobs[k])
        && (k !in t.jobs ==>
              && t'.jobs[k].priority == cfg.rank(a.(content := cfg.rewrite(a))) && t'.jobs[k].source == a.source
              && t'.jobs[k].maxAttempts == cfg.maxAttempts && t'.jobs[k].createdAt == now)
        && (k in t.jobs ==>
              && t'.jobs[k].priority == t.jobs[k].priority && t'.jobs[k].source == t.jobs[k].source
              && t'.jobs[k].maxAttempts == t.jobs[k].maxAttempts
              && t'.jobs[k].createdAt == if t.jobs[k].status in {Succeeded, DeadLetter} then now else t.jobs[k].createdAt)
      else SameRow(t, t', k)
  {
    EnqueuedExactly(cfg, t, news, now, i, d);
    WantedMeans(cfg, t, news[i], now);
    NeedsQueueMeans(t, news[i], Slot(news[i].id, d));
  }

  lemma {:induction false} FirstTried(cfg: Settings, t: Tables, articles: seq<Article>, now: int, k: Slot)
    requires k !in t.jobs
    ensures var r := EnqueueAll(cfg, t, articles, now);
      && (k in r.jobs ==> Untried(r.jobs[k]) && r.jobs[k].maxAttempts == cfg.maxAttempts && r.jobs[k].createdAt == now)
      && (forall a :: a in articles && a.id == k.article && k.destination in cfg.destinations ==> k in r.jobs)
  {
    if articles != [] {
      var n := |articles| - 1;
      FirstTried(cfg, t, articles[..n], now, k);
      EnqueueForRow(cfg, EnqueueAll(cfg, t, articles[..n], now), articles[n], cfg.destinations, now, k);
    }
  }

  /** The converse of the gate, for every batch: an article of known time within the age limit that carries
      no delivery mark gets a job for each configured destination that has none, before its first attempt. */
  lemma FreshIsEnqueued(cfg: Settings, t: Tables, news: seq<Article>, now: int, i: nat, d: string)
    requires i < |news| && Young(news[i], now - cfg.maxAge) && news[i].channelAt == None
    requires d in cfg.destinations && Slot(news[i].id, d) !in t.jobs
    ensures var k, t' := Slot(news[i].id, d), Queued(cfg, t, news, now);
      k in t'.jobs && Untried(t'.jobs[k]) && t'.jobs[k].maxAttempts == cfg.maxAttempts && t'.jobs[k].createdAt == now
  {
    UndeliveredHas(cfg, t, news, now, i);
    FirstTried(cfg, t, Undelivered(cfg, t, news, now), now, Slot(news[i].id, d));
  }

  /** What a fetch counts: the places of articles outside the age limit or of unknown time, and those of
      articles within it that every destination has. */
  lemma CountsInColumns(cfg: Settings, t: Tables, news: seq<Article>, now: int, i: nat)
    ensures i in StalePlaces(cfg, news, now) <==> i < |news| && !Young(news[i], now - cfg.maxAge)
    ensures i in ServedPlaces(cfg, t, news, now) <==>
      i < |news| && Young(news[i], now - cfg.maxAge) && cfg.destinations != [] && !Lacking(t, news[i], cfg.destinations)
  {
    if i < |news| && news[i].channelAt.Some? {
      OutdatedMeans(news[i]);
    }
  }

  predicate StartsWith(s: string, start: string) { |s| >= |start| && s[..|start|] == start }

  /** The items that are merged: those with a title and a web address, and of several with one URL the first,
      provided that is one of them. */
  lemma KeptInColumns(items: seq<FeedItem>, item: FeedItem)
    ensures Kept(items, item) <==>
      && item.titled && (StartsWith(item.url, "http://") || StartsWith(item.url, "https://"))
      && exists n :: 0 <= n < |items| && items[n] == item && forall m :: 0 <= m < n ==> items[m].url != item.url
  {
    if n :| 0 <= n < |items| && items[n] == item && forall m :: 0 <= m < n ==> items[m].url != item.url {
      assert FirstOfUrl(items, n);
    }
  }

  // ----- over a whole run ------------------------------------------------------------------

  /** Fetches, and whatever the workers do to rows and articles in between; they create no rows. */
  datatype Move = Fetching(news: seq<Article>, now: int) | Working(after: Tables)

  ghost function AfterMove(cfg: Settings, t: Tables, move: Move): Tables {
    match move
    case Fetching(news, now) => Queued(cfg, t, news, now)
    case Working(after) => after
  }

  /** Workers create no rows. */
  ghost predicate Allowed(t: Tables, move: Move) { move.Working? ==> move.after.jobs.Keys == t.jobs.Keys }

  ghost predicate Moves(cfg: Settings, t: Tables, moves: seq<Move>)
    decreases |moves|
  {
    moves != [] ==> Allowed(t, moves[0]) && Moves(cfg, AfterMove(cfg, t, moves[0]), moves[1..])
  }

  /** The state after the first m moves. */
  ghost function Reached(cfg: Settings, t: Tables, moves: seq<Move>, m: nat): Tables
    requires m <= |moves|
    decreases m
  {
    if m == 0 then t else Reached(cfg, AfterMove(cfg, t, moves[0]), moves[1..], m - 1)
  }

  /** In any run, whatever a fetch changes in the queue - a new job or an old one set back to a first
      attempt - belongs to a configured destination of an article of the fetch whose time is known and, at
      that moment, within the age limit. */
  lemma {:induction false} EveryChangeWasFresh(cfg: Settings, t: Tables, moves: seq<Move>, m: nat, k: Slot)
    requires Moves(cfg, t, moves) && m < |moves| && moves[m].Fetching?
    requires !SameRow(Reached(cfg, t, moves, m), Reached(cfg, t, moves, m + 1), k)
    ensures k.destination in cfg.destinations
    ensures var Fetching(news, now) := moves[m];
      exists i :: 0 <= i < |news| && news[i].id == k.article && Young(news[i], now - cfg.maxAge)
    decreases m
  {
    var next := AfterMove(cfg, t, moves[0]);
    if m == 0 {
      assert Reached(cfg, next, moves[1..], 0) == next;
      OnlyFreshEnqueued(cfg, t, moves[0].news, moves[0].now, k);
    } else {
      EveryChangeWasFresh(cfg, next, moves[1..], m - 1, k);
    }
  }

  /** In any run, every job that exists at the end existed at the start or was enqueued by a fetch in
      which its article was within the age limit: no stale article and none of unknown time ever gets a job. */
  lemma {:induction false} EveryJobWasFresh(cfg: Settings, t: Tables, moves: seq<Move>, k: Slot) returns (m: nat)
    requires Moves(cfg, t, moves) && k in Reached(cfg, t, moves, |moves|).jobs && k !in t.jobs
    ensures m < |moves| && moves[m].Fetching?
    ensures var Fetching(news, now) := moves[m];
      exists i :: 0 <= i < |news| && news[i].id == k.article && Young(news[i], now - cfg.maxAge)
    ensures k !in Reached(cfg, t, moves, m).jobs && k in Reached(cfg, t, moves, m + 1).jobs
    decreases |moves|
  {
    var next := AfterMove(cfg, t, moves[0]);
    if k in next.jobs {
      m := 0;
      assert Reached(cfg, t, moves, 1) == Reached(cfg, next, moves[1..], 0) == next;
      EveryChangeWasFresh(cfg, t, moves, 0, k);
    } else {
      var n := EveryJobWasFresh(cfg, next, moves[1..], k);
      m := n + 1;
    }
  }
}
