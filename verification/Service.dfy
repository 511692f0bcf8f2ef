/** The feed side of the queue: which fetched articles are enqueued, for which destinations. */
module Service {
  import opened Base
  import opened Tables
  import opened Ingest
  import opened Catalog

  /** `rank` and `rewrite` stand for the priority heuristics and the optional rewriting of the text. */
  datatype Settings = Settings(
    maxAge: int, maxAttempts: int, destinations: seq<string>, rank: Article -> int, rewrite: Article -> string)

  predicate IsFresh(a: Article, now: int, maxAge: int) {
    a.timeKnown && a.NewsTimestamp().Some? && a.NewsTimestamp().value >= now - maxAge
  }

  /** The news is later than the delivery mark by more than the slack. */
  predicate Outdated(a: Article)
    requires a.channelAt.Some?
  {
    a.NewsTimestamp().Some? && a.NewsTimestamp().value > a.channelAt.value + SLACK
  }

  predicate FullyDelivered(t: Tables, a: Article, destinations: seq<string>) {
    && a.channelAt.Some? && !Outdated(a) && destinations != []
    && forall d :: d in destinations ==> Legacy(Slot(a.id, d)) in t.keys
  }

  predicate NeedsQueue(t: Tables, a: Article, k: Slot) {
    k !in t.jobs || a.channelAt.None? || Outdated(a)
  }

  function NewJob(cfg: Settings, a: Article, k: Slot, now: int): Job {
    Job(k, Pending, cfg.rank(a), a.source, 0, cfg.maxAttempts, None, None, now)
  }

  function Enriched(cfg: Settings, a: Article): Article { a.(content := cfg.rewrite(a)) }

  predicate Wanted(cfg: Settings, t: Tables, a: Article, now: int) {
    IsFresh(a, now, cfg.maxAge) && !FullyDelivered(t, Enriched(cfg, a), cfg.destinations)
  }

  /** The fresh articles that some destination may still lack. */
  function Undelivered(cfg: Settings, t: Tables, news: seq<Article>, now: int): seq<Article> {
    if news == [] then []
    else
      var n := |news| - 1;
      Undelivered(cfg, t, news[..n], now) + if Wanted(cfg, t, news[n], now) then [Enriched(cfg, news[n])] else []
  }

  function EnqueueOne(cfg: Settings, t: Tables, a: Article, k: Slot, now: int): Tables {
    if NeedsQueue(t, a, k) then SaveJob(t, NewJob(cfg, a, k, now)) else t
  }

  function EnqueueFor(cfg: Settings, t: Tables, a: Article, destinations: seq<string>, now: int): Tables {
    if destinations == [] then t
    else
      var n := |destinations| - 1;
      EnqueueOne(cfg, EnqueueFor(cfg, t, a, destinations[..n], now), a, Slot(a.id, destinations[n]), now)
  }

  function EnqueueAll(cfg: Settings, t: Tables, articles: seq<Article>, now: int): Tables {
    if articles == [] then t
    else
      var n := |articles| - 1;
      EnqueueFor(cfg, EnqueueAll(cfg, t, articles[..n], now), articles[n], cfg.destinations, now)
  }

  /** The places of the stale articles, and of the fresh ones that every destination has. */
  ghost function StalePlaces(cfg: Settings, news: seq<Article>, now: int): set<nat> {
    set i: nat | i < |news| && !IsFresh(news[i], now, cfg.maxAge)
  }

  ghost function ServedPlaces(cfg: Settings, t: Tables, news: seq<Article>, now: int): set<nat> {
    set i: nat | i < |news| && IsFresh(news[i], now, cfg.maxAge) && FullyDelivered(t, news[i], cfg.destinations)
  }

  lemma StaleStep(cfg: Settings, news: seq<Article>, now: int, n: nat)
    requires n < |news|
    ensures |StalePlaces(cfg, news[..n + 1], now)| ==
      |StalePlaces(cfg, news[..n], now)| + if IsFresh(news[n], now, cfg.maxAge) then 0 else 1
  {
    SizeStep(StalePlaces(cfg, news[..n], now), StalePlaces(cfg, news[..n + 1], now), n, !IsFresh(news[n], now, cfg.maxAge));
  }

  lemma ServedStep(cfg: Settings, t: Tables, news: seq<Article>, now: int, n: nat)
    requires n < |news|
    ensures |ServedPlaces(cfg, t, news[..n + 1], now)| == |ServedPlaces(cfg, t, news[..n], now)| +
      if IsFresh(news[n], now, cfg.maxAge) && FullyDelivered(t, news[n], cfg.destinations) then 1 else 0
  {
    var front, more := ServedPlaces(cfg, t, news[..n], now), ServedPlaces(cfg, t, news[..n + 1], now);
    var served := IsFresh(news[n], now, cfg.maxAge) && FullyDelivered(t, news[n], cfg.destinations);
    forall i: nat ensures i in more <==> i in front || (i == n && served) {
      assert i < n ==> news[..n + 1][i] == news[..n][i];
    }
    SizeStep(front, more, n, served);
  }

  /** The counts of a sifted batch, and what is left of it. */
  ghost predicate Sifted(cfg: Settings, t: Tables, news: seq<Article>, now: int, oldCount: nat, duplicates: nat,
    undelivered: seq<Article>)
  {
    && oldCount == |StalePlaces(cfg, news, now)| && duplicates == |ServedPlaces(cfg, t, news, now)|
    && undelivered == Undelivered(cfg, t, news, now) && oldCount + duplicates + |undelivered| == |news|
  }

  lemma SiftStep(cfg: Settings, t: Tables, news: seq<Article>, now: int, n: nat, oldCount: nat, duplicates: nat,
    undelivered: seq<Article>)
    requires n < |news| && Sifted(cfg, t, news[..n], now, oldCount, duplicates, undelivered)
    ensures
      if !IsFresh(news[n], now, cfg.maxAge) then Sifted(cfg, t, news[..n + 1], now, oldCount + 1, duplicates, undelivered)
      else if FullyDelivered(t, Enriched(cfg, news[n]), cfg.destinations)
      then Sifted(cfg, t, news[..n + 1], now, oldCount, duplicates + 1, undelivered)
      else Sifted(cfg, t, news[..n + 1], now, oldCount, duplicates, undelivered + [Enriched(cfg, news[n])])
  {
    assert news[..n + 1][..n] == news[..n];
    StaleStep(cfg, news, now, n);
    ServedStep(cfg, t, news, now, n);
  }

  // ----- the service ---------------------------------------------------------------------

  /** Enqueueing for some destinations adds exactly their rows. */
  lemma {:induction false} RowsAfter(cfg: Settings, t: Tables, a: Article, destinations: seq<string>, now: int, k: Slot)
    ensures k in EnqueueFor(cfg, t, a, destinations, now).jobs <==>
      k in t.jobs || (k.article == a.id && k.destination in destinations)
  {
    if destinations != [] {
      var n := |destinations| - 1;
      RowsAfter(cfg, t, a, destinations[..n], now, k);
      assert destinations == destinations[..n] + [destinations[n]];
    }
  }

  /** Destination number i gets a job: when the article is unmarked or outdated, every one does,
      otherwise the first occurrence of each one without a row. */
  predicate Queues(cfg: Settings, t: Tables, a: Article, i: nat)
    requires i < |cfg.destinations|
  {
    || a.channelAt.None? || Outdated(a)
    || (Slot(a.id, cfg.destinations[i]) !in t.jobs && cfg.destinations[i] !in cfg.destinations[..i])
  }

  ghost function Queueing(cfg: Settings, t: Tables, a: Article, n: nat): set<nat>
    requires n <= |cfg.destinations|
  {
    set i: nat | i < n && Queues(cfg, t, a, i)
  }

  lemma QueuesExactly(cfg: Settings, t: Tables, a: Article, now: int, n: nat)
    requires n < |cfg.destinations|
    ensures Queues(cfg, t, a, n) <==>
      NeedsQueue(EnqueueFor(cfg, t, a, cfg.destinations[..n], now), a, Slot(a.id, cfg.destinations[n]))
  {
    RowsAfter(cfg, t, a, cfg.destinations[..n], now, Slot(a.id, cfg.destinations[n]));
  }

  lemma QueueingStep(cfg: Settings, t: Tables, a: Article, n: nat)
    requires n < |cfg.destinations|
    ensures |Queueing(cfg, t, a, n + 1)| == |Queueing(cfg, t, a, n)| + One(Queues(cfg, t, a, n))
  {
    SizeStep(Queueing(cfg, t, a, n), Queueing(cfg, t, a, n + 1), n, Queues(cfg, t, a, n));
  }

  predicate FirstOfUrl(items: seq<FeedItem>, n: nat)
    requires n < |items|
  {
    forall m :: 0 <= m < n ==> items[m].url != items[n].url
  }

  /** The item is the first of its URL in the batch, and valid. */
  ghost predicate Kept(items: seq<FeedItem>, item: FeedItem) {
    Validates(item) && exists n :: 0 <= n < |items| && FirstOfUrl(items, n) && items[n] == item
  }

  lemma KeptExactly(items: seq<FeedItem>, unique: seq<FeedItem>, places: seq<nat>, kept: seq<FeedItem>)
    requires |places| == |unique|
    requires forall i :: 0 <= i < |unique| ==>
      places[i] < |items| && unique[i] == items[places[i]] && FirstOfUrl(items, places[i])
    requires forall n: nat :: n < |items| && FirstOfUrl(items, n) ==> n in places
    requires forall item :: item in kept <==> item in unique && Validates(item)
    ensures forall item :: item in kept <==> Kept(items, item)
  {
    forall item ensures item in kept <==> Kept(items, item) {
      if item in unique {
        var i :| 0 <= i < |unique| && unique[i] == item;
        assert FirstOfUrl(items, places[i]) && items[places[i]] == item;
      }
      if Kept(items, item) {
        var n: nat :| n < |items| && FirstOfUrl(items, n) && items[n] == item;
        var i :| 0 <= i < |places| && places[i] == n;
        assert unique[i] == item;
      }
    }
  }

  predicate Validates(item: FeedItem) { item.titled && ("http://" <= item.url || "https://" <= item.url) }

  class ProcessingService {
    const store: Store
    const cfg: Settings
    const names: Naming

    constructor (store: Store, cfg: Settings, names: Naming)
      ensures this.store == store && this.cfg == cfg && this.names == names
    {
      this.store, this.cfg, this.names := store, cfg, names;
    }

    /** Exactly the first item of each URL, in the order of the feed; `places` says where they stood. */
    method UniqueItems(items: seq<FeedItem>) returns (r: seq<FeedItem>, ghost places: seq<nat>)
      ensures |places| == |r| && forall i, j :: 0 <= i < j < |places| ==> places[i] < places[j]
      ensures forall i :: 0 <= i < |r| ==> places[i] < |items| && r[i] == items[places[i]] && FirstOfUrl(items, places[i])
      ensures forall n: nat :: n < |items| && FirstOfUrl(items, n) ==> n in places
    {
      r, places := [], [];
      var seen: set<string> := {};
      for n := 0 to |items|
        invariant |places| == |r| && forall i, j :: 0 <= i < j < |places| ==> places[i] < places[j]
        invariant forall i :: 0 <= i < |r| ==> places[i] < n && r[i] == items[places[i]] && FirstOfUrl(items, places[i])
        invariant forall u :: u in seen <==> exists i :: 0 <= i < n && items[i].url == u
        invariant forall i: nat :: i < n && FirstOfUrl(items, i) ==> i in places
      {
        if items[n].url !in seen {
          r, places := r + [items[n]], places + [n];
          seen := seen + {items[n].url};
        }
      }
    }

    method NormalizeAll(items: seq<FeedItem>, now: int) returns (news: seq<Article>, rejected: nat, ghost kept: seq<FeedItem>)
      requires forall i, j :: 0 <= i < j < |items| ==> items[i].url != items[j].url
      ensures Fetched(store.articles, kept, now, names, news) && |news| + rejected == |items|
      ensures forall item :: item in kept <==> item in items && Validates(item)
    {
      news, rejected, kept := [], 0, [];
      for n := 0 to |items|
        invariant |news| == |kept| && |news| + rejected == n
        invariant forall item :: item in kept <==> item in items[..n] && Validates(item)
        invariant forall i, j :: 0 <= i < j < |kept| ==> kept[i].url != kept[j].url
        invariant forall i :: 0 <= i < |kept| ==> MergedWith(store.articles, kept[i], now, names, news[i])
      {
        assert items[..n + 1] == items[..n] + [items[n]];
        var article := Normalize(store, items[n], now, names);
        if Validates(items[n]) {
          assert forall i :: 0 <= i < |kept| ==> kept[i] in items[..n];
          news, kept := news + [article], kept + [items[n]];
        } else {
          rejected := rejected + 1;
        }
      }
      assert items[..|items|] == items;
    }

    method Enqueue(a: Article, now: int) returns (queued: nat)
      modifies store`jobs
      ensures store.Snapshot() == EnqueueFor(cfg, old(store.Snapshot()), a, cfg.destinations, now)
      ensures queued == |Queueing(cfg, old(store.Snapshot()), a, |cfg.destinations|)|
    {
      queued := 0;
      for n := 0 to |cfg.destinations|
        invariant store.Snapshot() == EnqueueFor(cfg, old(store.Snapshot()), a, cfg.destinations[..n], now)
        invariant queued == |Queueing(cfg, old(store.Snapshot()), a, n)|
      {
        QueuesExactly(cfg, old(store.Snapshot()), a, now, n);
        QueueingStep(cfg, old(store.Snapshot()), a, n);
        assert cfg.destinations[..n + 1][..n] == cfg.destinations[..n];
        var k := Slot(a.id, cfg.destinations[n]);
        var needsQueue := k !in store.jobs || a.channelAt.None?;
        if !needsQueue && a.NewsTimestamp().Some? && a.NewsTimestamp().value > a.channelAt.value + SLACK {
          needsQueue := true;
        }
        if needsQueue {
          store.AddJob(NewJob(cfg, a, k, now));
          queued := queued + 1;
        }
      }
      assert cfg.destinations[..|cfg.destinations|] == cfg.destinations;
    }

    /** Counting the stale articles and those delivered everywhere; the rest is to be enqueued. */
    method Sift(news: seq<Article>, now: int)
      returns (oldCount: nat, duplicates: nat, articles: seq<Article>, undelivered: seq<Article>)
      ensures Sifted(cfg, store.Snapshot(), news, now, oldCount, duplicates, undelivered) && |articles| == |news|
      ensures forall i :: 0 <= i < |news| ==>
        articles[i] == if IsFresh(news[i], now, cfg.maxAge) then Enriched(cfg, news[i]) else news[i]
    {
      oldCount, duplicates, articles, undelivered := 0, 0, [], [];
      for n := 0 to |news|
        invariant Sifted(cfg, store.Snapshot(), news[..n], now, oldCount, duplicates, undelivered) && |articles| == n
        invariant forall i :: 0 <= i < n ==>
          articles[i] == if IsFresh(news[i], now, cfg.maxAge) then Enriched(cfg, news[i]) else news[i]
      {
        SiftStep(cfg, store.Snapshot(), news, now, n, oldCount, duplicates, undelivered);
        if !IsFresh(news[n], now, cfg.maxAge) {
          oldCount, articles := oldCount + 1, articles + [news[n]];
        } else {
          var enriched := Enriched(cfg, news[n]);
          articles := articles + [enriched];
          if FullyDelivered(store.Snapshot(), enriched, cfg.destinations) {
            duplicates := duplicates + 1;
          } else {
            undelivered := undelivered + [enriched];
          }
        }
      }
      assert news[..|news|] == news;
    }

    method EnqueueEach(undelivered: seq<Article>, now: int)
      modifies store`jobs
      ensures store.Snapshot() == EnqueueAll(cfg, old(store.Snapshot()), undelivered, now)
    {
      for n := 0 to |undelivered|
        invariant store.Snapshot() == EnqueueAll(cfg, old(store.Snapshot()), undelivered[..n], now)
      {
        assert undelivered[..n + 1][..n] == undelivered[..n];
        var queued := Enqueue(undelivered[n], now);
      }
      assert undelivered[..|undelivered|] == undelivered;
    }

    /** Fetching a batch of items: normalize all, keep the fresh, enqueue what is not delivered. */
    method Process(items: seq<FeedItem>, now: int)
      returns (oldCount: nat, duplicates: nat, articles: seq<Article>, ghost kept: seq<FeedItem>, ghost news: seq<Article>)
      modifies store`jobs
      ensures Fetched(store.articles, kept, now, names, news) && forall item :: item in kept <==> Kept(items, item)
      ensures store.Snapshot() ==
        EnqueueAll(cfg, old(store.Snapshot()), Undelivered(cfg, old(store.Snapshot()), news, now), now)
      ensures |articles| == |news| && Sifted(cfg, old(store.Snapshot()), news, now, oldCount, duplicates,
        Undelivered(cfg, old(store.Snapshot()), news, now))
      ensures forall i :: 0 <= i < |news| ==>
        articles[i] == if IsFresh(news[i], now, cfg.maxAge) then Enriched(cfg, news[i]) else news[i]
    {
      var unique, places := UniqueItems(items);
      var normalized, rejected, undelivered;
      normalized, rejected, kept := NormalizeAll(unique, now);
      KeptExactly(items, unique, places, kept);
      news := normalized;
      oldCount, duplicates, articles, undelivered := Sift(normalized, now);
      EnqueueEach(undelivered, now);
    }

    /** Processing followed by saving every article of the report. */
    method ProcessItems(items: seq<FeedItem>, now: int)
      returns (ghost news: seq<Article>, ghost kept: seq<FeedItem>, ghost saved: seq<Article>)
      modifies store`jobs, store`articles
      ensures Fetched(old(store.articles), kept, now, names, news) && forall item :: item in kept <==> Kept(items, item)
      ensures |saved| == |news|
      ensures forall i :: 0 <= i < |news| ==>
        saved[i] == if IsFresh(news[i], now, cfg.maxAge) then Enriched(cfg, news[i]) else news[i]
      ensures Reworded(news, saved) && store.articles == SaveAll(old(store.articles), saved)
      ensures store.jobs ==
        EnqueueAll(cfg, old(store.Snapshot()), Undelivered(cfg, old(store.Snapshot()), news, now), now).jobs
    {
      var oldCount, duplicates, articles;
      oldCount, duplicates, articles, kept, news := Process(items, now);
      saved := articles;
      ghost var queue := store.jobs;
      for n := 0 to |articles|
        invariant store.articles == SaveAll(old(store.articles), articles[..n]) && store.jobs == queue
      {
        assert articles[..n + 1][..n] == articles[..n];
        store.Save(articles[n]);
      }
      assert articles[..|articles|] == articles;
    }
  }
}
