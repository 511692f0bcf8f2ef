/** Stable identity of the stored articles over any sequence of fetches and acknowledgements, and
    when their versions never go back. */
module Catalog {
  import opened Base
  import opened Tables
  import opened Ingest

  type Articles = map<string, Article>

  /** The hypothesis under which ids identify URLs: days and hashes have fixed width, and the URLs
      that occur have different hashes and do not look like ids. */
  ghost predicate CollisionFree(names: Naming, urls: iset<string>) {
    && (forall t :: |names.day(t)| == 6)
    && (forall u, v :: u in urls && v in urls && names.hash(u) == names.hash(v) ==> u == v)
    && (forall u :: u in urls ==> !("YP-" <= u))
  }

  ghost predicate IdOf(names: Naming, url: string, id: string) { exists t :: id == names.Id(url, t) }

  /** One row per URL, named after it. */
  ghost predicate Tidy(articles: Articles, names: Naming, urls: iset<string>) {
    && (forall x :: x in articles ==>
          articles[x].id == x && articles[x].url in urls && IdOf(names, articles[x].url, x))
    && (forall x, y :: x in articles && y in articles && articles[x].url == articles[y].url ==> x == y)
  }

  lemma IdsNameUrls(names: Naming, urls: iset<string>, u: string, v: string, id: string)
    requires CollisionFree(names, urls) && u in urls && v in urls && IdOf(names, u, id) && IdOf(names, v, id)
    ensures u == v
    ensures id != "" && id !in urls
  {
    var s :| id == names.Id(u, s);
    var t :| id == names.Id(v, t);
    assert names.Id(u, s)[10..] == names.hash(u);
    assert names.Id(v, t)[10..] == names.hash(v);
    assert "YP-" <= id;
  }

  /** What is found for a URL is the one row of that URL. */
  lemma FoundByUrl(articles: Articles, names: Naming, urls: iset<string>, url: string, r: Option<Article>)
    requires CollisionFree(names, urls) && Tidy(articles, names, urls) && url in urls && Found(articles, url, r)
    ensures r.Some? ==> r.value.id in articles && articles[r.value.id] == r.value && r.value.url == url && r.value.id != ""
    ensures r.None? ==> forall x :: x in articles ==> articles[x].url != url
  {
    if r.Some? {
      var x :| x in articles && articles[x] == r.value && (x == url || r.value.url == url);
      IdsNameUrls(names, urls, articles[x].url, articles[x].url, x);
    }
  }

  // ----- one fetch of several items ------------------------------------------------------

  /** The items of one fetch, no URL twice, each merged with the rows from before the fetch. */
  ghost predicate Fetched(articles: Articles, items: seq<FeedItem>, fetchedAt: int, names: Naming, news: seq<Article>) {
    && |news| == |items|
    && (forall i, j :: 0 <= i < j < |items| ==> items[i].url != items[j].url)
    && (forall i :: 0 <= i < |items| ==> MergedWith(articles, items[i], fetchedAt, names, news[i]))
  }

  /** The articles that are saved: the merged ones, with whatever text they were given since. */
  ghost predicate Reworded(news: seq<Article>, saved: seq<Article>) {
    |saved| == |news| && forall i :: 0 <= i < |news| ==> saved[i] == news[i].(content := saved[i].content)
  }

  function SaveAll(articles: Articles, news: seq<Article>): Articles {
    if news == [] then articles
    else SaveAll(articles, news[..|news| - 1])[news[|news| - 1].id := news[|news| - 1]]
  }

  /** A fetched article continues the row of its URL, or is the first of its URL. */
  lemma FetchedOne(articles: Articles, names: Naming, urls: iset<string>, item: FeedItem, fetchedAt: int, a: Article)
    requires CollisionFree(names, urls) && Tidy(articles, names, urls) && item.url in urls
    requires MergedWith(articles, item, fetchedAt, names, a)
    ensures a.url == item.url && IdOf(names, a.url, a.id)
    ensures forall x :: x in articles && articles[x].url == a.url ==> x == a.id
    ensures a.id in articles ==> articles[a.id].url == a.url && Advanced(articles[a.id], a)
  {
    var existing :| Found(articles, item.url, existing) && a == Merged(existing, item, fetchedAt, names);
    FoundByUrl(articles, names, urls, item.url, existing);
    if existing.Some? {
      VersionNeverDecreases(existing.value, item, fetchedAt, names);
    } else {
      var time := if a.timeKnown then JudgedNews(existing, item).value else fetchedAt;
      assert a.id == names.Id(item.url, time);
      if a.id in articles {
        IdsNameUrls(names, urls, articles[a.id].url, a.url, a.id);
      }
    }
  }

  /** The later row has no smaller update time, nor, once that is valid, a smaller news time. */
  ghost predicate Advanced(was: Article, now: Article) {
    && (was.updatedAt.Some? ==> now.updatedAt.Some? && now.updatedAt.value >= was.updatedAt.value)
    && (Dated(was.updatedAt) ==>
          Dated(now.updatedAt) && was.NewsTimestamp().Some? && now.NewsTimestamp().Some?
          && now.NewsTimestamp().value >= was.NewsTimestamp().value)
  }

  /** Every row is still there, under the same id and URL. */
  ghost predicate Persists(was: Articles, now: Articles) {
    forall x :: x in was ==> x in now && now[x].url == was[x].url
  }

  /** And it has advanced. */
  ghost predicate Continues(was: Articles, now: Articles) {
    Persists(was, now) && forall x :: x in was ==> Advanced(was[x], now[x])
  }

  lemma ContinuesTransitively(a: Articles, b: Articles, c: Articles)
    requires Continues(a, b) && Continues(b, c)
    ensures Continues(a, c)
  {
    forall x | x in a ensures x in c && c[x].url == a[x].url && Advanced(a[x], c[x]) {
      assert x in b && Advanced(a[x], b[x]) && Advanced(b[x], c[x]);
    }
  }

  /** What a fetch saves: rows with distinct ids, each continuing the row of its URL or its first. */
  ghost predicate Succeeds(articles: Articles, names: Naming, urls: iset<string>, a: Article) {
    && a.url in urls && IdOf(names, a.url, a.id)
    && (forall x :: x in articles && articles[x].url == a.url ==> x == a.id)
    && (a.id in articles ==> articles[a.id].url == a.url && Advanced(articles[a.id], a))
  }

  ghost predicate AllSucceed(articles: Articles, names: Naming, urls: iset<string>, news: seq<Article>) {
    && (forall i :: 0 <= i < |news| ==> Succeeds(articles, names, urls, news[i]))
    && (forall i, j :: 0 <= i < j < |news| ==> news[i].id != news[j].id && news[i].url != news[j].url)
  }

  lemma FetchSucceeds(articles: Articles, names: Naming, urls: iset<string>, items: seq<FeedItem>, fetchedAt: int, news: seq<Article>)
    requires CollisionFree(names, urls) && Tidy(articles, names, urls)
    requires Fetched(articles, items, fetchedAt, names, news) && forall i :: 0 <= i < |items| ==> items[i].url in urls
    ensures AllSucceed(articles, names, urls, news)
  {
    forall i | 0 <= i < |news| ensures Succeeds(articles, names, urls, news[i]) && news[i].url == items[i].url {
      FetchedOne(articles, names, urls, items[i], fetchedAt, news[i]);
    }
    forall i, j | 0 <= i < j < |news| ensures news[i].id != news[j].id && news[i].url != news[j].url {
      if news[i].id == news[j].id {
        IdsNameUrls(names, urls, news[i].url, news[j].url, news[i].id);
      }
    }
  }

  lemma SaveOne(articles: Articles, names: Naming, urls: iset<string>, a: Article)
    requires Tidy(articles, names, urls) && Succeeds(articles, names, urls, a)
    ensures Tidy(articles[a.id := a], names, urls) && Continues(articles, articles[a.id := a])
  {
  }

  /** Saving one row leaves the others' prospects as they were. */
  lemma StillSucceeds(articles: Articles, names: Naming, urls: iset<string>, saved: Article, a: Article)
    requires CollisionFree(names, urls) && Succeeds(articles, names, urls, saved) && Succeeds(articles, names, urls, a)
    requires saved.id != a.id && saved.url != a.url
    ensures Succeeds(articles[saved.id := saved], names, urls, a)
  {
  }

  ghost predicate Apart(news: seq<Article>, a: Article) {
    forall i :: 0 <= i < |news| ==> news[i].id != a.id && news[i].url != a.url
  }

  lemma {:induction false} SucceedsAfter(articles: Articles, names: Naming, urls: iset<string>, news: seq<Article>, a: Article)
    requires CollisionFree(names, urls) && AllSucceed(articles, names, urls, news)
    requires Succeeds(articles, names, urls, a) && Apart(news, a)
    ensures Succeeds(SaveAll(articles, news), names, urls, a)
  {
    if news != [] {
      var front, last := news[..|news| - 1], news[|news| - 1];
      SucceedsAfter(articles, names, urls, front, a);
      SucceedsAfter(articles, names, urls, front, last);
      StillSucceeds(SaveAll(articles, front), names, urls, last, a);
    }
  }

  lemma {:induction false} FetchKeeps(articles: Articles, names: Naming, urls: iset<string>, news: seq<Article>)
    requires CollisionFree(names, urls) && Tidy(articles, names, urls) && AllSucceed(articles, names, urls, news)
    ensures Tidy(SaveAll(articles, news), names, urls) && Continues(articles, SaveAll(articles, news))
  {
    if news != [] {
      var front, last := news[..|news| - 1], news[|news| - 1];
      var mid := SaveAll(articles, front);
      FetchKeeps(articles, names, urls, front);
      SucceedsAfter(articles, names, urls, front, last);
      SaveOne(mid, names, urls, last);
      ContinuesTransitively(articles, mid, mid[last.id := last]);
    }
  }

  // ----- any sequence of fetches and acknowledgements --------------------------------------

  /** The stored rows, and the copies of rows that workers have read. A worker that acknowledges a
      delivery writes its whole copy back, with the delivery mark set. */
  datatype World = World(articles: Articles, copies: set<Article>)

  datatype Event =
    | Fetch(items: seq<FeedItem>, fetchedAt: int, news: seq<Article>, saved: seq<Article>)
    | Read(id: string)
    | SaveBack(copy: Article, at: int)

  ghost predicate Happens(w: World, names: Naming, urls: iset<string>, event: Event) {
    match event
    case Fetch(items, fetchedAt, news, saved) =>
      Fetched(w.articles, items, fetchedAt, names, news) && Reworded(news, saved) && forall i :: 0 <= i < |items| ==> items[i].url in urls
    case Read(id) => id in w.articles
    case SaveBack(copy, _) => copy in w.copies
  }

  ghost function Result(w: World, event: Event): World {
    match event
    case Fetch(_, _, _, saved) => w.(articles := SaveAll(w.articles, saved))
    case Read(id) => if id in w.articles then w.(copies := w.copies + {w.articles[id]}) else w
    case SaveBack(copy, at) => w.(articles := w.articles[copy.id := copy.(channelAt := Some(at))])
  }

  ghost predicate History(w: World, names: Naming, urls: iset<string>, events: seq<Event>)
    decreases |events|
  {
    events != [] ==>
      Happens(w, names, urls, events[0]) && History(Result(w, events[0]), names, urls, events[1..])
  }

  ghost function Outcome(w: World, events: seq<Event>): World
    decreases |events|
  {
    if events == [] then w else Outcome(Result(w, events[0]), events[1..])
  }

  /** One row per URL, named after it, and every copy belongs to a row. */
  ghost predicate Orderly(w: World, names: Naming, urls: iset<string>) {
    && Tidy(w.articles, names, urls)
    && (forall a :: a in w.copies ==> a.id in w.articles && w.articles[a.id].url == a.url)
  }

  lemma SaveBackKeeps(w: World, names: Naming, urls: iset<string>, copy: Article, at: int)
    requires Orderly(w, names, urls) && copy in w.copies
    ensures Orderly(Result(w, SaveBack(copy, at)), names, urls) && Persists(w.articles, Result(w, SaveBack(copy, at)).articles)
  {
  }

  lemma RewordedSucceeds(articles: Articles, names: Naming, urls: iset<string>, news: seq<Article>, saved: seq<Article>)
    requires AllSucceed(articles, names, urls, news) && Reworded(news, saved)
    ensures AllSucceed(articles, names, urls, saved)
  {
    forall i | 0 <= i < |saved| ensures Succeeds(articles, names, urls, saved[i]) {
      assert Succeeds(articles, names, urls, news[i]);
    }
  }

  lemma FetchKeepsOrder(w: World, names: Naming, urls: iset<string>, event: Event)
    requires CollisionFree(names, urls) && Orderly(w, names, urls) && Happens(w, names, urls, event) && event.Fetch?
    ensures Orderly(Result(w, event), names, urls) && Continues(w.articles, Result(w, event).articles)
  {
    FetchSucceeds(w.articles, names, urls, event.items, event.fetchedAt, event.news);
    RewordedSucceeds(w.articles, names, urls, event.news, event.saved);
    FetchKeeps(w.articles, names, urls, event.saved);
  }

  lemma EventKeeps(w: World, names: Naming, urls: iset<string>, event: Event)
    requires CollisionFree(names, urls) && Orderly(w, names, urls) && Happens(w, names, urls, event)
    ensures Orderly(Result(w, event), names, urls) && Persists(w.articles, Result(w, event).articles)
    ensures !event.SaveBack? ==> Continues(w.articles, Result(w, event).articles)
  {
    match event
    case Fetch(_, _, _, _) => FetchKeepsOrder(w, names, urls, event);
    case Read(id) => assert forall x :: x in w.articles ==> Advanced(w.articles[x], w.articles[x]);
    case SaveBack(copy, at) => SaveBackKeeps(w, names, urls, copy, at);
  }

  /** Over any sequence of fetches, reads and acknowledgements, however stale the copies written back:
      one row per URL, and a URL keeps the id it first got. */
  lemma {:induction false} StableIdentity(w: World, names: Naming, urls: iset<string>, events: seq<Event>)
    requires CollisionFree(names, urls) && Orderly(w, names, urls) && History(w, names, urls, events)
    ensures Orderly(Outcome(w, events), names, urls) && Persists(w.articles, Outcome(w, events).articles)
    decreases |events|
  {
    if events != [] {
      EventKeeps(w, names, urls, events[0]);
      StableIdentity(Result(w, events[0]), names, urls, events[1..]);
    }
  }

  /** The stored update time is not later than the copy's. */
  predicate NoLater(stored: Article, copy: Article) {
    stored.updatedAt.Some? ==>
      && copy.updatedAt.Some? && stored.updatedAt.value <= copy.updatedAt.value
      && (Dated(stored.updatedAt) ==> Dated(copy.updatedAt))
  }

  /** Writing a copy back keeps the stored version exactly when the row has not been given a later
      update time since; after fetches alone, exactly when its update time is still that of the copy. */
  lemma SaveBackExactly(stored: Article, copy: Article, at: int)
    ensures Advanced(stored, copy.(channelAt := Some(at))) <==> NoLater(stored, copy)
    ensures Advanced(copy, stored) ==> (NoLater(stored, copy) <==> stored.updatedAt == copy.updatedAt)
    ensures NoLater(stored, copy) && Dated(stored.updatedAt) ==>
      copy.NewsTimestamp().Some? && stored.NewsTimestamp().value <= copy.NewsTimestamp().value
  {
  }

  /** Saving the first row of a URL keeps every other row exactly when its id is still free. */
  lemma FirstRowKeepsExactly(articles: Articles, item: FeedItem, fetchedAt: int, names: Naming, a: Article)
    requires Found(articles, item.url, None) && a == Merged(None, item, fetchedAt, names)
    ensures Persists(articles, articles[a.id := a]) <==> a.id !in articles
  {
    assert a.url == item.url;
    if a.id in articles {
      assert articles[a.id].url != a.url;
    }
  }

  function DatedItem(url: string, time: int): FeedItem { FeedItem(url, true, "", "", Some(time), None) }

  lemma TwoEvents(w: World, names: Naming, urls: iset<string>, one: Event, two: Event)
    requires Happens(w, names, urls, one) && Happens(Result(w, one), names, urls, two)
    ensures History(w, names, urls, [one, two]) && Outcome(w, [one, two]) == Result(Result(w, one), two)
  {
    var mid := Result(w, one);
    assert [one, two][1..] == [two] && [two][1..] == [];
    assert Outcome(Result(mid, two), []) == Result(mid, two);
    assert Outcome(mid, [two]) == Outcome(Result(mid, two), [two][1..]);
    assert History(mid, names, urls, [two]);
  }

  /** A fetch of one dated item of a URL that has no row. */
  function FirstFetch(item: FeedItem, time: int, names: Naming): Event {
    var a := Merged(None, item, time, names);
    Fetch([item], time, [a], [a])
  }

  lemma FirstFetchHappens(w: World, names: Naming, urls: iset<string>, item: FeedItem, time: int)
    requires item.url in urls && Found(w.articles, item.url, None)
    ensures var a := Merged(None, item, time, names);
      Happens(w, names, urls, FirstFetch(item, time, names))
      && Result(w, FirstFetch(item, time, names)) == w.(articles := w.articles[a.id := a])
  {
    var a := Merged(None, item, time, names);
    assert MergedWith(w.articles, item, time, names, a);
    assert [a][..0] == [] && SaveAll(w.articles, []) == w.articles;
    assert SaveAll(w.articles, [a]) == SaveAll(w.articles, [a][..0])[a.id := a];
  }

  /** Two URLs with one shortened hash get one id when their news are of one day: from an empty store,
      the second takes over the row of the first. */
  lemma HashesCollide(names: Naming, urls: iset<string>, u: string, v: string, s: int, t: int)
    requires u in urls && v in urls && u != v && names.hash(u) == names.hash(v)
    requires s != 0 && t != 0 && names.day(s) == names.day(t) && v != names.Id(u, s)
    ensures var empty, second := World(map[], {}), Merged(None, DatedItem(v, t), t, names);
      var events := [FirstFetch(DatedItem(u, s), s, names), FirstFetch(DatedItem(v, t), t, names)];
      && History(empty, names, urls, events) && Outcome(empty, events).articles == map[names.Id(u, s) := second]
      && second.url == v
  {
    var empty, first, second := World(map[], {}), Merged(None, DatedItem(u, s), s, names), Merged(None, DatedItem(v, t), t, names);
    var mid := World(map[first.id := first], {});
    assert first.id == names.Id(u, s) == names.Id(v, t) == second.id;
    FirstFetchHappens(empty, names, urls, DatedItem(u, s), s);
    assert Found(mid.articles, v, None);
    FirstFetchHappens(mid, names, urls, DatedItem(v, t), t);
    TwoEvents(empty, names, urls, FirstFetch(DatedItem(u, s), s, names), FirstFetch(DatedItem(v, t), t, names));
  }

  /** No copy is written back over a later version. */
  ghost predicate UpToDate(w: World, event: Event) {
    event.SaveBack? && event.copy.id in w.articles ==> NoLater(w.articles[event.copy.id], event.copy)
  }

  ghost predicate AllUpToDate(w: World, events: seq<Event>)
    decreases |events|
  {
    events != [] ==> UpToDate(w, events[0]) && AllUpToDate(Result(w, events[0]), events[1..])
  }

  /** No event takes any version back. */
  ghost predicate Ascends(w: World, events: seq<Event>)
    decreases |events|
  {
    events != [] ==>
      Continues(w.articles, Result(w, events[0]).articles) && Ascends(Result(w, events[0]), events[1..])
  }

  lemma EventAscendsExactly(w: World, names: Naming, urls: iset<string>, event: Event)
    requires CollisionFree(names, urls) && Orderly(w, names, urls) && Happens(w, names, urls, event)
    ensures Continues(w.articles, Result(w, event).articles) <==> UpToDate(w, event)
  {
    EventKeeps(w, names, urls, event);
    if event.SaveBack? {
      var id := event.copy.id;
      SaveBackExactly(w.articles[id], event.copy, event.at);
      assert Result(w, event).articles[id] == event.copy.(channelAt := Some(event.at));
      assert forall x :: x in w.articles ==> Advanced(w.articles[x], w.articles[x]);
    }
  }

  /** Versions never go back exactly in the histories in which no acknowledgement writes a copy back
      over a later version. */
  lemma {:induction false} AscendsExactly(w: World, names: Naming, urls: iset<string>, events: seq<Event>)
    requires CollisionFree(names, urls) && Orderly(w, names, urls) && History(w, names, urls, events)
    ensures Ascends(w, events) <==> AllUpToDate(w, events)
    ensures AllUpToDate(w, events) ==> Continues(w.articles, Outcome(w, events).articles)
    decreases |events|
  {
    if events == [] {
      assert forall x :: x in w.articles ==> Advanced(w.articles[x], w.articles[x]);
    } else {
      var next := Result(w, events[0]);
      EventKeeps(w, names, urls, events[0]);
      EventAscendsExactly(w, names, urls, events[0]);
      AscendsExactly(next, names, urls, events[1..]);
      if AllUpToDate(w, events) {
        ContinuesTransitively(w.articles, next.articles, Outcome(w, events).articles);
      }
    }
  }

  /** Two fetches of one URL at different times yield the same id. */
  lemma SameIdEachTime(w: World, names: Naming, urls: iset<string>, events: seq<Event>, item: FeedItem, later: FeedItem,
    fetchedAt: int, again: int, first: Article, text: string, second: Article)
    requires CollisionFree(names, urls) && Orderly(w, names, urls) && item.url == later.url && item.url in urls
    requires MergedWith(w.articles, item, fetchedAt, names, first)
    requires var saved := w.(articles := SaveAll(w.articles, [first.(content := text)]));
      && History(saved, names, urls, events)
      && MergedWith(Outcome(saved, events).articles, later, again, names, second)
    ensures second.id == first.id
  {
    var row := first.(content := text);
    var fetch := Fetch([item], fetchedAt, [first], [row]);
    var saved := Result(w, fetch);
    EventKeeps(w, names, urls, fetch);
    StableIdentity(saved, names, urls, events);
    FetchedOne(w.articles, names, urls, item, fetchedAt, first);
    FetchedOne(Outcome(saved, events).articles, names, urls, later, again, second);
    assert saved.articles[first.id] == row;
  }
}
