/** How a fetched feed item becomes a stored article: identity, version and delivery mark are merged
    with what is stored for the same URL. */
module Ingest {
  import opened Base
  import opened Tables

  datatype FeedItem = FeedItem(
    url: string, titled: bool, content: string, source: string, publishedAt: Option<int>, updatedAt: Option<int>)

  const SLACK: int := 5 * SECOND

  /** News ids name the day of the news and a hash of the URL. */
  datatype Naming = Naming(day: int -> string, hash: string -> string) {
    function Id(url: string, time: int): string { "YP-" + day(time) + "-" + hash(url) }
  }

  /** Zero stands for "unknown". */
  predicate Dated(time: Option<int>) { time.Some? && time.value != 0 }

  function FirstDated(a: Option<int>, b: Option<int>): Option<int> {
    if Dated(a) then a else if Dated(b) then b else None
  }

  /** The news is newer by more than the slack, or dated for the first time. */
  predicate Advances(was: Option<int>, now: Option<int>) {
    now.Some? && (was.None? || now.value > was.value + SLACK)
  }

  // ----- the merge as a function ---------------------------------------------------------

  predicate Known(existing: Option<Article>) { existing.Some? && existing.value.id != "" }

  function StoredNews(existing: Option<Article>): Option<int> {
    if Known(existing) then existing.value.NewsTimestamp() else None
  }

  /** The stored update time wins over a missing, unknown or older one. */
  function MergedUpdate(existing: Option<Article>, item: FeedItem): Option<int> {
    if existing.Some? && existing.value.updatedAt.Some?
       && (!Dated(item.updatedAt) || item.updatedAt.value < existing.value.updatedAt.value)
    then existing.value.updatedAt else item.updatedAt
  }

  function MergedPublished(existing: Option<Article>, item: FeedItem): Option<int> {
    if Known(existing) && !Dated(item.publishedAt) && existing.value.publishedAt.Some?
    then existing.value.publishedAt else item.publishedAt
  }

  /** The news time by which the item is judged; the stored publication time takes no part in it. */
  function JudgedNews(existing: Option<Article>, item: FeedItem): Option<int> {
    var merged := FirstDated(MergedUpdate(existing, item), item.publishedAt);
    if merged.Some? then merged else FirstDated(item.updatedAt, item.publishedAt)
  }

  predicate IsUpdate(existing: Option<Article>, item: FeedItem) {
    existing.Some? && Advances(StoredNews(existing), JudgedNews(existing, item))
  }

  function Merged(existing: Option<Article>, item: FeedItem, fetchedAt: int, names: Naming): Article {
    var news := JudgedNews(existing, item);
    Article(
      if Known(existing) then existing.value.id else names.Id(item.url, if news.Some? then news.value else fetchedAt),
      item.url, item.source, item.content, MergedPublished(existing, item), MergedUpdate(existing, item), news.Some?,
      if existing.None? || IsUpdate(existing, item) then None else existing.value.channelAt)
  }

  // ----- the merge as the code does it ---------------------------------------------------

  /** A row whose id or URL is the given key, if there is any. */
  ghost predicate Found(articles: map<string, Article>, key: string, r: Option<Article>) {
    match r
    case Some(a) => exists x :: x in articles && articles[x] == a && (x == key || a.url == key)
    case None => forall x :: x in articles ==> x != key && articles[x].url != key
  }

  method Get(store: Store, key: string) returns (r: Option<Article>)
    ensures Found(store.articles, key, r)
  {
    var rest := store.articles.Keys;
    while rest != {}
      invariant rest <= store.articles.Keys
      invariant forall x :: x in store.articles && x !in rest ==> x != key && store.articles[x].url != key
    {
      var x :| x in rest;
      if x == key || store.articles[x].url == key {
        return Some(store.articles[x]);
      }
      rest := rest - {x};
    }
    r := None;
  }

  /** The article is the item merged with what is stored for its URL. */
  ghost predicate MergedWith(articles: map<string, Article>, item: FeedItem, fetchedAt: int, names: Naming, a: Article) {
    exists existing :: Found(articles, item.url, existing) && a == Merged(existing, item, fetchedAt, names)
  }

  method Normalize(store: Store, item: FeedItem, fetchedAt: int, names: Naming)
    returns (article: Article)
    ensures MergedWith(store.articles, item, fetchedAt, names, article)
  {
    var updatedVal, publishedVal := item.updatedAt, item.publishedAt;
    var newsTs := None;
    if Dated(updatedVal) {
      newsTs := updatedVal;
    } else if Dated(publishedVal) {
      newsTs := publishedVal;
    }

    var row := Get(store, item.url);
    var existingChannel, existingPublished, existingUpdated := None, None, None;
    if row.Some? {
      existingChannel, existingPublished, existingUpdated := row.value.channelAt, row.value.publishedAt, row.value.updatedAt;
    }

    if existingUpdated.Some? {
      if updatedVal.None? || updatedVal.value == 0 || updatedVal.value < existingUpdated.value {
        updatedVal := existingUpdated;
      }
      if Dated(updatedVal) {
        newsTs := updatedVal;
      } else if Dated(publishedVal) {
        newsTs := publishedVal;
      }
    }

    var existingNews := None;
    if row.Some? && row.value.id != "" {
      if Dated(existingUpdated) {
        existingNews := existingUpdated;
      } else if Dated(existingPublished) {
        existingNews := existingPublished;
      }
    }

    var isValidUpdate := false;
    if newsTs.Some? {
      if row.Some? && existingNews.None? {
        isValidUpdate := true;
      } else if existingNews.Some? && newsTs.value > existingNews.value + SLACK {
        isValidUpdate := true;
      }
    }

    var newsId;
    if row.Some? && row.value.id != "" {
      newsId := row.value.id;
      if !Dated(publishedVal) && existingPublished.Some? {
        publishedVal := existingPublished;
      }
    } else {
      newsId := names.Id(item.url, if newsTs.Some? then newsTs.value else fetchedAt);
    }
    article := Article(newsId, item.url, item.source, item.content, publishedVal, updatedVal, newsTs.Some?,
                       if isValidUpdate then None else existingChannel);
    assert article == Merged(row, item, fetchedAt, names);
  }

  // ----- one fetch -------------------------------------------------------------------------

  /** An update time before 1970 meets a stored "unknown" one: it is judged but not stored. */
  predicate PreEpoch(existing: Article, item: FeedItem) {
    && existing.updatedAt == Some(0) && item.updatedAt.Some? && item.updatedAt.value < 0
    && !Dated(item.publishedAt)
  }

  /** Known, and later than another time by more than the gap if that is known too. */
  predicate LaterBy(was: Option<int>, now: Option<int>, gap: int) {
    now.Some? && (was.Some? ==> now.value > was.value + gap)
  }

  /** The delivery mark is cleared exactly when the stored news time advances: by more than five
      seconds, or by becoming known at all. The one exception is an update time before 1970. */
  lemma MarkClearedExactly(existing: Article, item: FeedItem, fetchedAt: int, names: Naming)
    requires existing.id != "" && existing.channelAt.Some?
    ensures var m := Merged(Some(existing), item, fetchedAt, names);
      && m.channelAt in {None, existing.channelAt}
      && (m.channelAt == None <==>
            || LaterBy(existing.NewsTimestamp(), m.NewsTimestamp(), 5_000_000)
            || (PreEpoch(existing, item) && LaterBy(existing.NewsTimestamp(), item.updatedAt, 5_000_000)))
  {
  }

  /** Once a valid update time is stored, it never decreases, and neither does the news time. */
  lemma VersionNeverDecreases(existing: Article, item: FeedItem, fetchedAt: int, names: Naming)
    ensures var m := Merged(Some(existing), item, fetchedAt, names);
      && (existing.updatedAt.Some? ==> m.updatedAt.Some? && m.updatedAt.value >= existing.updatedAt.value)
      && (Dated(existing.updatedAt) ==>
            Dated(m.updatedAt) && m.NewsTimestamp().Some? && existing.NewsTimestamp().Some?
            && m.NewsTimestamp().value >= existing.NewsTimestamp().value)
  {
  }

  /** Without a stored update time the news time follows the feed: it goes back exactly when the
      item brings an earlier one. */
  lemma NewsGoesBackExactly(existing: Article, item: FeedItem, fetchedAt: int, names: Naming)
    requires existing.id != "" && existing.updatedAt.None? && existing.NewsTimestamp().Some?
    ensures var m := Merged(Some(existing), item, fetchedAt, names);
      var incoming := FirstDated(item.updatedAt, item.publishedAt);
      && m.NewsTimestamp().Some?
      && (m.NewsTimestamp().value < existing.NewsTimestamp().value <==>
            incoming.Some? && incoming.value < existing.NewsTimestamp().value)
  {
  }

  /** An article can be marked "time unknown" although it carries a news time: exactly when only the
      stored publication time gives it one. */
  lemma UnknownDespiteTime(existing: Article, item: FeedItem, fetchedAt: int, names: Naming)
    requires existing.id != ""
    ensures var m := Merged(Some(existing), item, fetchedAt, names);
      !m.timeKnown && m.NewsTimestamp().Some? <==>
        && !Dated(item.updatedAt) && !Dated(item.publishedAt) && !Dated(existing.updatedAt)
        && Dated(existing.publishedAt)
  {
  }

  predicate Zero(time: Option<int>) { time.Some? ==> time.value == 0 }

  /** What is stored, column by column. URL, source and text are the item's. The update time is the later
      of the stored and the item's, zero counting as none; the publication time is the item's if valid, else
      the stored one of a named row. The time is known if the item is dated or an update time was
      stored. A named row keeps its id. The delivery mark is the stored one or none. */
  lemma MergedInColumns(existing: Option<Article>, item: FeedItem, fetchedAt: int, names: Naming)
    ensures var m := Merged(existing, item, fetchedAt, names);
      && m.url == item.url && m.source == item.source && m.content == item.content
      && (m.timeKnown <==> !Zero(item.updatedAt) || !Zero(item.publishedAt) || (existing.Some? && !Zero(existing.value.updatedAt)))
      && (!Zero(item.publishedAt) ==> m.publishedAt == item.publishedAt)
      && m.channelAt in {None, if existing.Some? then existing.value.channelAt else None}
    ensures var m := Merged(existing, item, fetchedAt, names);
      match existing
      case None =>
        && m.updatedAt == item.updatedAt && m.publishedAt == item.publishedAt
        && (m.timeKnown ==> exists time :: m.NewsTimestamp() == Some(time) && m.id == "YP-" + names.day(time) + "-" + names.hash(item.url))
        && (!m.timeKnown ==> m.id == "YP-" + names.day(fetchedAt) + "-" + names.hash(item.url))
      case Some(was) =>
        && (was.id != "" ==> m.id == was.id)
        && (was.id != "" && Zero(item.publishedAt) && was.publishedAt.Some? ==> m.publishedAt == was.publishedAt)
        && (was.publishedAt.None? ==> m.publishedAt == item.publishedAt)
        && (was.updatedAt.None? ==> m.updatedAt == item.updatedAt)
        && (was.updatedAt.Some? && Zero(item.updatedAt) ==> m.updatedAt == was.updatedAt)
        && (was.updatedAt.Some? && !Zero(item.updatedAt) ==>
              m.updatedAt.Some? && m.updatedAt.value == Max(was.updatedAt.value, item.updatedAt.value))
  {
  }

  /** Fetching the same item again changes nothing but a delivery mark made in between, and that
      only in the exceptional case above; what was stored as content does not matter. */
  lemma FetchTwice(existing: Option<Article>, item: FeedItem, fetchedAt: int, again: int, names: Naming,
    mark: Option<int>, text: string)
    requires existing.Some? ==> existing.value.id != ""
    ensures var m := Merged(existing, item, fetchedAt, names);
      var stored := m.(channelAt := mark, content := text);
      Merged(Some(stored), item, again, names) ==
        m.(channelAt := if PreEpoch(stored, item) && Advances(m.NewsTimestamp(), item.updatedAt) then None else mark)
  {
    var m := Merged(existing, item, fetchedAt, names);
    assert names.Id(item.url, fetchedAt)[0] == 'Y';
    assert m.id != "";
  }
}
