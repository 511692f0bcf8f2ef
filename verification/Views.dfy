/** What a claim looks at: the articles that occupy the hourly capacity and how many of them
    each source accounts for. */
module Views {
  import opened Base
  import opened Tables

  predicate RecentSuccess(r: Record, now: int) { r.success && r.createdAt >= now - HOUR }

  /** Articles with a success recorded within the last hour. */
  ghost function Recent(t: Tables, now: int): set<string> {
    set k | k in t.history && RecentSuccess(t.history[k], now) :: k.article
  }

  /** Articles with a job processing under a live lease. */
  ghost function InFlight(t: Tables, now: int): set<string> {
    set k | k in t.jobs && Live(t.jobs[k], now) :: k.article
  }

  ghost function Consumed(t: Tables, now: int): set<string> { Recent(t, now) + InFlight(t, now) }

  ghost function RecentRecords(t: Tables, now: int): map<Slot, Record> {
    map k | k in t.history && RecentSuccess(t.history[k], now) :: t.history[k]
  }

  /** All rows agree with one assignment of sources to articles. */
  ghost predicate Consistent(t: Tables, src: string -> string) {
    && (forall k :: k in t.jobs ==> t.jobs[k].source == src(k.article))
    && (forall a :: a in t.articles ==> t.articles[a].source == src(a))
  }

  ghost function SourceLoad(t: Tables, now: int, src: string -> string, s: string): set<string> {
    set a | a in Consumed(t, now) && src(a) == s
  }

  ghost predicate Tally(counts: map<string, int>, tags: map<string, string>) {
    forall s :: Count(counts, s) == |Share(tags, s)|
  }

  ghost function Share(tags: map<string, string>, s: string): set<string> { set a | a in tags && tags[a] == s }

  /** A job by which the article was delivered within the hour. */
  ghost predicate DeliveredBy(t: Tables, now: int, a: string, k: Slot) {
    k.article == a && k in t.jobs && k in t.history && RecentSuccess(t.history[k], now)
  }

  ghost predicate InFlightBy(t: Tables, now: int, a: string, k: Slot) {
    k.article == a && k in t.jobs && Live(t.jobs[k], now)
  }

  /** The source an article is counted under: a delivered one under that of its row, or with the fallback
      that of a job it was delivered by; otherwise it is in flight and counted under the source of such a job. */
  ghost predicate CountedAs(t: Tables, now: int, fallback: bool, a: string, s: string) {
    if a in Recent(t, now) && a in t.articles then t.articles[a].source == s
    else if fallback && exists k :: DeliveredBy(t, now, a, k) then exists k :: DeliveredBy(t, now, a, k) && t.jobs[k].source == s
    else exists k :: InFlightBy(t, now, a, k) && t.jobs[k].source == s
  }

  /** `tags` names the source each counted article went to: every article in flight or delivered is counted,
      except that a delivered one needs a row of its own or, with the fallback, a job. */
  ghost predicate Attributed(t: Tables, now: int, fallback: bool, counts: map<string, int>, tags: map<string, string>) {
    && (Tally(counts, tags))
    && InFlight(t, now) <= tags.Keys <= Consumed(t, now)
    && (forall a :: a in tags ==> CountedAs(t, now, fallback, a, tags[a]))
    && (forall a :: a in Recent(t, now) && a in t.articles ==> a in tags && tags[a] == t.articles[a].source)
    && (fallback ==> forall k :: k in RecentRecords(t, now) && k in t.jobs ==> k.article in tags)
  }

  lemma ShareAdd(tags: map<string, string>, a: string, source: string, s: string)
    requires a !in tags
    ensures |Share(tags[a := source], s)| == |Share(tags, s)| + One(s == source)
  {
    if s == source {
      assert Share(tags[a := source], s) == Share(tags, s) + {a};
    } else {
      assert Share(tags[a := source], s) == Share(tags, s);
    }
  }

  /** Counting one more article. */
  lemma CountAdd(counts: map<string, int>, tags: map<string, string>, a: string, source: string)
    requires a !in tags && Tally(counts, tags)
    ensures Tally(Bump(counts, source), tags[a := source])
  {
    forall s ensures Count(Bump(counts, source), s) == |Share(tags[a := source], s)| {
      ShareAdd(tags, a, source, s);
    }
  }

  predicate CountedBy(t: Tables, r: Record, a: string, s: string) {
    r.slot.article == a && r.slot in t.jobs && t.jobs[r.slot].source == s
  }

  /** What counting the first n records leaves behind. */
  ghost predicate Counted(t: Tables, recent: seq<Record>, fallback: bool, tags: map<string, string>) {
    && (forall a :: a in tags ==> exists i :: 0 <= i < |recent| && recent[i].slot.article == a)
    && (forall a :: a in tags && a in t.articles ==> tags[a] == t.articles[a].source)
    && (forall a :: a in tags && a !in t.articles ==>
          fallback && exists i :: 0 <= i < |recent| && CountedBy(t, recent[i], a, tags[a]))
    && (forall i :: 0 <= i < |recent| && recent[i].slot.article in t.articles ==> recent[i].slot.article in tags)
    && (fallback ==> forall i :: 0 <= i < |recent| && recent[i].slot in t.jobs ==> recent[i].slot.article in tags)
  }

  method CountOne(store: Store, ghost recent: seq<Record>, r: Record, fallback: bool,
    counts0: map<string, int>, counted0: set<string>, ghost tags0: map<string, string>)
    returns (counts: map<string, int>, counted: set<string>, ghost tags: map<string, string>)
    requires store.Snapshot().WellFormed()
    requires counted0 == tags0.Keys && Tally(counts0, tags0) && Counted(store.Snapshot(), recent, fallback, tags0)
    ensures counted == tags.Keys && Tally(counts, tags) && Counted(store.Snapshot(), recent + [r], fallback, tags)
  {
    counts, counted, tags := counts0, counted0, tags0;
    var a := r.slot.article;
    ghost var more := recent + [r];
    assert more[|recent|] == r && forall i :: 0 <= i < |recent| ==> more[i] == recent[i];
    if a in counted {
      return;
    }
    var source;
    if a in store.articles {
      source := store.articles[a].source;
    } else if fallback && r.slot in store.jobs {
      source := store.jobs[r.slot].source;
    } else {
      return;
    }
    CountAdd(counts, tags, a, source);
    counts, counted, tags := Bump(counts, source), counted + {a}, tags[a := source];
  }

  method CountDelivered(store: Store, recent: seq<Record>, fallback: bool)
    returns (counts: map<string, int>, counted: set<string>, ghost tags: map<string, string>)
    requires store.Snapshot().WellFormed()
    ensures counted == tags.Keys && Tally(counts, tags) && Counted(store.Snapshot(), recent, fallback, tags)
  {
    counts, counted, tags := map[], {}, map[];
    forall s ensures Share(tags, s) == {} {}
    for n := 0 to |recent|
      invariant counted == tags.Keys && Tally(counts, tags)
      invariant Counted(store.Snapshot(), recent[..n], fallback, tags)
    {
      assert recent[..n + 1] == recent[..n] + [recent[n]];
      counts, counted, tags := CountOne(store, recent[..n], recent[n], fallback, counts, counted, tags);
    }
    assert recent[..|recent|] == recent;
  }

  method CountProcessing(processing: seq<Job>, counts0: map<string, int>, ghost tags0: map<string, string>,
    counted0: set<string>)
    returns (counts: map<string, int>, ghost tags: map<string, string>)
    requires counted0 == tags0.Keys && Tally(counts0, tags0)
    ensures Tally(counts, tags)
    ensures tags.Keys == tags0.Keys + set job | job in processing :: job.slot.article
    ensures forall a :: a in tags0 ==> tags[a] == tags0[a]
    ensures forall a :: a in tags && a !in tags0 ==> exists job :: job in processing && job.slot.article == a && job.source == tags[a]
  {
    counts, tags := counts0, tags0;
    var counted := counted0;
    for n := 0 to |processing|
      invariant counted == tags.Keys && Tally(counts, tags)
      invariant tags.Keys == tags0.Keys + set job | job in processing[..n] :: job.slot.article
      invariant forall a :: a in tags0 ==> tags[a] == tags0[a]
      invariant forall a :: a in tags && a !in tags0 ==>
        exists job :: job in processing && job.slot.article == a && job.source == tags[a]
    {
      var job := processing[n];
      var a := job.slot.article;
      assert processing[..n + 1] == processing[..n] + [job];
      if a !in counted {
        CountAdd(counts, tags, a, job.source);
        counts := Bump(counts, job.source);
        tags := tags[a := job.source];
        counted := counted + {a};
      }
    }
    assert processing[..|processing|] == processing;
  }

  method RecentSuccesses(store: Store, now: int) returns (successes: seq<Record>, recent: map<Slot, Record>)
    requires store.Snapshot().WellFormed()
    ensures recent == RecentRecords(store.Snapshot(), now)
    ensures forall r :: r in successes <==> r.slot in recent && recent[r.slot] == r
  {
    var all := store.AllRecords();
    successes, recent := [], map[];
    for n := 0 to |all|
      invariant forall r :: r in successes <==> r in all[..n] && RecentSuccess(r, now)
      invariant forall r :: r in successes ==> r.slot in recent
      invariant forall k :: k in recent ==> k in store.history && recent[k] == store.history[k] && recent[k] in successes
    {
      var r := all[n];
      assert all[..n + 1] == all[..n] + [r];
      if RecentSuccess(r, now) {
        successes := successes + [r];
        recent := recent[r.slot := r];
      }
    }
    assert all[..|all|] == all;
    forall k | k in store.history && RecentSuccess(store.history[k], now) ensures k in recent {
      assert store.history[k] in successes;
    }
  }

  method ProcessingJobs(store: Store, now: int) returns (processing: seq<Job>)
    requires store.Snapshot().WellFormed()
    ensures forall job :: job in processing <==> job.slot in store.jobs && store.jobs[job.slot] == job && Live(job, now)
  {
    var rows := store.GetAllJobs();
    processing := [];
    for n := 0 to |rows|
      invariant forall job :: job in processing <==> job in rows[..n] && Live(job, now)
    {
      assert rows[..n + 1] == rows[..n] + [rows[n]];
      if Live(rows[n], now) {
        processing := processing + [rows[n]];
      }
    }
    assert rows[..|rows|] == rows;
  }

  /** The articles of the jobs found processing. */
  lemma ProcessingIsInFlight(t: Tables, now: int, processing: seq<Job>)
    requires t.WellFormed()
    requires forall job :: job in processing <==> job.slot in t.jobs && t.jobs[job.slot] == job && Live(job, now)
    ensures (set job | job in processing :: job.slot.article) == InFlight(t, now)
  {
    forall k | k in t.jobs && Live(t.jobs[k], now) ensures t.jobs[k] in processing {}
  }

  /** What counting the recent deliveries leaves behind, in terms of the tables. */
  lemma DeliveredIsRecent(t: Tables, now: int, fallback: bool, successes: seq<Record>, delivered: map<string, string>)
    requires t.WellFormed() && Counted(t, successes, fallback, delivered)
    requires forall r :: r in successes <==> r.slot in RecentRecords(t, now) && RecentRecords(t, now)[r.slot] == r
    ensures delivered.Keys <= Recent(t, now)
    ensures forall a :: a in Recent(t, now) && a in t.articles ==> a in delivered && delivered[a] == t.articles[a].source
    ensures fallback ==> forall k :: k in RecentRecords(t, now) && k in t.jobs ==> k.article in delivered
    ensures forall a :: a in delivered && a !in t.articles ==>
      fallback && exists k :: DeliveredBy(t, now, a, k) && t.jobs[k].source == delivered[a]
  {
    forall a | a in delivered && a !in t.articles
      ensures fallback && exists k :: DeliveredBy(t, now, a, k) && t.jobs[k].source == delivered[a]
    {
      var i :| 0 <= i < |successes| && CountedBy(t, successes[i], a, delivered[a]);
      assert successes[i] in successes;
      assert DeliveredBy(t, now, a, successes[i].slot);
    }
    forall a | a in delivered ensures a in Recent(t, now) {
      var i :| 0 <= i < |successes| && successes[i].slot.article == a;
      assert successes[i] in successes;
    }
    forall k | k in RecentRecords(t, now) ensures t.history[k] in successes {}
    forall a | a in Recent(t, now) && a in t.articles ensures a in delivered {
      var k :| k in t.history && RecentSuccess(t.history[k], now) && k.article == a;
      assert k in RecentRecords(t, now);
      assert t.history[k] in successes;
    }
  }

  lemma ViewIsAttributed(t: Tables, now: int, fallback: bool, successes: seq<Record>, processing: seq<Job>,
    counts: map<string, int>, delivered: map<string, string>, tags: map<string, string>)
    requires t.WellFormed() && Tally(counts, tags)
    requires forall r :: r in successes <==> r.slot in RecentRecords(t, now) && RecentRecords(t, now)[r.slot] == r
    requires forall job :: job in processing <==> job.slot in t.jobs && t.jobs[job.slot] == job && Live(job, now)
    requires Counted(t, successes, fallback, delivered)
    requires tags.Keys == delivered.Keys + set job | job in processing :: job.slot.article
    requires forall a :: a in delivered ==> tags[a] == delivered[a]
    requires forall a :: a in tags && a !in delivered ==>
      exists job :: job in processing && job.slot.article == a && job.source == tags[a]
    ensures Attributed(t, now, fallback, counts, tags)
  {
    ProcessingIsInFlight(t, now, processing);
    DeliveredIsRecent(t, now, fallback, successes, delivered);
    forall a | a in tags ensures CountedAs(t, now, fallback, a, tags[a]) {
      if a in delivered {
        DeliveredCountedAs(t, now, fallback, a, delivered[a]);
      } else {
        var job :| job in processing && job.slot.article == a && job.source == tags[a];
        InFlightCountedAs(t, now, fallback, a, job.slot);
      }
    }
  }

  lemma DeliveredCountedAs(t: Tables, now: int, fallback: bool, a: string, s: string)
    requires a in Recent(t, now) && (a in t.articles ==> t.articles[a].source == s)
    requires a !in t.articles ==> fallback && exists k :: DeliveredBy(t, now, a, k) && t.jobs[k].source == s
    ensures CountedAs(t, now, fallback, a, s)
  {
  }

  lemma InFlightCountedAs(t: Tables, now: int, fallback: bool, a: string, k: Slot)
    requires InFlightBy(t, now, a, k) && !(a in Recent(t, now) && a in t.articles)
    requires fallback ==> forall j :: !DeliveredBy(t, now, a, j)
    ensures CountedAs(t, now, fallback, a, t.jobs[k].source)
  {
  }

  /** The view one claim works on. */
  method RecentDeliveryState(store: Store, now: int, fallback: bool)
    returns (recent: map<Slot, Record>, consumed: set<string>, counts: map<string, int>, ghost tags: map<string, string>)
    requires store.Snapshot().WellFormed()
    ensures recent == RecentRecords(store.Snapshot(), now)
    ensures consumed == Consumed(store.Snapshot(), now)
    ensures Attributed(store.Snapshot(), now, fallback, counts, tags)
  {
    ghost var t := store.Snapshot();
    var successes;
    successes, recent := RecentSuccesses(store, now);
    var processing := ProcessingJobs(store, now);
    var counted;
    counts, counted, tags := CountDelivered(store, successes, fallback);
    ghost var delivered := tags;
    counts, tags := CountProcessing(processing, counts, tags, counted);
    ViewIsAttributed(t, now, fallback, successes, processing, counts, delivered, tags);
    consumed := (set k | k in recent :: k.article) + (set job | job in processing :: job.slot.article);
    assert (set k | k in recent :: k.article) == Recent(t, now);
    ProcessingIsInFlight(t, now, processing);
  }

  /** With consistent rows, the count of a source is the number of its articles that occupy
      capacity, provided every recently delivered article has something to be counted by. */
  lemma CountsAreLoads(t: Tables, now: int, fallback: bool, counts: map<string, int>, tags: map<string, string>,
    src: string -> string, s: string)
    requires t.WellFormed() && Attributed(t, now, fallback, counts, tags) && Consistent(t, src)
    requires forall k :: k in RecentRecords(t, now) ==> k.article in t.articles || (fallback && k in t.jobs)
    ensures Count(counts, s) == |SourceLoad(t, now, src, s)|
  {
    forall a | a in Recent(t, now) ensures a in tags {
      var k :| k in t.history && RecentSuccess(t.history[k], now) && k.article == a;
      assert k in RecentRecords(t, now);
    }
    assert tags.Keys == Consumed(t, now);
    forall a | a in tags ensures tags[a] == src(a) {
      assert CountedAs(t, now, fallback, a, tags[a]);
    }
    assert Share(tags, s) == SourceLoad(t, now, src, s);
  }
}
