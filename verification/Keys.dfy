/** The text form of job ids and idempotency keys: parts joined by colons. */
module Keys {
  import opened Base
  import opened Tables

  function JobId(k: Slot): string { k.article + ":" + k.destination }

  /** A time as `iso` writes it; the name gives the quantifiers of `Dates` a term to hang on. */
  function Written(iso: int -> string, t: int): string { iso(t) }

  /** An unknown version is written as a word. */
  function VersionText(iso: int -> string, version: Option<int>): string {
    if version.Some? then Written(iso, version.value) else "unknown"
  }

  function Text(iso: int -> string, key: Key): string {
    match key
    case Legacy(k) => JobId(k)
    case Version(k, version) => JobId(k) + ":" + VersionText(iso, version)
    case Update(k, updatedAt) => JobId(k) + ":version:" + Written(iso, updatedAt)
  }

  predicate Plain(k: Slot) { ':' !in k.article && ':' !in k.destination }

  /** Written times differ for different times, and start like a date, not like a word. */
  ghost predicate Dates(iso: int -> string) {
    && (forall s, t :: Written(iso, s) == Written(iso, t) ==> s == t)
    && (forall t :: Written(iso, t) != "unknown" && !("version:" <= Written(iso, t)))
  }

  /** The first colon separates a colon-free part from the rest. */
  lemma FirstColon(a: string, x: string, b: string, y: string)
    requires ':' !in a && ':' !in b && a + ":" + x == b + ":" + y
    ensures a == b && x == y
  {
    var s := a + ":" + x;
    assert s[|a|] == ':' && s[|b|] == ':';
    assert forall i :: 0 <= i < |a| ==> s[i] == a[i] && a[i] in a;
    assert forall i :: 0 <= i < |b| ==> s[i] == b[i] && b[i] in b;
    assert s[..|a|] == a && s[..|b|] == b;
    assert s[|a| + 1..] == x && s[|b| + 1..] == y;
  }

  /** What follows the article: the destination, and for a versioned key a tail behind a colon. */
  function Tail(iso: int -> string, key: Key): Option<string> {
    match key
    case Legacy(_) => None
    case Version(_, version) => Some(VersionText(iso, version))
    case Update(_, updatedAt) => Some("version:" + Written(iso, updatedAt))
  }

  function AfterArticle(iso: int -> string, key: Key): string {
    key.slot.destination + if Tail(iso, key).Some? then ":" + Tail(iso, key).value else ""
  }

  lemma TextParts(iso: int -> string, key: Key)
    ensures Text(iso, key) == key.slot.article + ":" + AfterArticle(iso, key)
  {
    var k := key.slot;
    match key
    case Legacy(_) => assert k.destination + "" == k.destination;
    case Version(_, version) =>
      assert JobId(k) + ":" + VersionText(iso, version) == k.article + ":" + (k.destination + (":" + VersionText(iso, version)));
    case Update(_, updatedAt) =>
      assert ":version:" + Written(iso, updatedAt) == ":" + ("version:" + Written(iso, updatedAt));
      assert JobId(k) + ":version:" + Written(iso, updatedAt) == k.article + ":" + (k.destination + (":version:" + Written(iso, updatedAt)));
  }

  lemma NoVersionWord(iso: int -> string, version: Option<int>)
    requires Dates(iso)
    ensures !("version:" <= VersionText(iso, version))
  {
    if version.Some? {
      assert VersionText(iso, version) == Written(iso, version.value);
    } else {
      assert |"unknown"| < |"version:"|;
    }
  }

  lemma SameTail(iso: int -> string, p: Key, q: Key)
    requires Dates(iso) && p.slot == q.slot && Tail(iso, p) == Tail(iso, q)
    ensures p == q
  {
    match (p, q)
    case (Version(_, v), Version(_, w)) =>
      if v.Some? {
        assert VersionText(iso, v) == Written(iso, v.value);
      }
      if w.Some? {
        assert VersionText(iso, w) == Written(iso, w.value);
      }
    case (Update(_, s), Update(_, t)) =>
      assert ("version:" + Written(iso, s))[8..] == Written(iso, s);
      assert ("version:" + Written(iso, t))[8..] == Written(iso, t);
    case (Update(_, s), Version(_, version)) =>
      NoVersionWord(iso, version);
    case (Version(_, version), Update(_, s)) =>
      NoVersionWord(iso, version);
    case _ =>
  }

  /** A colon behind the article tells a versioned key from a plain one. */
  lemma ColonMeansVersioned(iso: int -> string, key: Key)
    requires Plain(key.slot)
    ensures ':' in AfterArticle(iso, key) <==> Tail(iso, key).Some?
  {
    var d, s := key.slot.destination, AfterArticle(iso, key);
    if Tail(iso, key).Some? {
      assert s[|d|] == ':';
    } else {
      assert s == d;
    }
  }

  lemma SameAfterArticle(iso: int -> string, p: Key, q: Key)
    requires Plain(p.slot) && Plain(q.slot) && AfterArticle(iso, p) == AfterArticle(iso, q)
    ensures p.slot.destination == q.slot.destination && Tail(iso, p) == Tail(iso, q)
  {
    ColonMeansVersioned(iso, p);
    ColonMeansVersioned(iso, q);
    var d, e := p.slot.destination, q.slot.destination;
    if Tail(iso, p).Some? {
      var t, u := Tail(iso, p).value, Tail(iso, q).value;
      assert d + (":" + t) == d + ":" + t && e + (":" + u) == e + ":" + u;
      FirstColon(d, t, e, u);
    } else {
      assert AfterArticle(iso, p) == d && AfterArticle(iso, q) == e;
    }
  }

  /** For ids and destination names without colons, a text stands for one key only. */
  lemma TextIsInjective(iso: int -> string, p: Key, q: Key)
    requires Dates(iso) && Plain(p.slot) && Plain(q.slot) && Text(iso, p) == Text(iso, q)
    ensures p == q
  {
    TextParts(iso, p);
    TextParts(iso, q);
    FirstColon(p.slot.article, AfterArticle(iso, p), q.slot.article, AfterArticle(iso, q));
    SameAfterArticle(iso, p, q);
    SameTail(iso, p, q);
  }

  lemma JobIdIsInjective(k: Slot, j: Slot)
    requires Plain(k) && Plain(j) && JobId(k) == JobId(j)
    ensures k == j
  {
    FirstColon(k.article, k.destination, j.article, j.destination);
  }

  /** With a colon in a part, two jobs share one row id, and one job's version key is another's plain
      key. */
  lemma ColonsCollide(iso: int -> string)
    ensures JobId(Slot("a:b", "c")) == JobId(Slot("a", "b:c"))
    ensures Text(iso, Version(Slot("a", "b"), None)) == Text(iso, Legacy(Slot("a", "b:unknown")))
  {
    assert JobId(Slot("a:b", "c")) == "a:b:c" == JobId(Slot("a", "b:c"));
    assert Text(iso, Legacy(Slot("a", "b:unknown"))) == "a:b:unknown";
    assert Text(iso, Version(Slot("a", "b"), None)) == "a:b:unknown";
  }
}
