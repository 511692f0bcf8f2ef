/** The bounded newest-first feed files: publishing moves an entry to the front and cuts the list. */
module Feed {
  import opened Base

  /** A feed item under its key: the article id in the JSON feed, the URL in the RSS feed. */
  datatype Entry = Entry(key: string, content: string)

  function Without(items: seq<Entry>, key: string): (r: seq<Entry>)
    ensures |r| <= |items|
  {
    if items == [] then []
    else (if items[0].key == key then [] else [items[0]]) + Without(items[1..], key)
  }

  function Take(items: seq<Entry>, n: nat): (r: seq<Entry>)
    ensures r <= items && |r| == Min(n, |items|)
  {
    if |items| <= n then items else items[..n]
  }

  function MoveToFront(items: seq<Entry>, e: Entry): seq<Entry> { [e] + Without(items, e.key) }

  /** Everything published, each key once, the latest publication first: no bound. */
  function Board(history: seq<Entry>): seq<Entry> {
    if history == [] then []
    else MoveToFront(Board(history[..|history| - 1]), history[|history| - 1])
  }

  lemma WithoutStep(kept: seq<Entry>, items: seq<Entry>, key: string, n: nat)
    requires n < |items|
    ensures kept + Without(items[n..], key) ==
      (if items[n].key == key then kept else kept + [items[n]]) + Without(items[n + 1..], key)
  {
    assert items[n..][0] == items[n] && items[n..][1..] == items[n + 1..];
  }

  /** What the file holds after a sequence of publications, starting without one. */
  function Stored(history: seq<Entry>, maxItems: nat): seq<Entry> {
    if history == [] then []
    else Take(MoveToFront(Stored(history[..|history| - 1], maxItems), history[|history| - 1]), maxItems)
  }

  // ----- cutting at every step is cutting once ------------------------------------------------

  ghost predicate DistinctKeys(items: seq<Entry>) { forall i, j :: 0 <= i < j < |items| ==> items[i].key != items[j].key }

  lemma {:induction false} WithoutAbsent(items: seq<Entry>, key: string)
    requires forall x :: x in items ==> x.key != key
    ensures Without(items, key) == items
  {
    if items != [] {
      WithoutAbsent(items[1..], key);
    }
  }

  lemma {:induction false} WithoutHas(items: seq<Entry>, key: string)
    ensures forall x :: x in Without(items, key) <==> x in items && x.key != key
    ensures DistinctKeys(items) ==> DistinctKeys(Without(items, key))
  {
    if items != [] {
      WithoutHas(items[1..], key);
      assert items == [items[0]] + items[1..];
      var tail := Without(items[1..], key);
      if DistinctKeys(items) && items[0].key != key {
        forall x | x in tail ensures x.key != items[0].key {}
        DistinctCons(items[0], tail);
      }
    }
  }

  lemma DistinctCons(e: Entry, items: seq<Entry>)
    requires DistinctKeys(items) && forall x :: x in items ==> x.key != e.key
    ensures DistinctKeys([e] + items)
  {
    var r := [e] + items;
    forall i, j | 0 <= i < j < |r| ensures r[i].key != r[j].key {
      assert r[j] == items[j - 1] && items[j - 1] in items;
    }
  }

  /** Removing one key from the first m items, or from all, leaves the same first m - 1. */
  lemma {:induction false} WithoutTake(items: seq<Entry>, key: string, m: nat)
    requires DistinctKeys(items) && m >= 1
    ensures Take(Without(Take(items, m), key), m - 1) == Take(Without(items, key), m - 1)
  {
    if |items| > m {
      var head, tail := items[0], items[1..];
      assert Take(items, m)[1..] == Take(tail, m - 1);
      if head.key == key {
        forall x | x in tail ensures x.key != key {
          var j :| 0 <= j < |tail| && tail[j] == x;
          assert items[j + 1] == x;
        }
        WithoutAbsent(tail, key);
        WithoutAbsent(Take(tail, m - 1), key);
      } else if m > 1 {
        WithoutTake(tail, key, m - 1);
      }
    }
  }

  lemma CutEachTime(items: seq<Entry>, e: Entry, m: nat)
    requires DistinctKeys(items) && m >= 1
    ensures Take(MoveToFront(Take(items, m), e), m) == Take(MoveToFront(items, e), m)
  {
    WithoutTake(items, e.key, m);
    FrontTake(e, Without(Take(items, m), e.key), m);
    FrontTake(e, Without(items, e.key), m);
  }

  lemma FrontTake(e: Entry, items: seq<Entry>, m: nat)
    requires m >= 1
    ensures Take([e] + items, m) == [e] + Take(items, m - 1)
  {
  }

  lemma {:induction false} BoardKeys(history: seq<Entry>)
    ensures DistinctKeys(Board(history))
  {
    if history != [] {
      var n := |history| - 1;
      BoardKeys(history[..n]);
      WithoutHas(Board(history[..n]), history[n].key);
      DistinctCons(history[n], Without(Board(history[..n]), history[n].key));
    }
  }

  /** Cutting the list at every publication leaves what cutting it once at the end would: the maxItems
      most recently published keys, newest first, each with its latest content. */
  lemma {:induction false} CutOnceAtTheEnd(history: seq<Entry>, maxItems: nat)
    requires maxItems >= 1
    ensures Stored(history, maxItems) == Take(Board(history), maxItems)
  {
    if history != [] {
      var n := |history| - 1;
      CutOnceAtTheEnd(history[..n], maxItems);
      BoardKeys(history[..n]);
      CutEachTime(Board(history[..n]), history[n], maxItems);
    }
  }

  // ----- what the board is ---------------------------------------------------------------------

  /** Entry e was published under its key last, at position i. */
  predicate LastAt(history: seq<Entry>, e: Entry, i: nat) {
    i < |history| && history[i] == e && forall j :: i < j < |history| ==> history[j].key != e.key
  }

  lemma LastLater(history: seq<Entry>, e: Entry, i: nat)
    requires history != [] && LastAt(history[..|history| - 1], e, i) && e.key != history[|history| - 1].key
    ensures LastAt(history, e, i)
  {
  }

  lemma {:induction false} OnBoardIsLast(history: seq<Entry>, e: Entry) returns (i: nat)
    requires e in Board(history)
    ensures LastAt(history, e, i)
  {
    var n := |history| - 1;
    if e == history[n] {
      i := n;
    } else {
      WithoutHas(Board(history[..n]), history[n].key);
      assert e in Without(Board(history[..n]), history[n].key);
      i := OnBoardIsLast(history[..n], e);
      LastLater(history, e, i);
    }
  }

  lemma {:induction false} LastIsOnBoard(history: seq<Entry>, e: Entry, i: nat)
    requires LastAt(history, e, i)
    ensures e in Board(history)
  {
    var n := |history| - 1;
    if i < n {
      WithoutHas(Board(history[..n]), history[n].key);
      assert history[n].key != e.key;
      LastIsOnBoard(history[..n], e, i);
    }
  }

  /** The board holds exactly the latest publication of every key. */
  lemma BoardIsLatest(history: seq<Entry>, e: Entry)
    ensures e in Board(history) <==> exists i: nat :: LastAt(history, e, i)
  {
    if e in Board(history) {
      var i := OnBoardIsLast(history, e);
    }
    if i: nat :| LastAt(history, e, i) {
      LastIsOnBoard(history, e, i);
    }
  }

  lemma {:induction false} WithoutOrder(items: seq<Entry>, key: string, a: nat, b: nat) returns (x: nat, y: nat)
    requires a < b < |Without(items, key)|
    ensures x < y < |items| && items[x] == Without(items, key)[a] && items[y] == Without(items, key)[b]
  {
    var tail := Without(items[1..], key);
    if items[0].key == key {
      x, y := WithoutOrder(items[1..], key, a, b);
      x, y := x + 1, y + 1;
    } else if a > 0 {
      x, y := WithoutOrder(items[1..], key, a - 1, b - 1);
      x, y := x + 1, y + 1;
    } else {
      x := 0;
      assert tail[b - 1] in tail;
      WithoutHas(items[1..], key);
      var z :| 0 <= z < |items[1..]| && items[1..][z] == tail[b - 1];
      y := z + 1;
    }
  }

  lemma LastEarlier(history: seq<Entry>, e: Entry, i: nat)
    requires LastAt(history, e, i) && e.key != history[|history| - 1].key
    ensures i < |history| - 1 && LastAt(history[..|history| - 1], e, i)
  {
  }

  /** Behind the front entry the board has other keys, in the order they had before. */
  lemma BehindFront(history: seq<Entry>, a: nat)
    requires 0 < a < |Board(history)|
    ensures Board(history)[a] == Without(Board(history[..|history| - 1]), history[|history| - 1].key)[a - 1]
    ensures Board(history)[a].key != history[|history| - 1].key
  {
    var n := |history| - 1;
    var rest := Without(Board(history[..n]), history[n].key);
    assert Board(history) == [history[n]] + rest;
    WithoutHas(Board(history[..n]), history[n].key);
    assert rest[a - 1] in rest;
  }

  /** It lists them from the latest to the earliest publication. */
  lemma {:induction false} BoardIsNewestFirst(history: seq<Entry>, a: nat, b: nat, i: nat, j: nat)
    requires a < b < |Board(history)| && LastAt(history, Board(history)[a], i) && LastAt(history, Board(history)[b], j)
    ensures i > j
  {
    var n := |history| - 1;
    BehindFront(history, b);
    LastEarlier(history, Board(history)[b], j);
    if a > 0 {
      BehindFront(history, a);
      LastEarlier(history, Board(history)[a], i);
      var x, y := WithoutOrder(Board(history[..n]), history[n].key, a - 1, b - 1);
      BoardIsNewestFirst(history[..n], x, y, i, j);
    } else {
      assert Board(history)[0] == history[n];
    }
  }

  // ----- the file --------------------------------------------------------------------------------

  class FeedFile {
    const maxItems: nat
    var items: seq<Entry>
    ghost var history: seq<Entry>

    constructor (maxItems: int)
      ensures this.maxItems == Max(1, maxItems) && Agrees() && history == []
    {
      this.maxItems, items, history := Max(1, maxItems), [], [];
    }

    /** The file holds the top of the board of everything published. */
    ghost predicate Agrees()
      reads this
    {
      items == Take(Board(history), maxItems)
    }

    /** Read the stored items, drop the entry's own, insert it in front, write the first maxItems. */
    method Publish(e: Entry)
      requires maxItems >= 1
      modifies this
      ensures items == Take(MoveToFront(old(items), e), maxItems)
      ensures history == old(history) + [e] && (old(Agrees()) ==> Agrees())
    {
      var existing := items;
      var kept: seq<Entry> := [];
      for n := 0 to |existing|
        invariant history == old(history)
        invariant kept + Without(existing[n..], e.key) == Without(existing, e.key)
      {
        WithoutStep(kept, existing, e.key, n);
        if existing[n].key != e.key {
          kept := kept + [existing[n]];
        }
      }
      assert existing[|existing|..] == [];
      kept := [e] + kept;
      items := if |kept| <= maxItems then kept else kept[..maxItems];
      history := history + [e];
      assert history[..|history| - 1] == old(history);
      BoardKeys(old(history));
      CutEachTime(Board(old(history)), e, maxItems);
    }
  }
}
