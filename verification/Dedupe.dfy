/** The client's bounded duplicate filter: an ordered dictionary of message ids kept in
    least-recently-seen order and cut to a fixed size. */
module Dedupe {
  import opened Types

  /** s with every x removed. */
  function Without(s: seq<MsgId>, x: MsgId): (r: seq<MsgId>)
    ensures x !in r
    ensures forall y :: y != x ==> (y in r <==> y in s)
  {
    if s == [] then []
    else if s[0] == x then Without(s[1..], x)
    else [s[0]] + Without(s[1..], x)
  }

  /** One call of `seen` on the ordered dictionary: a known id moves to the end; an unknown
      one is appended, and the oldest entry is dropped when the size limit is passed. */
  function Touch(items: seq<MsgId>, maxSize: int, id: MsgId): seq<MsgId> {
    if id in items then Without(items, id) + [id]
    else if |items| + 1 > maxSize then (items + [id])[1..]
    else items + [id]
  }

  /** The dictionary after a whole history of `seen` calls. */
  function Items(history: seq<MsgId>, maxSize: int): seq<MsgId> {
    if history == [] then []
    else Touch(Items(history[..|history| - 1], maxSize), maxSize, history[|history| - 1])
  }

  // ---------- reference definitions, which do not mention the dictionary ----------

  function IdSet(history: seq<MsgId>): set<MsgId> {
    set x | x in history
  }

  /** The distinct ids of a history, ordered by their last occurrence. */
  function Recent(history: seq<MsgId>): (r: seq<MsgId>)
    ensures forall x :: x in r <==> x in history
    ensures NoDuplicates(r)
  {
    if history == [] then []
    else if history[0] in history[1..] then Recent(history[1..])
    else [history[0]] + Recent(history[1..])
  }

  ghost predicate NoDuplicates(s: seq<MsgId>) {
    forall i, j :: 0 <= i < j < |s| ==> s[i] != s[j]
  }

  function TakeLast(s: seq<MsgId>, n: int): (r: seq<MsgId>)
    ensures forall x :: x in r ==> x in s
  {
    if n <= 0 then [] else if |s| <= n then s else s[|s| - n..]
  }

  /** The position of the last occurrence of x. */
  function LastIndex(s: seq<MsgId>, x: MsgId): (i: nat)
    requires x in s
    ensures i < |s| && s[i] == x && x !in s[i + 1..]
  {
    if s[|s| - 1] == x then |s| - 1
    else
      assert s == s[..|s| - 1] + [s[|s| - 1]];
      var i := LastIndex(s[..|s| - 1], x);
      assert s[i + 1..] == s[..|s| - 1][i + 1..] + [s[|s| - 1]];
      i
  }

  // ---------- the dictionary refines the reference ----------

  lemma {:induction false} WithoutAbsent(s: seq<MsgId>, x: MsgId)
    requires x !in s
    ensures Without(s, x) == s
  {
    if s != [] {
      WithoutAbsent(s[1..], x);
    }
  }

  lemma {:induction false} WithoutAppend(a: seq<MsgId>, b: seq<MsgId>, x: MsgId)
    ensures Without(a + b, x) == Without(a, x) + Without(b, x)
  {
    if a == [] {
      assert a + b == b;
    } else {
      assert (a + b)[1..] == a[1..] + b;
      WithoutAppend(a[1..], b, x);
    }
  }

  lemma {:induction false} WithoutLength(s: seq<MsgId>, x: MsgId)
    requires NoDuplicates(s) && x in s
    ensures |Without(s, x)| == |s| - 1
  {
    if s[0] == x {
      WithoutAbsent(s[1..], x);
    } else {
      WithoutLength(s[1..], x);
    }
  }

  lemma {:induction false} RecentSnoc(history: seq<MsgId>, x: MsgId)
    ensures Recent(history + [x]) == Without(Recent(history), x) + [x]
  {
    if history == [] {
      assert history + [x] == [x];
      assert Recent([x]) == [x] + Recent([]);
    } else {
      assert (history + [x])[1..] == history[1..] + [x];
      RecentSnoc(history[1..], x);
    }
  }

  /** `_items` is exactly the last maxSize distinct ids of the history, by last occurrence. */
  lemma {:induction false} ItemsAreMostRecent(history: seq<MsgId>, maxSize: int)
    ensures Items(history, maxSize) == TakeLast(Recent(history), maxSize)
  {
    if history != [] {
      var g, x := history[..|history| - 1], history[|history| - 1];
      assert history == g + [x];
      ItemsAreMostRecent(g, maxSize);
      RecentSnoc(g, x);
      TouchTakesLast(Recent(g), maxSize, x);
    }
  }

  lemma TouchTakesLast(r: seq<MsgId>, maxSize: int, x: MsgId)
    requires NoDuplicates(r)
    ensures Touch(TakeLast(r, maxSize), maxSize, x) == TakeLast(Without(r, x) + [x], maxSize)
  {
    hide Touch, Without;
    var n := if maxSize < 0 then 0 else maxSize;
    var q := TakeLast(r, n);
    var p := r[..|r| - |q|];
    assert r == p + q;
    assert |q| == n || (p == [] && |q| <= n);
    TouchOfNegative(q, maxSize, x);
    if x in q {
      NotInBoth(p, q, x);
      TouchHit(p, q, n, x);
    } else {
      TouchMiss(p, q, n, x);
    }
  }

  /** A negative size limit acts like 0. */
  lemma TouchOfNegative(q: seq<MsgId>, maxSize: int, x: MsgId)
    requires maxSize < 0 ==> q == []
    ensures Touch(q, maxSize, x) == Touch(q, if maxSize < 0 then 0 else maxSize, x)
  {
  }

  lemma NotInBoth(p: seq<MsgId>, q: seq<MsgId>, x: MsgId)
    requires NoDuplicates(p + q) && x in q
    ensures x !in p && NoDuplicates(q)
  {
    var k :| 0 <= k < |q| && q[k] == x;
    var r := p + q;
    assert r[|p| + k] == x;
    assert forall i :: 0 <= i < |p| ==> r[i] == p[i] && r[i] != r[|p| + k];
    assert forall i :: 0 <= i < |q| ==> (p + q)[|p| + i] == q[i];
  }

  lemma TouchHit(p: seq<MsgId>, q: seq<MsgId>, n: nat, x: MsgId)
    requires x in q && x !in p && NoDuplicates(q)
    requires |q| == n || (p == [] && |q| <= n)
    ensures Touch(q, n, x) == TakeLast(Without(p + q, x) + [x], n)
  {
    WithoutAppend(p, q, x);
    WithoutAbsent(p, x);
    WithoutLength(q, x);
    var t := Without(q, x) + [x];
    assert Without(p + q, x) + [x] == p + t;
    TakeLastOfAppend(p, t, n);
  }

  lemma TouchMiss(p: seq<MsgId>, q: seq<MsgId>, n: nat, x: MsgId)
    requires x !in q
    requires |q| == n || (p == [] && |q| <= n)
    ensures Touch(q, n, x) == TakeLast(Without(p + q, x) + [x], n)
  {
    WithoutAppend(p, q, x);
    WithoutAbsent(q, x);
    var p' := Without(p, x);
    var t := q + [x];
    assert Without(p + q, x) + [x] == p' + t;
    if |q| == n {
      assert p' + t == (p' + t[..1]) + t[1..];
      TakeLastOfAppend(p' + t[..1], t[1..], n);
    } else {
      assert p' + t == t;
    }
  }

  lemma TakeLastOfAppend(p: seq<MsgId>, q: seq<MsgId>, n: int)
    requires |q| == n || (p == [] && |q| <= n)
    ensures TakeLast(p + q, n) == q
  {
  }

  lemma {:induction false} RecentSplit(a: seq<MsgId>, x: MsgId, b: seq<MsgId>) returns (older: seq<MsgId>)
    requires x !in b
    ensures Recent(a + [x] + b) == older + [x] + Recent(b)
  {
    if a == [] {
      assert a + [x] + b == [x] + b;
      older := [];
    } else {
      assert (a + [x] + b)[1..] == a[1..] + [x] + b;
      older := RecentSplit(a[1..], x, b);
      if a[0] !in a[1..] + [x] + b {
        older := [a[0]] + older;
      }
    }
  }

  lemma {:induction false} RecentCounts(history: seq<MsgId>)
    ensures |Recent(history)| == |IdSet(history)|
  {
    if history != [] {
      RecentCounts(history[1..]);
      assert IdSet(history) == {history[0]} + IdSet(history[1..]);
    }
  }

  lemma TakeLastHolds(older: seq<MsgId>, x: MsgId, newer: seq<MsgId>, n: int)
    requires x !in newer
    requires x !in older
    ensures x in TakeLast(older + [x] + newer, n) <==> |newer| < n
  {
    var q := TakeLast(older + [x] + newer, n);
    if |newer| < n {
      assert q[|q| - 1 - |newer|] == x;
    } else if n > 0 {
      assert q == newer[|newer| - n..];
    }
  }

  lemma SplitIsDistinct(older: seq<MsgId>, x: MsgId, newer: seq<MsgId>)
    requires NoDuplicates(older + [x] + newer)
    ensures x !in older && x !in newer
  {
    var r := older + [x] + newer;
    assert r[|older|] == x;
    assert forall i :: 0 <= i < |older| ==> r[i] == older[i];
    assert forall i :: 0 <= i < |newer| ==> r[|older| + 1 + i] == newer[i];
  }

  /** `seen` answers true for x exactly when x occurred before and fewer than maxSize distinct
      ids have arrived since its last occurrence. */
  lemma HitExactlyInWindow(history: seq<MsgId>, maxSize: int, x: MsgId)
    ensures x in Items(history, maxSize) <==>
            x in history && |IdSet(history[LastIndex(history, x) + 1..])| < maxSize
  {
    hide Items, IdSet, LastIndex, TakeLast, NoDuplicates, Recent;
    ItemsAreMostRecent(history, maxSize);
    if x in history {
      var i := LastIndex(history, x);
      var b := history[i + 1..];
      assert history == history[..i] + [x] + b;
      var older := RecentSplit(history[..i], x, b);
      RecentCounts(b);
      SplitIsDistinct(older, x, Recent(b));
      TakeLastHolds(older, x, Recent(b), maxSize);
    }
  }

  // ---------- the filter itself ----------

  class MessageDeduplicator {
    const maxSize: int
    var items: seq<MsgId>

    constructor (maxSize: int)
      ensures this.maxSize == maxSize && items == []
    {
      this.maxSize := maxSize;
      items := [];
    }

    /** True for a remembered id; in every case the id becomes the most recent one. */
    method Seen(id: MsgId) returns (hit: bool)
      requires NoDuplicates(items)
      modifies this
      ensures NoDuplicates(items)
      ensures hit == (id in old(items))
      ensures items == Touch(old(items), maxSize, id)
    {
      hit := id in items;
      if hit {
        MoveToEnd(id);
        return;
      }
      items := items + [id];
      if |items| > maxSize {
        items := items[1..];
      }
    }

    method MoveToEnd(id: MsgId)
      requires NoDuplicates(items) && id in items
      modifies this
      ensures NoDuplicates(items)
      ensures items == Without(old(items), id) + [id]
    {
      var i := 0;
      while items[i] != id
        invariant 0 <= i < |items| && items == old(items)
        invariant id !in items[..i]
        invariant id in items[i..]
        decreases |items| - i
      {
        i := i + 1;
      }
      WithoutAt(items, i);
      items := items[..i] + items[i + 1..] + [id];
    }
  }

  lemma WithoutAt(s: seq<MsgId>, i: nat)
    requires i < |s| && NoDuplicates(s)
    ensures Without(s, s[i]) == s[..i] + s[i + 1..]
  {
    hide Without;
    assert s[i] !in s[..i] && s[i] !in s[i + 1..];
    assert s == s[..i] + ([s[i]] + s[i + 1..]);
    hide NoDuplicates;
    WithoutMiddle(s[..i], s[i], s[i + 1..]);
  }

  lemma WithoutMiddle(a: seq<MsgId>, x: MsgId, b: seq<MsgId>)
    requires x !in a && x !in b
    ensures Without(a + ([x] + b), x) == a + b
  {
    hide Without;
    WithoutAppend(a, [x] + b, x);
    WithoutHead(b, x);
    WithoutAbsent(a, x);
    WithoutAbsent(b, x);
  }

  lemma WithoutHead(b: seq<MsgId>, x: MsgId)
    ensures Without([x] + b, x) == Without(b, x)
  {
    assert ([x] + b)[1..] == b;
  }
}
