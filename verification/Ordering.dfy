/** The row orders and windows of SQL queries: `ORDER BY <date> DESC` over a
    nullable text column, and `LIMIT`/`OFFSET`. */
module Ordering {
  import opened Common

  /** SQLite's order on a nullable date text: NULL is smallest, then BINARY
      text order. */
  predicate KeyLe(a: Text, b: Text) {
    a.None? || (b.Some? && TextLe(a.value, b.value))
  }

  lemma KeyLeTransitive(a: Text, b: Text, c: Text)
    requires KeyLe(a, b) && KeyLe(b, c)
    ensures KeyLe(a, c)
  {
    if a.Some? {
      TextLeTransitive(a.value, b.value, c.value);
    }
  }

  lemma KeyLeTotal(a: Text, b: Text)
    ensures KeyLe(a, b) || KeyLe(b, a)
  {
    if a.Some? && b.Some? {
      TextLeTotal(a.value, b.value);
    }
  }

  /** `ORDER BY key DESC`: later dates first, rows without a date last. */
  predicate NewestFirst<T>(s: seq<T>, key: T -> Text) {
    forall i, j :: 0 <= i < j < |s| ==> KeyLe(key(s[j]), key(s[i]))
  }

  function Insert<T>(x: T, s: seq<T>, key: T -> Text): (r: seq<T>)
    requires NewestFirst(s, key)
    ensures NewestFirst(r, key)
    ensures multiset(r) == multiset(s) + multiset{x}
    ensures forall i :: 0 <= i < |r| ==> r[i] == x || r[i] in s
  {
    if |s| == 0 then [x]
    else if KeyLe(key(s[0]), key(x)) then
      InsertFront(x, s, key);
      [x] + s
    else
      KeyLeTotal(key(s[0]), key(x));
      var t := Insert(x, s[1..], key);
      InsertStep(x, s, t, key);
      [s[0]] + t
  }

  /** A row no older than the newest goes in front. */
  lemma InsertFront<T>(x: T, s: seq<T>, key: T -> Text)
    requires NewestFirst(s, key) && |s| > 0 && KeyLe(key(s[0]), key(x))
    ensures NewestFirst([x] + s, key)
  {
    forall j | 0 <= j < |s| ensures KeyLe(key(s[j]), key(x)) {
      if j > 0 {
        KeyLeTransitive(key(s[j]), key(s[0]), key(x));
      }
    }
    NewestFirstCons(x, s, key);
  }

  /** The step of `Insert` past a newer head. */
  lemma InsertStep<T>(x: T, s: seq<T>, t: seq<T>, key: T -> Text)
    requires |s| > 0 && NewestFirst(s, key) && KeyLe(key(x), key(s[0]))
    requires NewestFirst(t, key) && multiset(t) == multiset(s[1..]) + multiset{x}
    requires forall i :: 0 <= i < |t| ==> t[i] == x || t[i] in s[1..]
    ensures NewestFirst([s[0]] + t, key)
    ensures multiset([s[0]] + t) == multiset(s) + multiset{x}
    ensures forall i :: 0 <= i < |[s[0]] + t| ==> ([s[0]] + t)[i] == x || ([s[0]] + t)[i] in s
  {
    assert s == [s[0]] + s[1..];
    forall j | 0 <= j < |t| ensures KeyLe(key(t[j]), key(s[0])) {
      if t[j] != x {
        var m :| 0 <= m < |s[1..]| && s[1..][m] == t[j];
        assert s[m + 1] == t[j];
      }
    }
    NewestFirstCons(s[0], t, key);
  }

  lemma NewestFirstCons<T>(h: T, t: seq<T>, key: T -> Text)
    requires NewestFirst(t, key)
    requires forall j :: 0 <= j < |t| ==> KeyLe(key(t[j]), key(h))
    ensures NewestFirst([h] + t, key)
  {
    var r := [h] + t;
    forall i, j | 0 <= i < j < |r| ensures KeyLe(key(r[j]), key(r[i])) {
      assert r[j] == t[j - 1];
      if i > 0 {
        assert r[i] == t[i - 1];
      }
    }
  }

  /** The rows newest first. SQLite leaves the order of equal dates open; this
      insertion sort fixes one of the allowed orders. */
  function OrderNewestFirst<T>(s: seq<T>, key: T -> Text): (r: seq<T>)
    ensures NewestFirst(r, key)
    ensures multiset(r) == multiset(s)
  {
    if |s| == 0 then []
    else
      assert s == [s[0]] + s[1..];
      Insert(s[0], OrderNewestFirst(s[1..], key), key)
  }

  /** `LIMIT limit OFFSET offset`: the rows at positions `offset` up to
      `offset + limit - 1`, as far as there are any. */
  function Page<T>(s: seq<T>, limit: nat, offset: nat): (r: seq<T>)
    ensures |r| == if offset >= |s| then 0 else Min(limit, |s| - offset)
    ensures forall i :: 0 <= i < |r| ==> r[i] == s[offset + i]
  {
    if offset >= |s| then [] else s[offset..offset + Min(limit, |s| - offset)]
  }

  function Min(a: int, b: int): int { if a <= b then a else b }

  /** Two consecutive pages together are the page spanning both. */
  lemma PagesTile<T>(s: seq<T>, a: nat, b: nat, offset: nat)
    ensures Page(s, a, offset) + Page(s, b, offset + a) == Page(s, a + b, offset)
  {
    var l := Page(s, a, offset) + Page(s, b, offset + a);
    var r := Page(s, a + b, offset);
    assert |l| == |r|;
    forall i | 0 <= i < |r| ensures l[i] == r[i] {
      if i < |Page(s, a, offset)| {
        assert l[i] == s[offset + i];
      } else {
        assert l[i] == Page(s, b, offset + a)[i - |Page(s, a, offset)|];
      }
    }
  }

  lemma NewestFirstSlice<T>(s: seq<T>, key: T -> Text, i: nat, j: nat)
    requires NewestFirst(s, key) && i <= j <= |s|
    ensures NewestFirst(s[i..j], key)
  {
    assert forall k :: 0 <= k < j - i ==> s[i..j][k] == s[i + k];
  }

  /** A page of a newest-first listing is newest first and holds only rows
      of the listing. */
  lemma PageNewestFirst<T>(s: seq<T>, key: T -> Text, limit: nat, offset: nat)
    requires NewestFirst(s, key)
    ensures NewestFirst(Page(s, limit, offset), key)
    ensures forall x :: x in Page(s, limit, offset) ==> x in s
  {
    var r := Page(s, limit, offset);
    if offset < |s| {
      NewestFirstSlice(s, key, offset, offset + |r|);
      assert r == s[offset..offset + |r|];
    }
    forall x | x in r ensures x in s {
      var k :| 0 <= k < |r| && r[k] == x;
      assert x == s[offset + k];
    }
  }

  /** `ORDER BY key ASC` on an integer column: non-decreasing keys. */
  predicate Ascending<T>(s: seq<T>, key: T -> int) {
    forall i, j :: 0 <= i < j < |s| ==> key(s[i]) <= key(s[j])
  }

  function InsertByKey<T>(x: T, s: seq<T>, key: T -> int): (r: seq<T>)
    requires Ascending(s, key)
    ensures Ascending(r, key)
    ensures multiset(r) == multiset(s) + multiset{x}
    ensures forall i :: 0 <= i < |r| ==> r[i] == x || r[i] in s
  {
    if |s| == 0 then [x]
    else if key(x) <= key(s[0]) then
      assert forall j :: 0 <= j < |s| ==> key(x) <= key(s[j]);
      [x] + s
    else
      var t := InsertByKey(x, s[1..], key);
      InsertByKeyStep(x, s, t, key);
      [s[0]] + t
  }

  /** The step of `InsertByKey` past a smaller head. */
  lemma InsertByKeyStep<T>(x: T, s: seq<T>, t: seq<T>, key: T -> int)
    requires |s| > 0 && Ascending(s, key) && key(s[0]) < key(x)
    requires Ascending(t, key) && multiset(t) == multiset(s[1..]) + multiset{x}
    requires forall i :: 0 <= i < |t| ==> t[i] == x || t[i] in s[1..]
    ensures Ascending([s[0]] + t, key)
    ensures multiset([s[0]] + t) == multiset(s) + multiset{x}
    ensures forall i :: 0 <= i < |[s[0]] + t| ==> ([s[0]] + t)[i] == x || ([s[0]] + t)[i] in s
  {
    assert s == [s[0]] + s[1..];
    forall j | 0 <= j < |t| ensures key(s[0]) <= key(t[j]) {
      if t[j] != x {
        var m :| 0 <= m < |s[1..]| && s[1..][m] == t[j];
        assert s[m + 1] == t[j];
      }
    }
    AscendingCons(s[0], t, key);
  }

  lemma AscendingCons<T>(h: T, t: seq<T>, key: T -> int)
    requires Ascending(t, key)
    requires forall j :: 0 <= j < |t| ==> key(h) <= key(t[j])
    ensures Ascending([h] + t, key)
  {
    forall i, j | 0 <= i < j < |[h] + t| ensures key(([h] + t)[i]) <= key(([h] + t)[j]) {
      assert ([h] + t)[j] == t[j - 1];
      if i > 0 {
        assert ([h] + t)[i] == t[i - 1];
      }
    }
  }

  /** The rows in key order. SQLite leaves the order of equal keys open; this
      insertion sort fixes one of the allowed orders. */
  function OrderByKey<T>(s: seq<T>, key: T -> int): (r: seq<T>)
    ensures Ascending(r, key)
    ensures multiset(r) == multiset(s)
  {
    if |s| == 0 then []
    else
      assert s == [s[0]] + s[1..];
      InsertByKey(s[0], OrderByKey(s[1..], key), key)
  }

  lemma {:induction false} FilterAscending<T>(s: seq<T>, p: T -> bool, key: T -> int)
    requires Ascending(s, key)
    ensures Ascending(Filter(s, p), key)
  {
    if |s| > 0 {
      FilterAscending(s[1..], p, key);
      var t := Filter(s[1..], p);
      assert Filter(s, p) == (if p(s[0]) then [s[0]] else []) + t;
      assert forall y :: y in s[1..] ==> key(s[0]) <= key(y) by {
        forall y | y in s[1..] ensures key(s[0]) <= key(y) {
          var j :| 0 <= j < |s[1..]| && s[1..][j] == y;
          assert s[j + 1] == y;
        }
      }
      assert forall j :: 0 <= j < |t| ==> t[j] in s[1..];
    }
  }
}
