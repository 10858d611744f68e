/** Shared vocabulary of the model: nullable values and the JavaScript `||`
    fallbacks the data-access layer uses to fill defaults. */
module Common {

  /** A value that may be missing: `None` stands for SQL NULL or a JavaScript
      `undefined`/`null` property. */
  datatype Option<+T> = None | Some(value: T) {

    /** The value, or `default` when missing (JavaScript `x ?? default`). */
    function GetOr(default: T): T {
      match this
      case Some(v) => v
      case None => default
    }
  }

  /** A nullable text column or an optional text input. */
  type Text = Option<string>

  /** JavaScript truthiness of a string-or-null: null, undefined and "" are falsy. */
  predicate Present(t: Text) {
    t.Some? && t.value != ""
  }

  /** `t || d` for a string-or-null `t` and a string default `d`. */
  function Or(t: Text, d: string): string {
    if Present(t) then t.value else d
  }

  /** `t || null`: the empty string is stored as NULL. */
  function OrNull(t: Text): Text {
    if Present(t) then t else None
  }

  /** `n || d` for a number-or-undefined `n`: 0 and undefined are falsy. */
  function OrInt(n: Option<int>, d: int): int {
    if n.Some? && n.value != 0 then n.value else d
  }

  /** `n || null` for an id: 0 and undefined are stored as NULL. */
  function OrNullId(n: Option<int>): Option<int> {
    if n.Some? && n.value != 0 then n else None
  }

  /** `${t}` in a template literal: a NULL column renders as `null`. */
  function Show(t: Text): string {
    if t.Some? then t.value else "null"
  }

  /** What a column written from `given || null` holds: the given text when it
      is truthy, NULL when it is missing or empty. */
  predicate KeptOrNull(given: Text, stored: Text) {
    (Present(given) ==> stored == given) && (!Present(given) ==> stored.None?)
  }

  /** What a text column written from `given || d` holds: the given text when
      it is truthy, the default `d` otherwise. */
  predicate KeptOr(given: Text, stored: Text, d: string) {
    (Present(given) ==> stored == given) && (!Present(given) ==> stored == Some(d))
  }

  /** `KeptOr` for a column the default makes `NOT NULL`, held as a plain string. */
  predicate ValueKeptOr(given: Text, stored: string, d: string) {
    (Present(given) ==> stored == given.value) && (!Present(given) ==> stored == d)
  }

  /** What an id column written from `n || null` holds. */
  predicate IdKeptOrNull(n: Option<int>, stored: Option<int>) {
    (n.Some? && n.value != 0 ==> stored == n) && (n.None? || n.value == 0 ==> stored.None?)
  }

  /** What an integer column written from `n || d` holds. */
  predicate KeptOrInt(n: Option<int>, stored: int, d: int) {
    (n.Some? && n.value != 0 ==> stored == n.value) && (n.None? || n.value == 0 ==> stored == d)
  }

  /** A nullable column written through `|| null` never holds the empty string. */
  predicate NullOrText(t: Text) { t.None? || t.value != "" }

  /** An SQLite boolean: 0 or 1. */
  predicate IsFlag(n: int) { n == 0 || n == 1 }

  /** `b ? 1 : 0`: a truthy flag stored as an SQLite integer. */
  function Flag(b: bool): int {
    if b then 1 else 0
  }

  /** Number of elements of `s` satisfying `p` (an SQL `COUNT(*) ... WHERE p`). */
  function CountWhere<T>(s: seq<T>, p: T -> bool): (n: nat)
    ensures n <= |s|
  {
    if |s| == 0 then 0 else (if p(s[0]) then 1 else 0) + CountWhere(s[1..], p)
  }

  /** Appending a row adds one to the count exactly when the row satisfies `p`. */
  lemma {:induction false} CountWhereAppend<T>(s: seq<T>, x: T, p: T -> bool)
    ensures CountWhere(s + [x], p) == CountWhere(s, p) + if p(x) then 1 else 0
  {
    if |s| > 0 {
      assert (s + [x])[1..] == s[1..] + [x];
      CountWhereAppend(s[1..], x, p);
    } else {
      assert (s + [x])[1..] == [];
    }
  }

  /** The elements of `s` satisfying `p`, in order (an SQL `WHERE p`). */
  function Filter<T>(s: seq<T>, p: T -> bool): (r: seq<T>)
    ensures |r| == CountWhere(s, p)
    ensures forall x :: x in r ==> x in s && p(x)
  {
    if |s| == 0 then []
    else (if p(s[0]) then [s[0]] else []) + Filter(s[1..], p)
  }

  lemma FilterKeeps<T>(s: seq<T>, p: T -> bool, x: T)
    requires x in s && p(x)
    ensures x in Filter(s, p)
  {
    if s[0] != x {
      FilterKeeps(s[1..], p, x);
    }
  }

  /** `Filter` keeps every copy of a row satisfying `p` and no other row. */
  lemma {:induction false} FilterMultiplicity<T>(s: seq<T>, p: T -> bool, x: T)
    ensures multiset(Filter(s, p))[x] == if p(x) then multiset(s)[x] else 0
  {
    if |s| > 0 {
      assert s == [s[0]] + s[1..];
      FilterMultiplicity(s[1..], p, x);
    }
  }

  /** `SUM(f(row))` over a table (as an integer; SQL's NULL for an empty
      table is handled by the caller). */
  function Sum<T>(s: seq<T>, f: T -> int): int {
    if |s| == 0 then 0 else f(s[0]) + Sum(s[1..], f)
  }

  lemma {:induction false} SumConcat<T>(a: seq<T>, b: seq<T>, f: T -> int)
    ensures Sum(a + b, f) == Sum(a, f) + Sum(b, f)
  {
    if |a| == 0 {
      assert a + b == b;
    } else {
      assert (a + b)[1..] == a[1..] + b;
      SumConcat(a[1..], b, f);
    }
  }

  /** Reordering a table keeps its sum. */
  lemma {:induction false} SumPermutation<T>(a: seq<T>, b: seq<T>, f: T -> int)
    requires multiset(a) == multiset(b)
    ensures Sum(a, f) == Sum(b, f)
    decreases |a|
  {
    if |a| == 0 {
      assert |b| == |multiset(b)| == 0;
    } else {
      assert a[0] in multiset(b);
      var j :| 0 <= j < |b| && b[j] == a[0];
      var rest := b[..j] + b[j + 1..];
      RemoveAtMultiset(b, j);
      assert a == [a[0]] + a[1..];
      assert multiset(a[1..]) == multiset(a) - multiset{a[0]};
      SumPermutation(a[1..], rest, f);
      RemoveAtSum(b, j, f);
    }
  }

  lemma RemoveAtMultiset<T>(b: seq<T>, j: nat)
    requires j < |b|
    ensures multiset(b[..j] + b[j + 1..]) == multiset(b) - multiset{b[j]}
  {
    assert b == b[..j] + [b[j]] + b[j + 1..];
  }

  lemma RemoveAtSum<T>(b: seq<T>, j: nat, f: T -> int)
    requires j < |b|
    ensures Sum(b, f) == f(b[j]) + Sum(b[..j] + b[j + 1..], f)
  {
    assert b == b[..j] + ([b[j]] + b[j + 1..]);
    SumConcat(b[..j], [b[j]] + b[j + 1..], f);
    SumConcat([b[j]], b[j + 1..], f);
    SumConcat(b[..j], b[j + 1..], f);
  }

  /** Lexicographic order on code points: SQLite's BINARY collation for text
      (UTF-8 byte order coincides with code point order). */
  predicate TextLe(a: string, b: string) {
    if |a| == 0 then true
    else if |b| == 0 then false
    else if a[0] != b[0] then a[0] < b[0]
    else TextLe(a[1..], b[1..])
  }

  lemma {:induction false} TextLeTransitive(a: string, b: string, c: string)
    requires TextLe(a, b) && TextLe(b, c)
    ensures TextLe(a, c)
  {
    if |a| != 0 && |b| != 0 && |c| != 0 && a[0] == b[0] && b[0] == c[0] {
      TextLeTransitive(a[1..], b[1..], c[1..]);
    }
  }

  lemma TextLeReflexive(a: string)
    ensures TextLe(a, a)
  {
    if |a| > 0 {
      TextLeReflexive(a[1..]);
    }
  }

  lemma {:induction false} TextLeTotal(a: string, b: string)
    ensures TextLe(a, b) || TextLe(b, a)
  {
    if |a| > 0 && |b| > 0 && a[0] == b[0] {
      TextLeTotal(a[1..], b[1..]);
    }
  }
}
