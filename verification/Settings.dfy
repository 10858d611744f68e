/** Site settings: a key/value store (`settings`, with `key` unique and a
    `type` column defaulting to `text`). */
module Settings {
  import opened Common

  /** The non-key columns of a settings row. */
  datatype Row = Row(value: Text, kind: string)

  /** The table, keyed by its unique `key` column. */
  type Store = map<string, Row>

  const DefaultKind := "text"

  /** `getSettings`: every key with its value. */
  function GetSettings(s: Store): (m: map<string, Text>)
    ensures m.Keys == s.Keys
    ensures forall k :: k in m ==> m[k] == s[k].value
  {
    map k | k in s :: s[k].value
  }

  /** `settings[key]` on the object `getSettings` returns: undefined, like
      NULL, for a key with no row. */
  function Lookup(m: map<string, Text>, key: string): Text {
    if key in m then m[key] else None
  }

  /** `getSetting(key)`: the value, or null when there is no such row. */
  function GetSetting(s: Store, key: string): (v: Text)
    ensures key !in s ==> v.None?
  {
    if key in s then s[key].value else None
  }

  /** One row read agrees with the whole map read. */
  lemma GetSettingAgrees(s: Store, key: string)
    ensures GetSetting(s, key) == Lookup(GetSettings(s), key)
  {
  }

  /** A least key of a non-empty set of keys, in SQLite's text order. */
  lemma {:induction false} LeastKeyOf(ks: set<string>) returns (k: string)
    requires ks != {}
    ensures k in ks && forall j :: j in ks ==> TextLe(k, j)
    decreases |ks|
  {
    var x :| x in ks;
    if ks == {x} {
      TextLeReflexive(x);
      k := x;
    } else {
      var m := LeastKeyOf(ks - {x});
      TextLeTotal(x, m);
      if TextLe(x, m) {
        BelowLeast(x, m, ks - {x});
        TextLeReflexive(x);
        k := x;
      } else {
        k := m;
      }
    }
  }

  lemma BelowLeast(x: string, m: string, ks: set<string>)
    requires TextLe(x, m) && forall j :: j in ks ==> TextLe(m, j)
    ensures forall j :: j in ks ==> TextLe(x, j)
  {
    forall j | j in ks ensures TextLe(x, j) {
      TextLeTransitive(x, m, j);
    }
  }

  ghost function LeastKey(ks: set<string>): (k: string)
    requires ks != {}
    ensures k in ks && forall j :: j in ks ==> TextLe(k, j)
  {
    LeastKeyExists(ks);
    var k :| k in ks && forall j :: j in ks ==> TextLe(k, j);
    k
  }

  lemma LeastKeyExists(ks: set<string>)
    requires ks != {}
    ensures exists k :: k in ks && forall j :: j in ks ==> TextLe(k, j)
  {
    var k := LeastKeyOf(ks);
  }

  /** The rows of the keys `ks`, in ascending key order. */
  ghost function RowsOf(s: Store, ks: set<string>): (r: seq<(string, Row)>)
    requires ks <= s.Keys
    ensures |r| == |ks|
    ensures forall i :: 0 <= i < |r| ==> r[i].0 in ks && r[i].1 == s[r[i].0]
    ensures forall k :: k in ks ==> exists i :: 0 <= i < |r| && r[i].0 == k
    ensures forall i, j :: 0 <= i < j < |r| ==> TextLe(r[i].0, r[j].0) && r[i].0 != r[j].0
    decreases ks
  {
    if ks == {} then []
    else
      var k := LeastKey(ks);
      var tail := RowsOf(s, ks - {k});
      RowsCons(s, ks, k, tail);
      [(k, s[k])] + tail
  }

  /** The least key followed by the ordered rows of the other keys are the
      ordered rows of all of them. */
  lemma RowsCons(s: Store, ks: set<string>, k: string, tail: seq<(string, Row)>)
    requires ks <= s.Keys && k in ks && forall j :: j in ks ==> TextLe(k, j)
    requires |tail| == |ks - {k}|
    requires forall i :: 0 <= i < |tail| ==> tail[i].0 in ks - {k} && tail[i].1 == s[tail[i].0]
    requires forall x :: x in ks - {k} ==> exists i :: 0 <= i < |tail| && tail[i].0 == x
    requires forall i, j :: 0 <= i < j < |tail| ==> TextLe(tail[i].0, tail[j].0) && tail[i].0 != tail[j].0
    ensures var r := [(k, s[k])] + tail;
      && |r| == |ks|
      && (forall i :: 0 <= i < |r| ==> r[i].0 in ks && r[i].1 == s[r[i].0])
      && (forall x :: x in ks ==> exists i :: 0 <= i < |r| && r[i].0 == x)
      && (forall i, j :: 0 <= i < j < |r| ==> TextLe(r[i].0, r[j].0) && r[i].0 != r[j].0)
  {
    assert |ks| == |ks - {k}| + 1;
    RowsConsMembers(s, ks, k, tail);
    RowsConsCover(s, ks, k, tail);
    RowsConsSorted(s, ks, k, tail);
  }

  lemma RowsConsMembers(s: Store, ks: set<string>, k: string, tail: seq<(string, Row)>)
    requires ks <= s.Keys && k in ks
    requires forall i :: 0 <= i < |tail| ==> tail[i].0 in ks - {k} && tail[i].1 == s[tail[i].0]
    ensures var r := [(k, s[k])] + tail;
      forall i :: 0 <= i < |r| ==> r[i].0 in ks && r[i].1 == s[r[i].0]
  {
    var r := [(k, s[k])] + tail;
    forall i | 0 <= i < |r| ensures r[i].0 in ks && r[i].1 == s[r[i].0] {
      if i > 0 {
        assert r[i] == tail[i - 1];
      }
    }
  }

  lemma RowsConsCover(s: Store, ks: set<string>, k: string, tail: seq<(string, Row)>)
    requires ks <= s.Keys && k in ks
    requires forall x :: x in ks - {k} ==> exists i :: 0 <= i < |tail| && tail[i].0 == x
    ensures var r := [(k, s[k])] + tail;
      forall x :: x in ks ==> exists i :: 0 <= i < |r| && r[i].0 == x
  {
    var r := [(k, s[k])] + tail;
    forall x | x in ks ensures exists i :: 0 <= i < |r| && r[i].0 == x {
      if x == k {
        assert r[0].0 == x;
      } else {
        assert x in ks - {k};
        var i :| 0 <= i < |tail| && tail[i].0 == x;
        assert r[i + 1] == tail[i];
      }
    }
  }

  lemma RowsConsSorted(s: Store, ks: set<string>, k: string, tail: seq<(string, Row)>)
    requires ks <= s.Keys && k in ks && forall j :: j in ks ==> TextLe(k, j)
    requires forall i :: 0 <= i < |tail| ==> tail[i].0 in ks - {k}
    requires forall i, j :: 0 <= i < j < |tail| ==> TextLe(tail[i].0, tail[j].0) && tail[i].0 != tail[j].0
    ensures var r := [(k, s[k])] + tail;
      forall i, j :: 0 <= i < j < |r| ==> TextLe(r[i].0, r[j].0) && r[i].0 != r[j].0
  {
    var r := [(k, s[k])] + tail;
    forall i, j | 0 <= i < j < |r| ensures TextLe(r[i].0, r[j].0) && r[i].0 != r[j].0 {
      assert r[j] == tail[j - 1];
      if i > 0 {
        assert r[i] == tail[i - 1];
      } else {
        assert tail[j - 1].0 in ks - {k};
      }
    }
  }

  /** `getAllSettings`: every row once, in ascending key order. */
  ghost function GetAllSettings(s: Store): (r: seq<(string, Row)>)
    ensures |r| == |s.Keys|
    ensures forall i :: 0 <= i < |r| ==> r[i].0 in s && r[i].1 == s[r[i].0]
    ensures forall k :: k in s ==> exists i :: 0 <= i < |r| && r[i].0 == k
    ensures forall i, j :: 0 <= i < j < |r| ==> TextLe(r[i].0, r[j].0) && r[i].0 != r[j].0
  {
    RowsOf(s, s.Keys)
  }

  /** `updateSetting(key, value)`: a plain UPDATE, so an absent key changes
      nothing and the row keeps its type. */
  function UpdateSetting(s: Store, key: string, value: Text): (r: Store)
    ensures r.Keys == s.Keys
    ensures key in s ==> r[key] == Row(value, s[key].kind)
    ensures forall k :: k in s && k != key ==> r[k] == s[k]
    ensures key !in s ==> r == s
  {
    if key in s then s[key := Row(value, s[key].kind)] else s
  }

  /** `INSERT OR REPLACE INTO settings (key, value)`: the old row, if any,
      is deleted and a new one inserted with the default type. */
  function Upsert(s: Store, key: string, value: Text): Store {
    s[key := Row(value, DefaultKind)]
  }

  function KeysOf(entries: seq<(string, Text)>): set<string> {
    set i | 0 <= i < |entries| :: entries[i].0
  }

  /** The entries of a JavaScript object: no key occurs twice. */
  predicate DistinctKeys(entries: seq<(string, Text)>) {
    forall i, j :: 0 <= i < j < |entries| ==> entries[i].0 != entries[j].0
  }

  /** `updateSettings(obj)`: upsert each entry of the object in order, in
      one transaction. Every given key ends with its new value and the
      default type; every other key is untouched. */
  function UpdateSettings(s: Store, entries: seq<(string, Text)>): (r: Store)
    requires DistinctKeys(entries)
    ensures r.Keys == s.Keys + KeysOf(entries)
    ensures forall i :: 0 <= i < |entries| ==> r[entries[i].0] == Row(entries[i].1, DefaultKind)
    ensures forall k :: k in s && k !in KeysOf(entries) ==> r[k] == s[k]
    decreases |entries|
  {
    if |entries| == 0 then s
    else
      var rest := entries[1..];
      assert DistinctKeys(rest) by {
        forall i, j | 0 <= i < j < |rest| ensures rest[i].0 != rest[j].0 {
          assert rest[i] == entries[i + 1] && rest[j] == entries[j + 1];
        }
      }
      assert KeysOf(entries) == {entries[0].0} + KeysOf(rest) by {
        forall k | k in KeysOf(entries) ensures k in {entries[0].0} + KeysOf(rest) {
          var i :| 0 <= i < |entries| && entries[i].0 == k;
          if i > 0 {
            assert rest[i - 1] == entries[i];
          }
        }
        forall k | k in KeysOf(rest) ensures k in KeysOf(entries) {
          var i :| 0 <= i < |rest| && rest[i].0 == k;
          assert entries[i + 1] == rest[i];
        }
      }
      assert entries[0].0 !in KeysOf(rest) by {
        forall i | 0 <= i < |rest| ensures rest[i].0 != entries[0].0 {
          assert rest[i] == entries[i + 1];
        }
      }
      var r := UpdateSettings(Upsert(s, entries[0].0, entries[0].1), rest);
      assert forall i :: 1 <= i < |entries| ==> r[entries[i].0] == Row(entries[i].1, DefaultKind) by {
        forall i | 1 <= i < |entries| ensures r[entries[i].0] == Row(entries[i].1, DefaultKind) {
          assert rest[i - 1] == entries[i];
        }
      }
      r
  }

  /** Reading after `updateSettings` gives the value just written. */
  lemma ReadAfterUpdateSettings(s: Store, entries: seq<(string, Text)>, i: nat)
    requires DistinctKeys(entries) && i < |entries|
    ensures GetSetting(UpdateSettings(s, entries), entries[i].0) == entries[i].1
  {
  }

  /** The whole-map read after `updateSettings` shows every written value
      and every other key as it was. */
  lemma GetSettingsAfterUpdate(s: Store, entries: seq<(string, Text)>)
    requires DistinctKeys(entries)
    ensures GetSettings(UpdateSettings(s, entries)).Keys == s.Keys + KeysOf(entries)
    ensures forall i :: 0 <= i < |entries| ==> GetSettings(UpdateSettings(s, entries))[entries[i].0] == entries[i].1
    ensures forall k :: k in s && k !in KeysOf(entries) ==> GetSettings(UpdateSettings(s, entries))[k] == s[k].value
  {
  }

  /** Writing the same entries twice is the same as writing them once. */
  lemma UpdateSettingsIdempotent(s: Store, entries: seq<(string, Text)>)
    requires DistinctKeys(entries)
    ensures UpdateSettings(UpdateSettings(s, entries), entries) == UpdateSettings(s, entries)
  {
    var once := UpdateSettings(s, entries);
    var twice := UpdateSettings(once, entries);
    assert forall k :: k in twice ==> twice[k] == once[k] by {
      forall k | k in twice ensures twice[k] == once[k] {
        if k in KeysOf(entries) {
          var i :| 0 <= i < |entries| && entries[i].0 == k;
        }
      }
    }
  }

  /** `updateSettings` on a key that had another type resets it to `text`,
      unlike `updateSetting`. */
  lemma UpdateSettingsResetsKind(s: Store, key: string, value: Text)
    requires key in s
    ensures UpdateSettings(s, [(key, value)])[key].kind == DefaultKind
    ensures UpdateSetting(s, key, value)[key].kind == s[key].kind
  {
    assert [(key, value)][0].0 == key;
  }
}
