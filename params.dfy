/**
 * Ordered key/value lists: the entries of a `URLSearchParams` and the own
 * properties of a plain object, both of which keep insertion order.
 */
module Params {
  import opened Wrappers
  import Seqs

  datatype Entry = Entry(key: string, value: string)

  predicate HasKey(es: seq<Entry>, key: string) {
    exists i :: 0 <= i < |es| && es[i].key == key
  }

  /** `params.get(key)` / `obj[key]`: the first entry with that key. */
  function Lookup(es: seq<Entry>, key: string): (r: Option<string>)
    ensures r.None? <==> !HasKey(es, key)
    ensures r.Some? ==> exists i :: 0 <= i < |es| && es[i] == Entry(key, r.value)
    decreases |es|
  {
    if |es| == 0 then None
    else if es[0].key == key then Some(es[0].value)
    else
      var r := Lookup(es[1..], key);
      if r.Some? then
        assert exists i :: 0 <= i < |es| && es[i] == Entry(key, r.value) by {
          var j :| 0 <= j < |es[1..]| && es[1..][j] == Entry(key, r.value);
          assert es[j + 1] == Entry(key, r.value);
        }
        r
      else r
  }

  /** Looking up in a list with a known first entry. */
  lemma LookupCons(e: Entry, rest: seq<Entry>, key: string)
    ensures Lookup([e] + rest, key) == if e.key == key then Some(e.value) else Lookup(rest, key)
  {
    assert ([e] + rest)[1..] == rest;
  }

  function KeyOtherThan(key: string): Entry -> bool {
    (e: Entry) => e.key != key
  }

  /** `params.delete(key)`: every entry with that key goes. */
  function Deleted(es: seq<Entry>, key: string): (r: seq<Entry>)
    ensures !HasKey(r, key)
  {
    var r := Seqs.Filter(es, KeyOtherThan(key));
    Seqs.FilterAllKept(es, KeyOtherThan(key));
    r
  }

  /**
   * `params.set(key, value)`: the first entry with that key takes the value and
   * the later ones go; without one, the entry is appended.
   */
  function Setting(es: seq<Entry>, key: string, value: string): seq<Entry>
    decreases |es|
  {
    if |es| == 0 then [Entry(key, value)]
    else if es[0].key == key then [Entry(key, value)] + Deleted(es[1..], key)
    else [es[0]] + Setting(es[1..], key, value)
  }

  /** `obj[key] = value` on a plain object: the property keeps its place, or is added last. */
  function Assigned(es: seq<Entry>, key: string, value: string): seq<Entry>
    decreases |es|
  {
    if |es| == 0 then [Entry(key, value)]
    else if es[0].key == key then [Entry(key, value)] + es[1..]
    else [es[0]] + Assigned(es[1..], key, value)
  }

  /** The keys of a list, in order. */
  function Keys(es: seq<Entry>): seq<string>
    decreases |es|
  {
    if |es| == 0 then [] else [es[0].key] + Keys(es[1..])
  }

  /** After `delete`, the key is gone and every other key reads as before. */
  lemma {:induction false} LookupDeleted(es: seq<Entry>, key: string, other: string)
    ensures Lookup(Deleted(es, key), key) == None
    ensures other != key ==> Lookup(Deleted(es, key), other) == Lookup(es, other)
    decreases |es|
  {
    if |es| > 0 {
      LookupDeleted(es[1..], key, other);
      if es[0].key == key {
        assert Deleted(es, key) == Deleted(es[1..], key);
      } else {
        assert Deleted(es, key) == [es[0]] + Deleted(es[1..], key);
        assert ([es[0]] + Deleted(es[1..], key))[1..] == Deleted(es[1..], key);
      }
    }
  }

  /** After `set`, the key reads as the new value and every other key reads as before. */
  lemma {:induction false} LookupSetting(es: seq<Entry>, key: string, value: string, other: string)
    ensures Lookup(Setting(es, key, value), key) == Some(value)
    ensures other != key ==> Lookup(Setting(es, key, value), other) == Lookup(es, other)
    decreases |es|
  {
    if |es| > 0 {
      if es[0].key == key {
        LookupDeleted(es[1..], key, other);
        assert ([Entry(key, value)] + Deleted(es[1..], key))[1..] == Deleted(es[1..], key);
      } else {
        LookupSetting(es[1..], key, value, other);
        assert ([es[0]] + Setting(es[1..], key, value))[1..] == Setting(es[1..], key, value);
      }
    }
  }

  /** Setting a key the list does not have appends it. */
  lemma {:induction false} SettingFresh(es: seq<Entry>, key: string, value: string)
    requires !HasKey(es, key)
    ensures Setting(es, key, value) == es + [Entry(key, value)]
    decreases |es|
  {
    if |es| > 0 {
      assert !HasKey(es[1..], key) by {
        forall i | 0 <= i < |es[1..]| ensures es[1..][i].key != key {
          assert es[1..][i] == es[i + 1];
        }
      }
      SettingFresh(es[1..], key, value);
      assert es == [es[0]] + es[1..];
    }
  }

  /** After `set`, the key occurs exactly once. */
  lemma {:induction false} SettingLeavesOne(es: seq<Entry>, key: string, value: string)
    ensures |Seqs.Filter(Setting(es, key, value), KeyOtherThan(key))| + 1 == |Setting(es, key, value)|
    decreases |es|
  {
    var r := Setting(es, key, value);
    if |es| == 0 {
      assert r[1..] == [];
    } else if es[0].key == key {
      var d := Deleted(es[1..], key);
      assert r[1..] == d;
      Seqs.FilterAll(d, KeyOtherThan(key)) by {
        forall i | 0 <= i < |d| ensures KeyOtherThan(key)(d[i]) {
          assert d[i].key != key by { assert !HasKey(d, key); }
        }
      }
    } else {
      SettingLeavesOne(es[1..], key, value);
      assert r[1..] == Setting(es[1..], key, value);
    }
  }

  /** Property assignment reads back the value and leaves the other properties alone. */
  lemma {:induction false} LookupAssigned(es: seq<Entry>, key: string, value: string, other: string)
    ensures Lookup(Assigned(es, key, value), key) == Some(value)
    ensures other != key ==> Lookup(Assigned(es, key, value), other) == Lookup(es, other)
    decreases |es|
  {
    if |es| > 0 {
      var r := Assigned(es, key, value);
      if es[0].key == key {
        assert r[1..] == es[1..];
      } else {
        LookupAssigned(es[1..], key, value, other);
        assert r[1..] == Assigned(es[1..], key, value);
      }
    }
  }

  /** The property list after `obj[key] = value`: unchanged if present, the key last otherwise. */
  lemma {:induction false} KeysAssigned(es: seq<Entry>, key: string, value: string)
    ensures HasKey(es, key) ==> Keys(Assigned(es, key, value)) == Keys(es)
    ensures !HasKey(es, key) ==> Keys(Assigned(es, key, value)) == Keys(es) + [key]
    decreases |es|
  {
    if |es| == 0 {
      assert Keys([Entry(key, value)]) == [key];
    } else if es[0].key != key {
      KeysAssigned(es[1..], key, value);
      HasKeyTail(es, key);
      assert Assigned(es, key, value)[1..] == Assigned(es[1..], key, value);
    }
  }

  /** Past a first entry with another key, the key is found in the rest or nowhere. */
  lemma HasKeyTail(es: seq<Entry>, key: string)
    requires |es| > 0 && es[0].key != key
    ensures HasKey(es, key) <==> HasKey(es[1..], key)
  {
    if HasKey(es, key) {
      var i :| 0 <= i < |es| && es[i].key == key;
      assert es[1..][i - 1] == es[i];
    }
    if HasKey(es[1..], key) {
      var i :| 0 <= i < |es[1..]| && es[1..][i].key == key;
      assert es[i + 1] == es[1..][i];
    }
  }

  /** `{ ...o, ...x }`: the properties of `x` assigned onto `o` one after another. */
  function Spread(o: seq<Entry>, x: seq<Entry>): seq<Entry>
    decreases |x|
  {
    if |x| == 0 then o else Spread(Assigned(o, x[0].key, x[0].value), x[1..])
  }

  /** The value the last entry of `x` with that key carries. */
  function LastLookup(x: seq<Entry>, key: string): (r: Option<string>)
    ensures r.None? <==> !HasKey(x, key)
    decreases |x|
  {
    if |x| == 0 then None
    else match LastLookup(x[1..], key)
      case Some(v) => Some(v)
      case None =>
        assert !HasKey(x[1..], key);
        forall i | 0 < i < |x| ensures x[i].key != key {
          assert x[1..][i - 1] == x[i];
        }
        if x[0].key == key then Some(x[0].value) else None
  }

  /** After a spread, a key reads as the spread object's value for it if it has one, else as before. */
  lemma {:induction false} LookupSpread(o: seq<Entry>, x: seq<Entry>, key: string)
    ensures Lookup(Spread(o, x), key) ==
      if HasKey(x, key) then LastLookup(x, key) else Lookup(o, key)
    decreases |x|
  {
    if |x| > 0 {
      var a := Assigned(o, x[0].key, x[0].value);
      LookupSpread(a, x[1..], key);
      LookupAssigned(o, x[0].key, x[0].value, key);
    }
  }

  /** A key occurs in a list exactly when it is among the list's keys. */
  lemma {:induction false} KeyIn(es: seq<Entry>, key: string)
    ensures HasKey(es, key) <==> key in Keys(es)
    decreases |es|
  {
    if |es| > 0 {
      KeyIn(es[1..], key);
      if HasKey(es, key) && es[0].key != key {
        var i :| 0 <= i < |es| && es[i].key == key;
        assert es[1..][i - 1].key == key;
      }
      if HasKey(es[1..], key) {
        var i :| 0 <= i < |es[1..]| && es[1..][i].key == key;
        assert es[i + 1].key == key;
      }
    }
  }

  /** The keys of a concatenation are the keys of its parts. */
  lemma {:induction false} KeysAppend(a: seq<Entry>, b: seq<Entry>)
    ensures Keys(a + b) == Keys(a) + Keys(b)
    decreases |a|
  {
    if |a| > 0 {
      assert (a + b)[1..] == a[1..] + b;
      KeysAppend(a[1..], b);
    } else {
      assert a + b == b;
    }
  }

  /** Entries before the first one with the key do not affect its lookup. */
  lemma {:induction false} LookupAfter(a: seq<Entry>, b: seq<Entry>, key: string)
    requires !HasKey(a, key)
    ensures Lookup(a + b, key) == Lookup(b, key)
    decreases |a|
  {
    if |a| > 0 {
      assert (a + b)[1..] == a[1..] + b;
      assert a[0].key != key;
      LookupAfter(a[1..], b, key);
    } else {
      assert a + b == b;
    }
  }

  /** Appending to a plain object a property it does not have adds it last. */
  lemma {:induction false} AssignedFresh(es: seq<Entry>, key: string, value: string)
    requires !HasKey(es, key)
    ensures Assigned(es, key, value) == es + [Entry(key, value)]
    decreases |es|
  {
    if |es| > 0 {
      assert es[0].key != key;
      AssignedFresh(es[1..], key, value);
      assert es == [es[0]] + es[1..];
    }
  }

  /** A `URLSearchParams` object, mutated in place by `set` and `delete`. */
  class SearchParams {
    var entries: seq<Entry>

    /** `new URLSearchParams(prev)`: a copy of the entries. */
    constructor (from: seq<Entry>)
      ensures entries == from
    {
      entries := from;
    }

    /** `get`. */
    function Get(key: string): Option<string>
      reads this
    {
      Lookup(entries, key)
    }

    /** `set`; what it does to each key is `LookupSetting`. */
    method Set(key: string, value: string)
      modifies this
      ensures entries == Setting(old(entries), key, value)
    {
      entries := Setting(entries, key, value);
    }

    /** `delete`; what it does to each key is `LookupDeleted`. */
    method Delete(key: string)
      modifies this
      ensures entries == Deleted(old(entries), key)
    {
      entries := Deleted(entries, key);
    }
  }
}
