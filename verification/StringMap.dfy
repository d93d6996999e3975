/** The string map: a sorted table of keys, and the enumerator that walks it by key. */
module StringMap {
  import opened Bytes

  datatype Entry<+V> = Entry(key: seq<byte>, value: V)

  type Table<+V> = seq<Entry<V>>

  /** Keys strictly increasing, as `std::map` keeps them. */
  ghost predicate Sorted<V>(t: Table<V>) {
    forall i, j :: 0 <= i < j < |t| ==> Less(t[i].key, t[j].key)
  }

  ghost predicate HasKey<V>(t: Table<V>, k: seq<byte>) {
    exists i :: 0 <= i < |t| && t[i].key == k
  }

  /** `strmap[k] = v`. */
  function Put<V>(t: Table<V>, k: seq<byte>, v: V): Table<V> {
    if t == [] || Less(k, t[0].key) then [Entry(k, v)] + t
    else if t[0].key == k then [Entry(k, v)] + t[1..]
    else [t[0]] + Put(t[1..], k, v)
  }

  /** The index of the first key greater than `k`: `upper_bound`. */
  function UpperBound<V>(t: Table<V>, k: seq<byte>): (n: nat)
    ensures n <= |t|
    ensures forall i :: 0 <= i < n ==> !Less(k, t[i].key)
    ensures n < |t| ==> Less(k, t[n].key)
  {
    if t == [] || Less(k, t[0].key) then 0 else 1 + UpperBound(t[1..], k)
  }

  // ---------------------------------------------------------------- the table

  lemma {:induction false} PutKeys<V>(t: Table<V>, k: seq<byte>, v: V, x: seq<byte>)
    ensures HasKey(Put(t, k, v), x) <==> x == k || HasKey(t, x)
  {
    var p := Put(t, k, v);
    if t == [] || Less(k, t[0].key) {
      assert p[0].key == k;
      if HasKey(t, x) {
        var i :| 0 <= i < |t| && t[i].key == x;
        assert p[i + 1].key == x;
      }
    } else if t[0].key == k {
      assert p[0].key == k;
      assert forall i :: 0 <= i < |t| ==> p[i].key == t[i].key;
    } else {
      PutKeys(t[1..], k, v, x);
      HasKeyCons(t, x);
      assert p[1..] == Put(t[1..], k, v);
      HasKeyCons(p, x);
    }
  }

  lemma HasKeyCons<V>(t: Table<V>, x: seq<byte>)
    requires t != []
    ensures HasKey(t, x) <==> t[0].key == x || HasKey(t[1..], x)
  {
    if HasKey(t, x) && t[0].key != x {
      var i :| 0 <= i < |t| && t[i].key == x;
      assert t[1..][i - 1].key == x;
    }
    if HasKey(t[1..], x) {
      var i :| 0 <= i < |t[1..]| && t[1..][i].key == x;
      assert t[i + 1].key == x;
    }
  }

  /** Setting a property keeps the table sorted. */
  lemma {:induction false} PutSorted<V>(t: Table<V>, k: seq<byte>, v: V)
    requires Sorted(t)
    ensures Sorted(Put(t, k, v))
  {
    var p := Put(t, k, v);
    if t == [] || Less(k, t[0].key) {
      forall i, j | 0 <= i < j < |p|
        ensures Less(p[i].key, p[j].key)
      {
        if i == 0 && j > 1 {
          LessTrans(k, t[0].key, t[j - 1].key);
        }
      }
    } else if t[0].key == k {
    } else {
      LessTotal(k, t[0].key);
      PutSorted(t[1..], k, v);
      var q := Put(t[1..], k, v);
      forall j | 0 <= j < |q|
        ensures Less(t[0].key, q[j].key)
      {
        PutKeys(t[1..], k, v, q[j].key);
        assert HasKey(q, q[j].key);
        if q[j].key != k {
          var i :| 0 <= i < |t[1..]| && t[1..][i].key == q[j].key;
          assert t[i + 1].key == q[j].key;
        }
      }
    }
  }

  /** A key beyond all the others goes to the end. */
  lemma {:induction false} PutLast<V>(t: Table<V>, k: seq<byte>, v: V)
    requires forall i :: 0 <= i < |t| ==> Less(t[i].key, k)
    ensures Put(t, k, v) == t + [Entry(k, v)]
  {
    if t != [] {
      if Less(k, t[0].key) {
        LessTrans(k, t[0].key, k);
        LessIrreflexive(k);
      }
      LessIrreflexive(k);
      PutLast(t[1..], k, v);
    }
  }

  /** Reading a property back: the last value set, for every key. */
  function Lookup<V>(t: Table<V>, k: seq<byte>, missing: V): V {
    if t == [] then missing else if t[0].key == k then t[0].value else Lookup(t[1..], k, missing)
  }

  lemma {:induction false} PutLookup<V>(t: Table<V>, k: seq<byte>, v: V, x: seq<byte>, missing: V)
    ensures Lookup(Put(t, k, v), x, missing) == if x == k then v else Lookup(t, x, missing)
  {
    var p := Put(t, k, v);
    if t == [] || Less(k, t[0].key) {
      assert p[1..] == t;
    } else if t[0].key == k {
      assert p[1..] == t[1..];
    } else {
      assert p[1..] == Put(t[1..], k, v);
      PutLookup(t[1..], k, v, x, missing);
    }
  }

  lemma {:induction false} LookupAt<V>(t: Table<V>, i: nat, missing: V)
    requires Sorted(t) && i < |t|
    ensures Lookup(t, t[i].key, missing) == t[i].value
  {
    if i > 0 {
      LessIrreflexive(t[i].key);
      LookupAt(t[1..], i - 1, missing);
    }
  }

  // ---------------------------------------------------------------- enumeration

  /** In a sorted table the successor of an entry's key is the next entry. */
  lemma UpperBoundNext<V>(t: Table<V>, i: nat)
    requires Sorted(t) && i < |t|
    ensures UpperBound(t, t[i].key) == i + 1
  {
    var n := UpperBound(t, t[i].key);
    if n < i {
      LessTrans(t[i].key, t[n].key, t[i].key);
      LessIrreflexive(t[i].key);
    }
    if n == i {
      LessIrreflexive(t[i].key);
    }
  }

  /** The keys one enumerator yields when its k-th call finds the table `ts[k]`; it stops at the first call
      that finds nothing. `cursor` is its `key` field. */
  function Enumerated<V>(ts: seq<Table<V>>, cursor: seq<byte>): seq<seq<byte>> {
    if ts == [] then []
    else
      var n := UpperBound(ts[0], cursor);
      if n == |ts[0]| then [] else [ts[0][n].key] + Enumerated(ts[1..], ts[0][n].key)
  }

  ghost predicate AllAfter(cursor: seq<byte>, ks: seq<seq<byte>>) {
    forall i :: 0 <= i < |ks| ==> Less(cursor, ks[i])
  }

  ghost predicate Increasing(ks: seq<seq<byte>>) {
    forall i, j :: 0 <= i < j < |ks| ==> Less(ks[i], ks[j])
  }

  /** Whatever happens to the table between calls, the keys yielded strictly increase. */
  lemma {:induction false} EnumeratedIncreases<V>(ts: seq<Table<V>>, cursor: seq<byte>)
    ensures AllAfter(cursor, Enumerated(ts, cursor)) && Increasing(Enumerated(ts, cursor))
  {
    if ts != [] && UpperBound(ts[0], cursor) < |ts[0]| {
      var k := ts[0][UpperBound(ts[0], cursor)].key;
      var rest := Enumerated(ts[1..], k);
      EnumeratedIncreases(ts[1..], k);
      forall i | 0 <= i < |rest|
        ensures Less(cursor, rest[i])
      {
        LessTrans(cursor, k, rest[i]);
      }
      assert Enumerated(ts, cursor) == [k] + rest;
    }
  }

  /** A key that is present at every call, and beyond the cursor, is yielded before the end is reported. */
  lemma {:induction false} EnumeratedComplete<V>(ts: seq<Table<V>>, cursor: seq<byte>, x: seq<byte>)
    requires forall i :: 0 <= i < |ts| ==> Sorted(ts[i]) && HasKey(ts[i], x)
    requires Less(cursor, x)
    requires |Enumerated(ts, cursor)| < |ts|
    ensures x in Enumerated(ts, cursor)
  {
    var n := UpperBound(ts[0], cursor);
    var m :| 0 <= m < |ts[0]| && ts[0][m].key == x;
    assert n <= m;
    var k := ts[0][n].key;
    if k != x {
      assert forall i :: 0 <= i < |ts[1..]| ==> Sorted(ts[1..][i]) && HasKey(ts[1..][i], x);
      EnumeratedComplete(ts[1..], k, x);
    }
  }

  /** The keys of a table from position `i` on. */
  function KeysFrom<V>(t: Table<V>, i: nat): seq<seq<byte>>
    requires i <= |t|
    decreases |t| - i
  {
    if i == |t| then [] else [t[i].key] + KeysFrom(t, i + 1)
  }

  lemma {:induction false} EnumeratedUnchanged<V>(t: Table<V>, cursor: seq<byte>, i: nat)
    requires Sorted(t) && i <= |t| && UpperBound(t, cursor) == i
    ensures Enumerated(seq(|t| - i + 1, _ => t), cursor) == KeysFrom(t, i)
    decreases |t| - i
  {
    var ts := seq(|t| - i + 1, _ => t);
    if i < |t| {
      UpperBoundNext(t, i);
      assert ts[1..] == seq(|t| - (i + 1) + 1, _ => t);
      EnumeratedUnchanged(t, t[i].key, i + 1);
    }
  }

  /** Where a new enumerator starts: at the first key that is not empty. */
  lemma FirstKey<V>(t: Table<V>)
    requires Sorted(t)
    ensures UpperBound(t, []) == if t != [] && t[0].key == [] then 1 else 0
  {
    if t != [] && t[0].key == [] {
      UpperBoundNext(t, 0);
    }
  }

  /** On an unchanged table a new enumerator yields exactly the non-empty keys, in order, and then ends. */
  lemma EnumeratesAll<V>(t: Table<V>)
    requires Sorted(t)
    ensures var skip := if t != [] && t[0].key == [] then 1 else 0;
      && Enumerated(seq(|t| - skip + 1, _ => t), []) == KeysFrom(t, skip)
      && (forall i :: skip <= i < |t| ==> t[i].key != [])
  {
    var skip := if t != [] && t[0].key == [] then 1 else 0;
    FirstKey(t);
    EnumeratedUnchanged(t, [], skip);
    LaterKeysNotEmpty(t, skip);
  }

  lemma LaterKeysNotEmpty<V>(t: Table<V>, skip: nat)
    requires Sorted(t) && skip == if t != [] && t[0].key == [] then 1 else 0
    ensures forall i :: skip <= i < |t| ==> t[i].key != []
  {
  }

  // ---------------------------------------------------------------- the objects

  class StrMap<V> {
    var table: Table<V>

    constructor ()
      ensures table == []
    {
      table := [];
    }

    /** `set_property`. */
    method SetProperty(k: seq<byte>, v: V)
      requires Sorted(table)
      modifies this
      ensures table == Put(old(table), k, v) && Sorted(table)
    {
      PutSorted(table, k, v);
      table := Put(table, k, v);
    }

    /** `get_property`; a missing key reads as void. */
    method GetProperty(k: seq<byte>, missing: V) returns (v: V)
      ensures v == Lookup(table, k, missing)
    {
      v := Lookup(table, k, missing);
    }
  }

  class Enumerator<V> {
    const mapval: StrMap<V>
    var key: seq<byte>

    constructor (m: StrMap<V>)
      ensures mapval == m && key == []
    {
      mapval := m;
      key := [];
    }

    /** `enum_next`: the least key after the previous one, in the table as it is now. */
    method EnumNext() returns (hasNext: bool, k: seq<byte>)
      requires Sorted(mapval.table)
      modifies this
      ensures mapval.table == old(mapval.table)
      ensures !hasNext ==> k == [] && key == old(key)
      ensures !hasNext <==> forall x :: HasKey(mapval.table, x) ==> !Less(old(key), x)
      ensures hasNext ==> k == key && HasKey(mapval.table, k) && Less(old(key), k)
      ensures hasNext ==> forall x :: HasKey(mapval.table, x) && Less(old(key), x) ==> x == k || Less(k, x)
    {
      var n := UpperBound(mapval.table, key);
      if n == |mapval.table| {
        return false, [];
      }
      assert HasKey(mapval.table, mapval.table[n].key);
      key := mapval.table[n].key;
      return true, key;
    }
  }
}
