/** Effective-dated tables: rows are never deleted, ending one sets its status and end
    time in place, and a partial unique index keeps at most one open row per key. */
module Tables {
  import opened Basics

  datatype Row<K, V> = Row(key: K, val: V, active: bool, since: int, until: Option<int>)

  type Table<K, V> = seq<Row<K, V>>

  /** The row counts at time `now`. */
  predicate Effective<K, V>(r: Row<K, V>, now: int) {
    r.active && r.since <= now && (r.until.None? || r.until.value > now)
  }

  /** The row is the current, unended one. */
  predicate Open<K, V>(r: Row<K, V>) {
    r.active && r.until.None?
  }

  /** The partial unique index: one open row per key. */
  ghost predicate UniqueOpen<K, V>(t: Table<K, V>) {
    forall i, j | 0 <= i < j < |t| :: Open(t[i]) && Open(t[j]) ==> t[i].key != t[j].key
  }

  ghost predicate OpenAt<K, V>(t: Table<K, V>, k: K, i: nat) {
    i < |t| && Open(t[i]) && t[i].key == k
  }

  /** The position of the open row of a key. */
  function Find<K(==), V>(t: Table<K, V>, k: K): (r: Option<nat>)
    ensures r.Some? ==> OpenAt(t, k, r.value)
    ensures r.None? ==> forall i :: !OpenAt(t, k, i)
  {
    if t == [] then None
    else if Open(t[|t| - 1]) && t[|t| - 1].key == k then Some(|t| - 1)
    else
      var r := Find(t[..|t| - 1], k);
      assert forall i :: OpenAt(t, k, i) <==> OpenAt(t[..|t| - 1], k, i);
      r
  }

  /** The current value of a key. */
  function Value<K(==), V>(t: Table<K, V>, k: K): Option<V> {
    var i := Find(t, k);
    if i.None? then None else Some(t[i.value].val)
  }

  function End<K, V>(t: Table<K, V>, i: nat, now: int): Table<K, V>
    requires i < |t|
  {
    t[i := t[i].(active := false, until := Some(now))]
  }

  function Insert<K, V>(t: Table<K, V>, k: K, v: V, now: int): Table<K, V> {
    t + [Row(k, v, true, now, None)]
  }

  lemma {:induction false} FindIs<K, V>(t: Table<K, V>, k: K, i: nat)
    requires UniqueOpen(t) && OpenAt(t, k, i)
    ensures Find(t, k) == Some(i)
  {
    var j := Find(t, k).value;
    assert OpenAt(t, k, j);
  }

  /** Ending the open row of a key clears that key and no other. */
  lemma {:induction false} EndClears<K(!new), V>(t: Table<K, V>, i: nat, now: int)
    requires UniqueOpen(t) && i < |t| && Open(t[i])
    ensures UniqueOpen(End(t, i, now))
    ensures forall k :: Value(End(t, i, now), k) == if k == t[i].key then None else Value(t, k)
  {
    var t' := End(t, i, now);
    forall k ensures Value(t', k) == if k == t[i].key then None else Value(t, k) {
      assert forall j :: OpenAt(t', k, j) <==> OpenAt(t, k, j) && j != i;
      assert OpenAt(t, t[i].key, i);
      if Find(t', k).Some? {
        FindIs(t, k, Find(t', k).value);
      } else if Find(t, k).Some? {
        assert !OpenAt(t', k, Find(t, k).value);
      }
    }
  }

  /** Inserting a row for a key with no open row sets that key and no other. */
  lemma {:induction false} InsertSets<K(!new), V>(t: Table<K, V>, k: K, v: V, now: int)
    requires UniqueOpen(t) && Find(t, k).None?
    ensures UniqueOpen(Insert(t, k, v, now))
    ensures forall k' :: Value(Insert(t, k, v, now), k') == if k' == k then Some(v) else Value(t, k')
    ensures OpenAt(Insert(t, k, v, now), k, |t|)
  {
    var t' := Insert(t, k, v, now);
    assert forall i | 0 <= i < |t| :: OpenAt(t, t[i].key, i) <==> Open(t[i]);
    assert forall k', j :: OpenAt(t', k', j) <==> OpenAt(t, k', j) || (j == |t| && k' == k);
    assert UniqueOpen(t');
    forall k' ensures Value(t', k') == if k' == k then Some(v) else Value(t, k') {
      assert Find(t, k').Some? ==> OpenAt(t', k', Find(t, k').value);
      if Find(t', k').Some? && k' != k {
        FindIs(t, k', Find(t', k').value);
      }
    }
  }
}
