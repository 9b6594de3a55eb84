/**
 Tables as sequences of rows in storage order, addressed through their primary key. The
 functions here are shared by the three tables; `key` picks a row's primary key.
 */
module Tables {
  import opened Wrappers
  import opened Records

  /** Some row of `t` has primary key `k`; an absent key matches nothing, as `= NULL` in SQL. */
  predicate Present<R>(t: seq<R>, key: R -> Key, k: Key)
  {
    k.Some? && exists i :: 0 <= i < |t| && key(t[i]) == k
  }

  /** The primary-key discipline of a stored table: every row has a key and no two rows share one. */
  predicate WellKeyed<R>(t: seq<R>, key: R -> Key)
  {
    (forall i :: 0 <= i < |t| ==> key(t[i]).Some?) &&
    (forall i, j :: 0 <= i < j < |t| ==> key(t[i]) != key(t[j]))
  }

  /** The first id that `SELECT id FROM t ORDER BY id DESC` returns: the largest present key, if any. */
  function LargestId<R>(t: seq<R>, key: R -> Key): (m: Option<int>)
    ensures m.None? <==> forall i :: 0 <= i < |t| ==> key(t[i]).None?
    ensures m.Some? ==> Present(t, key, m)
    ensures m.Some? ==> forall i :: 0 <= i < |t| && key(t[i]).Some? ==> key(t[i]).value <= m.value
    decreases |t|
  {
    if t == [] then None
    else
      var rest := LargestId(t[1..], key);
      assert forall i :: 1 <= i < |t| ==> key(t[i]) == key(t[1..][i - 1]);
      if key(t[0]).None? || (rest.Some? && rest.value > key(t[0]).value) then rest
      else key(t[0])
  }

  /** The id a new row receives: one more than the largest id, or 1 when the table has none. */
  function NextId<R>(t: seq<R>, key: R -> Key): (n: int)
    ensures !Present(t, key, Some(n))
    ensures forall i :: 0 <= i < |t| && key(t[i]).Some? ==> key(t[i]).value < n
    ensures (forall i :: 0 <= i < |t| ==> key(t[i]).None?) ==> n == 1
    ensures (exists i :: 0 <= i < |t| && key(t[i]).Some?) ==> Present(t, key, Some(n - 1))
  {
    match LargestId(t, key)
    case None => 1
    case Some(m) => m + 1
  }

  /** The first row whose primary key is `id`, as `SELECT * ... WHERE id = ?` followed by one fetch. */
  function Find<R>(t: seq<R>, key: R -> Key, id: int): (r: Option<R>)
    ensures r.Some? <==> Present(t, key, Some(id))
    ensures r.Some? ==> r.value in t && key(r.value) == Some(id)
    decreases |t|
  {
    if t == [] then None
    else if key(t[0]) == Some(id) then Some(t[0])
    else
      assert forall i :: 1 <= i < |t| ==> key(t[i]) == key(t[1..][i - 1]);
      Find(t[1..], key, id)
  }

  /** `UPDATE t SET ... WHERE id = key(row)`: every row with that key becomes `row`, the rest stay. */
  function Overwrite<R>(t: seq<R>, key: R -> Key, row: R): (u: seq<R>)
    ensures |u| == |t|
    ensures forall i :: 0 <= i < |t| ==> key(u[i]) == key(t[i])
    ensures forall i :: 0 <= i < |t| && key(t[i]) != key(row) ==> u[i] == t[i]
  {
    seq(|t|, i requires 0 <= i < |t| => if key(t[i]) == key(row) then row else t[i])
  }

  /** A row appended under a fresh key is the one a lookup of that key finds. */
  lemma {:induction false} FindAppended<R>(t: seq<R>, key: R -> Key, row: R, id: int)
    requires key(row) == Some(id) && !Present(t, key, Some(id))
    ensures Find(t + [row], key, id) == Some(row)
    decreases |t|
  {
    if t == [] {
    } else {
      assert (t + [row])[1..] == t[1..] + [row];
      assert key(t[0]) != Some(id);
      FindAppended(t[1..], key, row, id);
    }
  }

  /** After an overwrite of a row whose key was present exactly once, a lookup of that key finds the new row. */
  lemma {:induction false} FindOverwritten<R>(t: seq<R>, key: R -> Key, row: R, id: int)
    requires WellKeyed(t, key)
    requires key(row) == Some(id) && Present(t, key, Some(id))
    ensures Find(Overwrite(t, key, row), key, id) == Some(row)
  {
    var i :| 0 <= i < |t| && key(t[i]) == Some(id);
    var u := Overwrite(t, key, row);
    FindIsFirst(u, key, id, i);
  }

  /** When no row before index `i` has key `id` and row `i` has it, the lookup finds row `i`. */
  lemma {:induction false} FindIsFirst<R>(u: seq<R>, key: R -> Key, id: int, i: nat)
    requires i < |u| && key(u[i]) == Some(id)
    requires forall j :: 0 <= j < i ==> key(u[j]) != Some(id)
    ensures Find(u, key, id) == Some(u[i])
    decreases i
  {
    if i > 0 {
      FindIsFirst(u[1..], key, id, i - 1);
    }
  }

  /** Appending a row under the next id keeps the primary keys well formed. */
  lemma AppendKeepsWellKeyed<R>(t: seq<R>, key: R -> Key, row: R)
    requires WellKeyed(t, key)
    requires key(row) == Some(NextId(t, key))
    ensures WellKeyed(t + [row], key)
  {
    var u := t + [row];
    forall i, j | 0 <= i < j < |u| ensures key(u[i]) != key(u[j]) {
      if j == |t| {
        assert u[i] == t[i];
      }
    }
  }

  /** An overwrite keeps the set of keys, so it keeps every key lookup answerable. */
  lemma {:induction false} OverwriteKeepsPresent<R>(t: seq<R>, key: R -> Key, row: R, k: Key)
    ensures Present(Overwrite(t, key, row), key, k) <==> Present(t, key, k)
  {
    var u := Overwrite(t, key, row);
    if Present(t, key, k) {
      var i :| 0 <= i < |t| && key(t[i]) == k;
      assert key(u[i]) == k;
    }
    if Present(u, key, k) {
      var i :| 0 <= i < |u| && key(u[i]) == k;
      assert key(t[i]) == k;
    }
  }

  /** Appending a row only adds a key. */
  lemma {:induction false} AppendKeepsPresent<R>(t: seq<R>, key: R -> Key, row: R, k: Key)
    requires Present(t, key, k)
    ensures Present(t + [row], key, k)
  {
    var i :| 0 <= i < |t| && key(t[i]) == k;
    assert (t + [row])[i] == t[i];
  }
}
