/**
 * What the store's SQL does on one table: primary-key lookup (`WHERE id = ?`),
 * owner filtering (`WHERE job_id = ?`) and `ORDER BY created_at DESC`.
 * A table is the sequence of its rows in insertion order; the column a query
 * looks at is passed as a function from a row to that column.
 */
module Rows {
  import opened Wrappers

  /** A row identity (a UUID in the source). */
  type Uuid = nat

  /** A point in time; ordering is the chronological order of the stored ISO-8601 text. */
  type Timestamp = int

  /** The primary keys present in a table. */
  function Keys<T>(rows: seq<T>, key: T -> Uuid): set<Uuid> {
    set i | 0 <= i < |rows| :: key(rows[i])
  }

  /** The PRIMARY KEY constraint: no two rows share a key. */
  predicate UniqueKeys<T>(rows: seq<T>, key: T -> Uuid) {
    forall i, j :: 0 <= i < j < |rows| ==> key(rows[i]) != key(rows[j])
  }

  /** Appending one row and then another is appending both. */
  lemma AppendTwo<T>(rows: seq<T>, x: T, y: T)
    ensures rows + [x] + [y] == rows + [x, y]
  {
  }

  lemma AppendThree<T>(rows: seq<T>, x: T, y: T, z: T)
    ensures rows + [x] + [y] + [z] == rows + [x, y, z]
  {
  }

  lemma AppendAssoc<T>(a: seq<T>, b: seq<T>, c: seq<T>)
    ensures a + b + c == a + (b + c)
  {
  }

  lemma KeysAppend<T>(rows: seq<T>, key: T -> Uuid, x: T)
    ensures Keys(rows + [x], key) == Keys(rows, key) + {key(x)}
  {
    var r := rows + [x];
    forall k | k in Keys(r, key) ensures k in Keys(rows, key) + {key(x)} {
      var i :| 0 <= i < |r| && key(r[i]) == k;
      if i < |rows| { assert r[i] == rows[i]; }
    }
    forall k | k in Keys(rows, key) + {key(x)} ensures k in Keys(r, key) {
      if k == key(x) {
        assert key(r[|rows|]) == k;
      } else {
        var i :| 0 <= i < |rows| && key(rows[i]) == k;
        assert key(r[i]) == k;
      }
    }
  }

  /** Appending a row with a fresh key keeps the keys unique. */
  lemma UniqueKeysAppend<T>(rows: seq<T>, key: T -> Uuid, x: T)
    requires UniqueKeys(rows, key) && key(x) !in Keys(rows, key)
    ensures UniqueKeys(rows + [x], key)
  {
    var r := rows + [x];
    forall i, j | 0 <= i < j < |r| ensures key(r[i]) != key(r[j]) {
      if j < |rows| {
        assert r[i] == rows[i] && r[j] == rows[j];
      } else {
        assert r[i] == rows[i] && key(rows[i]) in Keys(rows, key);
      }
    }
  }

  lemma KeysTail<T>(rows: seq<T>, key: T -> Uuid)
    requires |rows| > 0
    ensures Keys(rows, key) == {key(rows[0])} + Keys(rows[1..], key)
  {
    forall k | k in Keys(rows, key) ensures k in {key(rows[0])} + Keys(rows[1..], key) {
      var i :| 0 <= i < |rows| && key(rows[i]) == k;
      if i > 0 { assert rows[1..][i - 1] == rows[i]; }
    }
    forall k | k in Keys(rows[1..], key) ensures k in Keys(rows, key) {
      var i :| 0 <= i < |rows[1..]| && key(rows[1..][i]) == k;
      assert rows[i + 1] == rows[1..][i];
    }
  }

  /** `SELECT ... WHERE id = ?` then `fetchone()`: the first row with that key. */
  function Find<T>(rows: seq<T>, key: T -> Uuid, id: Uuid): (r: Option<T>)
    ensures r.Some? <==> id in Keys(rows, key)
    ensures r.Some? ==> r.value in rows && key(r.value) == id
  {
    if rows == [] then None
    else if key(rows[0]) == id then Some(rows[0])
    else
      KeysTail(rows, key);
      Find(rows[1..], key, id)
  }

  /** With unique keys, the row found is the only row with that key. */
  lemma FindUnique<T>(rows: seq<T>, key: T -> Uuid, x: T)
    requires UniqueKeys(rows, key) && x in rows
    ensures Find(rows, key, key(x)) == Some(x)
  {
    var i :| 0 <= i < |rows| && rows[i] == x;
    var y := Find(rows, key, key(x)).value;
    var j :| 0 <= j < |rows| && rows[j] == y;
    assert key(rows[i]) == key(rows[j]);
  }

  /** A lookup after an append: the new row for its own key, the old answer for every other key. */
  lemma {:induction false} FindAppend<T>(rows: seq<T>, key: T -> Uuid, x: T, id: Uuid)
    requires key(x) !in Keys(rows, key)
    ensures Find(rows + [x], key, id) == if id == key(x) then Some(x) else Find(rows, key, id)
  {
    if rows == [] {
      assert [x][1..] == [];
    } else {
      assert (rows + [x])[0] == rows[0];
      assert (rows + [x])[1..] == rows[1..] + [x];
      if key(rows[0]) != id {
        KeysTail(rows, key);
        FindAppend(rows[1..], key, x, id);
      } else {
        assert key(rows[0]) in Keys(rows, key);
      }
    }
  }

  /** `WHERE <owner column> = ?`: the rows owned by `id`, in table order. */
  function Where<T(!new)>(rows: seq<T>, owner: T -> Uuid, id: Uuid): (r: seq<T>)
    ensures |r| <= |rows|
    ensures forall x :: x in r <==> x in rows && owner(x) == id
    ensures forall x :: multiset(r)[x] == if owner(x) == id then multiset(rows)[x] else 0
  {
    if rows == [] then []
    else
      var rest := Where(rows[1..], owner, id);
      assert forall x :: x in rows <==> x == rows[0] || x in rows[1..];
      assert rows == [rows[0]] + rows[1..];
      if owner(rows[0]) == id then [rows[0]] + rest else rest
  }

  lemma {:induction false} WhereAppend<T(!new)>(rows: seq<T>, owner: T -> Uuid, id: Uuid, x: T)
    ensures Where(rows + [x], owner, id) == Where(rows, owner, id) + (if owner(x) == id then [x] else [])
  {
    if rows == [] {
      assert [x][1..] == [];
    } else {
      assert (rows + [x])[0] == rows[0];
      assert (rows + [x])[1..] == rows[1..] + [x];
      WhereAppend(rows[1..], owner, id, x);
      var tail := if owner(x) == id then [x] else [];
      if owner(rows[0]) == id {
        AppendAssoc([rows[0]], Where(rows[1..], owner, id), tail);
      }
    }
  }

  /** Newest first: creation times never increase along the sequence. */
  predicate NewestFirstOrder<T>(rows: seq<T>, at: T -> Timestamp) {
    forall i, j :: 0 <= i < j < |rows| ==> at(rows[i]) >= at(rows[j])
  }

  /** A row no older than the head of a newest-first sequence may go in front of it. */
  lemma ConsNewestFirst<T>(y: T, rows: seq<T>, at: T -> Timestamp)
    requires NewestFirstOrder(rows, at) && (rows == [] || at(rows[0]) <= at(y))
    ensures NewestFirstOrder([y] + rows, at)
  {
    var r := [y] + rows;
    forall i, j | 0 <= i < j < |r| ensures at(r[i]) >= at(r[j]) {
      if i == 0 {
        assert r[j] == rows[j - 1];
      } else {
        assert r[i] == rows[i - 1] && r[j] == rows[j - 1];
      }
    }
  }

  /**
   * Places `x` into a newest-first sequence, ahead of every row that is not
   * newer than it.
   */
  function InsertNewestFirst<T>(x: T, rows: seq<T>, at: T -> Timestamp): (r: seq<T>)
    requires NewestFirstOrder(rows, at)
    ensures NewestFirstOrder(r, at)
    ensures multiset(r) == multiset(rows) + multiset{x}
    ensures r[0] == x || (rows != [] && r[0] == rows[0])
  {
    if rows == [] || at(rows[0]) <= at(x) then
      ConsNewestFirst(x, rows, at);
      [x] + rows
    else
      var rest := InsertNewestFirst(x, rows[1..], at);
      assert rows == [rows[0]] + rows[1..];
      ConsNewestFirst(rows[0], rest, at);
      [rows[0]] + rest
  }

  /** `ORDER BY created_at DESC`: the same rows, newest first (ties keep table order). */
  function NewestFirst<T>(rows: seq<T>, at: T -> Timestamp): (r: seq<T>)
    ensures NewestFirstOrder(r, at)
    ensures multiset(r) == multiset(rows)
  {
    if rows == [] then []
    else
      assert rows == [rows[0]] + rows[1..];
      InsertNewestFirst(rows[0], NewestFirst(rows[1..], at), at)
  }

  /** A one-row selection comes back as that row. */
  lemma NewestFirstSingle<T>(x: T, at: T -> Timestamp)
    ensures NewestFirst([x], at) == [x]
  {
    assert [x][1..] == [];
  }

  /** No owned row: the listing is empty. */
  lemma NewestFirstWhereNone<T(!new)>(rows: seq<T>, owner: T -> Uuid, at: T -> Timestamp, id: Uuid)
    requires forall x :: x in rows ==> owner(x) != id
    ensures NewestFirst(Where(rows, owner, id), at) == []
  {
  }

  /** Appending a row adds it to its owner's listing and to no other. */
  lemma ListingAppend<T(!new)>(rows: seq<T>, owner: T -> Uuid, at: T -> Timestamp, id: Uuid, x: T)
    ensures multiset(NewestFirst(Where(rows + [x], owner, id), at)) ==
      multiset(NewestFirst(Where(rows, owner, id), at)) + if owner(x) == id then multiset{x} else multiset{}
    ensures owner(x) != id ==> NewestFirst(Where(rows + [x], owner, id), at) == NewestFirst(Where(rows, owner, id), at)
  {
    WhereAppend(rows, owner, id, x);
    assert Where(rows, owner, id) + [] == Where(rows, owner, id);
  }

  /** Filtering then ordering keeps exactly the owned rows. */
  lemma {:induction false} OwnedNewestFirst<T(!new)>(rows: seq<T>, owner: T -> Uuid, at: T -> Timestamp, id: Uuid)
    ensures forall x :: x in NewestFirst(Where(rows, owner, id), at) <==> x in rows && owner(x) == id
  {
    var w := Where(rows, owner, id);
    forall x ensures x in NewestFirst(w, at) <==> x in w {
      assert x in NewestFirst(w, at) <==> x in multiset(NewestFirst(w, at));
      assert x in w <==> x in multiset(w);
    }
  }
}
