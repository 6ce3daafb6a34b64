/**
 * `cursor.executemany("INSERT OR IGNORE INTO ...", rows)` on a connection
 * with foreign keys switched on.  Rows go in one at a time: a row whose
 * primary key is already in the table (stored before, or earlier in the same
 * batch) is skipped, and a new row whose foreign key names no parent row makes
 * the statement raise, because OR IGNORE does not apply to foreign keys.
 * The table is a map from primary key to row; `key` gives a row's primary key
 * and `parent` its foreign-key column, which must be in `parents` unless NULL.
 */
module Upsert {
  import opened Wrappers

  /** The row's foreign key is NULL or names an existing parent row. */
  predicate ParentOk<V>(row: V, parent: V -> Option<string>, parents: set<string>) {
    parent(row).None? || parent(row).value in parents
  }

  /** The primary keys of a batch of rows. */
  function KeysOf<V>(rows: seq<V>, key: V -> string): set<string> {
    set i | 0 <= i < |rows| :: key(rows[i])
  }

  lemma KeysOfCons<V>(rows: seq<V>, key: V -> string)
    requires rows != []
    ensures KeysOf(rows, key) == {key(rows[0])} + KeysOf(rows[1..], key)
  {
    forall k | k in KeysOf(rows, key)
      ensures k in {key(rows[0])} + KeysOf(rows[1..], key)
    {
      var i :| 0 <= i < |rows| && key(rows[i]) == k;
      if i > 0 {
        assert key(rows[1..][i - 1]) == k;
      }
    }
    forall k | k in KeysOf(rows[1..], key)
      ensures k in KeysOf(rows, key)
    {
      var i :| 0 <= i < |rows[1..]| && key(rows[1..][i]) == k;
      assert key(rows[i + 1]) == k;
    }
  }

  /** Row `i` carries a key that neither the table nor an earlier row of the batch has: it is the one that gets inserted. */
  ghost predicate NewAt<V>(m: map<string, V>, rows: seq<V>, key: V -> string, i: int)
    requires 0 <= i < |rows|
  {
    key(rows[i]) !in m && forall j :: 0 <= j < i ==> key(rows[j]) != key(rows[i])
  }

  /**
   * The table after the batch, or None when the statement raised.  On
   * success the table gains exactly the batch's keys and keeps every row it
   * had.
   */
  function InsertOrIgnore<V>(m: map<string, V>, rows: seq<V>, key: V -> string,
                             parent: V -> Option<string>, parents: set<string>): (r: Option<map<string, V>>)
    ensures r.Some? ==> r.value.Keys == m.Keys + KeysOf(rows, key)
    ensures r.Some? ==> forall k :: k in m ==> r.value[k] == m[k]
    decreases |rows|
  {
    if rows == [] then Some(m)
    else
      KeysOfCons(rows, key);
      var k := key(rows[0]);
      if k in m then InsertOrIgnore(m, rows[1..], key, parent, parents)
      else if !ParentOk(rows[0], parent, parents) then None
      else InsertOrIgnore(m[k := rows[0]], rows[1..], key, parent, parents)
  }

  /** The statement raises exactly when some row that would be inserted references a missing parent. */
  lemma {:induction false} InsertOrIgnoreFailsIff<V>(m: map<string, V>, rows: seq<V>, key: V -> string,
                                                   parent: V -> Option<string>, parents: set<string>)
    ensures InsertOrIgnore(m, rows, key, parent, parents).None?
        <==> exists i :: 0 <= i < |rows| && NewAt(m, rows, key, i) && !ParentOk(rows[i], parent, parents)
    decreases |rows|
  {
    if rows != [] {
      var k := key(rows[0]);
      var tail := rows[1..];
      if k in m || ParentOk(rows[0], parent, parents) {
        var m' := if k in m then m else m[k := rows[0]];
        InsertOrIgnoreFailsIff(m', tail, key, parent, parents);
        // Row i + 1 of the batch is new against m exactly when row i of the tail is new against m'.
        forall i | 0 <= i < |tail|
          ensures NewAt(m, rows, key, i + 1) <==> NewAt(m', tail, key, i)
        {
          assert tail[i] == rows[i + 1];
          if NewAt(m', tail, key, i) {
            forall j | 0 <= j < i + 1 ensures key(rows[j]) != key(rows[i + 1]) {
              if j > 0 { assert rows[j] == tail[j - 1]; }
            }
          }
          if NewAt(m, rows, key, i + 1) {
            forall j | 0 <= j < i ensures key(tail[j]) != key(tail[i]) {
              assert tail[j] == rows[j + 1];
            }
          }
        }
        if exists i :: 0 <= i < |rows| && NewAt(m, rows, key, i) && !ParentOk(rows[i], parent, parents) {
          var i :| 0 <= i < |rows| && NewAt(m, rows, key, i) && !ParentOk(rows[i], parent, parents);
          assert i > 0;
          assert NewAt(m', tail, key, i - 1) && tail[i - 1] == rows[i];
        }
        if exists i :: 0 <= i < |tail| && NewAt(m', tail, key, i) && !ParentOk(tail[i], parent, parents) {
          var i :| 0 <= i < |tail| && NewAt(m', tail, key, i) && !ParentOk(tail[i], parent, parents);
          assert NewAt(m, rows, key, i + 1) && rows[i + 1] == tail[i];
        }
      } else {
        assert NewAt(m, rows, key, 0);
      }
    }
  }

  /** First seen wins: a key the batch adds holds the first row of the batch with that key, and that row's reference was valid. */
  lemma {:induction false} InsertOrIgnoreFirstSeen<V>(m: map<string, V>, rows: seq<V>, key: V -> string,
                                                    parent: V -> Option<string>, parents: set<string>, k: string)
    requires InsertOrIgnore(m, rows, key, parent, parents).Some?
    requires k in KeysOf(rows, key) && k !in m
    ensures exists i :: 0 <= i < |rows| && NewAt(m, rows, key, i) && key(rows[i]) == k
                     && InsertOrIgnore(m, rows, key, parent, parents).value[k] == rows[i]
                     && ParentOk(rows[i], parent, parents)
    decreases |rows|
  {
    KeysOfCons(rows, key);
    var k0 := key(rows[0]);
    var tail := rows[1..];
    var r := InsertOrIgnore(m, rows, key, parent, parents).value;
    if k0 !in m && k == k0 {
      assert NewAt(m, rows, key, 0);
    } else {
      var m' := if k0 in m then m else m[k0 := rows[0]];
      assert InsertOrIgnore(m, rows, key, parent, parents) == InsertOrIgnore(m', tail, key, parent, parents);
      assert k in KeysOf(tail, key) && k !in m';
      InsertOrIgnoreFirstSeen(m', tail, key, parent, parents, k);
      var i :| 0 <= i < |tail| && NewAt(m', tail, key, i) && key(tail[i]) == k
               && InsertOrIgnore(m', tail, key, parent, parents).value[k] == tail[i]
               && ParentOk(tail[i], parent, parents);
      assert rows[i + 1] == tail[i];
      assert k0 != k;
      forall j | 0 <= j < i + 1 ensures key(rows[j]) != k {
        if j > 0 {
          assert rows[j] == tail[j - 1];
          assert key(tail[j - 1]) != key(tail[i]);
        }
      }
      assert NewAt(m, rows, key, i + 1) && key(rows[i + 1]) == k && r[k] == rows[i + 1];
    }
  }

  /** Every row stays stored under its own key with a valid reference: the table invariant survives the batch. */
  lemma InsertOrIgnoreKeepsKeys<V>(m: map<string, V>, rows: seq<V>, key: V -> string,
                                   parent: V -> Option<string>, parents: set<string>)
    requires InsertOrIgnore(m, rows, key, parent, parents).Some?
    requires forall k :: k in m ==> key(m[k]) == k && ParentOk(m[k], parent, parents)
    ensures var r := InsertOrIgnore(m, rows, key, parent, parents).value;
      forall k :: k in r ==> key(r[k]) == k && ParentOk(r[k], parent, parents)
  {
    var r := InsertOrIgnore(m, rows, key, parent, parents).value;
    forall k | k in r ensures key(r[k]) == k && ParentOk(r[k], parent, parents) {
      if k !in m {
        InsertOrIgnoreFirstSeen(m, rows, key, parent, parents, k);
      }
    }
  }

  /** A batch whose every row has a valid (or NULL) reference never raises. */
  lemma InsertOrIgnoreSucceeds<V>(m: map<string, V>, rows: seq<V>, key: V -> string,
                                  parent: V -> Option<string>, parents: set<string>)
    requires forall i :: 0 <= i < |rows| ==> ParentOk(rows[i], parent, parents)
    ensures InsertOrIgnore(m, rows, key, parent, parents).Some?
  {
    InsertOrIgnoreFailsIff(m, rows, key, parent, parents);
  }

  /** A batch whose every key is already in the table changes nothing; this makes re-running a load idempotent. */
  lemma {:induction false} InsertOrIgnorePresentIsNoop<V>(m: map<string, V>, rows: seq<V>, key: V -> string,
                                                        parent: V -> Option<string>, parents: set<string>)
    requires KeysOf(rows, key) <= m.Keys
    ensures InsertOrIgnore(m, rows, key, parent, parents) == Some(m)
    decreases |rows|
  {
    if rows != [] {
      KeysOfCons(rows, key);
      InsertOrIgnorePresentIsNoop(m, rows[1..], key, parent, parents);
    }
  }

  /** The loop `executemany` runs, proved to compute `InsertOrIgnore`. */
  method ExecuteMany<V>(m: map<string, V>, rows: seq<V>, key: V -> string,
                        parent: V -> Option<string>, parents: set<string>) returns (r: Option<map<string, V>>)
    ensures r == InsertOrIgnore(m, rows, key, parent, parents)
  {
    var table := m;
    var i := 0;
    while i < |rows|
      invariant 0 <= i <= |rows|
      invariant InsertOrIgnore(m, rows, key, parent, parents) == InsertOrIgnore(table, rows[i..], key, parent, parents)
    {
      var row := rows[i];
      assert rows[i..][1..] == rows[i + 1..];
      if key(row) !in table {
        if !ParentOk(row, parent, parents) {
          return None;
        }
        table := table[key(row) := row];
      }
      i := i + 1;
    }
    assert rows[i..] == [];
    return Some(table);
  }
}
