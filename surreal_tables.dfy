// The SurrealDB tables behind the two process persistence managers
// (crates/ichimi/src/persistence/manager.rs and src/persistence/manager.rs).
// A SurrealDB table has no unique column: it is a sequence of records, a
// `DELETE ... WHERE key = $k` drops every record with that key, a `CREATE`
// appends one, and loading into a HashMap keyed by that column lets a later
// record overwrite an earlier one.

module SurrealTables {
  import opened Common

  /// Each key is held by at most one record.
  predicate UniqueKeys<R(!new)>(rows: seq<R>, key: R -> string)
  {
    forall i, j :: 0 <= i < j < |rows| ==> key(rows[i]) != key(rows[j])
  }

  /// Some record carries key k.
  predicate HasKey<R(!new)>(rows: seq<R>, key: R -> string, k: string)
  {
    exists i :: 0 <= i < |rows| && key(rows[i]) == k
  }

  /// Applying f to every record, in order.
  function Mapped<R(!new), S>(rows: seq<R>, f: R -> S): (r: seq<S>)
    ensures |r| == |rows|
    ensures forall i :: 0 <= i < |rows| ==> r[i] == f(rows[i])
  {
    seq(|rows|, i requires 0 <= i < |rows| => f(rows[i]))
  }

  lemma MappedPrefix<R(!new), S>(rows: seq<R>, f: R -> S, n: nat)
    requires n <= |rows|
    ensures Mapped(rows[..n], f) == Mapped(rows, f)[..n]
  {
  }

  // ---------------------------------------------------------------------
  // DELETE and CREATE

  /// `DELETE table WHERE key = $k`: the records with another key, in order.
  function DeleteWhere<R(!new)>(rows: seq<R>, key: R -> string, k: string): (r: seq<R>)
    ensures forall x :: x in r <==> x in rows && key(x) != k
    ensures |r| <= |rows|
    ensures !HasKey(rows, key, k) ==> r == rows
    decreases |rows|
  {
    if rows == [] then []
    else
      var init := rows[..|rows| - 1];
      var last := rows[|rows| - 1];
      assert rows == init + [last];
      assert !HasKey(rows, key, k) ==> !HasKey(init, key, k) by {
        if HasKey(init, key, k) {
          var i :| 0 <= i < |init| && key(init[i]) == k;
          assert rows[i] == init[i];
        }
      }
      if key(last) == k then DeleteWhere(init, key, k) else DeleteWhere(init, key, k) + [last]
  }

  /// The delete-then-create upsert: drop every record with the new
  /// record's key, then append the new record.
  function Upserted<R(!new)>(rows: seq<R>, key: R -> string, rec: R): seq<R>
  {
    DeleteWhere(rows, key, key(rec)) + [rec]
  }

  /// Deleting records keeps the remaining ones pairwise distinct by key.
  lemma {:induction false} DeleteWhereUnique<R(!new)>(rows: seq<R>, key: R -> string, k: string)
    requires UniqueKeys(rows, key)
    ensures UniqueKeys(DeleteWhere(rows, key, k), key)
    decreases |rows|
  {
    if rows != [] {
      var init := rows[..|rows| - 1];
      var last := rows[|rows| - 1];
      assert UniqueKeys(init, key) by {
        forall i, j | 0 <= i < j < |init| ensures key(init[i]) != key(init[j]) {
          assert init[i] == rows[i] && init[j] == rows[j];
        }
      }
      DeleteWhereUnique(init, key, k);
      var d := DeleteWhere(init, key, k);
      if key(last) != k {
        forall x | x in d ensures key(x) != key(last) {
          var i :| 0 <= i < |init| && init[i] == x;
          assert rows[i] == init[i];
        }
        var r := d + [last];
        forall i, j | 0 <= i < j < |r| ensures key(r[i]) != key(r[j]) {
          assert r[i] == d[i] && d[i] in d;
          if j < |d| {
            assert r[j] == d[j];
          }
        }
      }
    }
  }

  /// After an upsert the table still holds each key at most once, the new
  /// record is the only one with its key, and every record with another
  /// key is there exactly when it was there before.
  lemma UpsertedContents<R(!new)>(rows: seq<R>, key: R -> string, rec: R)
    ensures rec in Upserted(rows, key, rec)
    ensures forall x :: x in Upserted(rows, key, rec) && key(x) == key(rec) ==> x == rec
    ensures forall x :: key(x) != key(rec) ==> (x in Upserted(rows, key, rec) <==> x in rows)
    ensures UniqueKeys(rows, key) ==> UniqueKeys(Upserted(rows, key, rec), key)
  {
    var d := DeleteWhere(rows, key, key(rec));
    var u := Upserted(rows, key, rec);
    assert u[|u| - 1] == rec;
    if UniqueKeys(rows, key) {
      DeleteWhereUnique(rows, key, key(rec));
      forall i, j | 0 <= i < j < |u| ensures key(u[i]) != key(u[j]) {
        assert u[i] == d[i] && u[i] in d;
        if j < |d| {
          assert u[j] == d[j];
        }
      }
    }
  }

  // ---------------------------------------------------------------------
  // Loading into a map keyed by the record's key

  /// Inserting every record, in order, into a map under its key: a later
  /// record with the same key overwrites an earlier one.
  function Keyed<R(!new)>(rows: seq<R>, key: R -> string): (m: map<string, R>)
    ensures forall k :: k in m <==> HasKey(rows, key, k)
    ensures forall k :: k in m ==> key(m[k]) == k && m[k] in rows
    decreases |rows|
  {
    if rows == [] then map[]
    else
      var init := rows[..|rows| - 1];
      var last := rows[|rows| - 1];
      var m := Keyed(init, key)[key(last) := last];
      assert forall k :: HasKey(init, key, k) ==> HasKey(rows, key, k) by {
        forall k | HasKey(init, key, k) ensures HasKey(rows, key, k) {
          var i :| 0 <= i < |init| && key(init[i]) == k;
          assert rows[i] == init[i];
        }
      }
      assert forall k :: HasKey(rows, key, k) ==> k == key(last) || HasKey(init, key, k) by {
        forall k | HasKey(rows, key, k) && k != key(last) ensures HasKey(init, key, k) {
          var i :| 0 <= i < |rows| && key(rows[i]) == k;
          assert i < |init| && init[i] == rows[i];
        }
      }
      assert forall x :: x in init ==> x in rows;
      m
  }

  /// The last record with a key is the one the loaded map holds for it.
  lemma {:induction false} KeyedLastWins<R(!new)>(rows: seq<R>, key: R -> string, i: nat)
    requires i < |rows|
    requires forall j :: i < j < |rows| ==> key(rows[j]) != key(rows[i])
    ensures Keyed(rows, key)[key(rows[i])] == rows[i]
    decreases |rows|
  {
    if i < |rows| - 1 {
      var init := rows[..|rows| - 1];
      assert init[i] == rows[i];
      forall j | i < j < |init| ensures key(init[j]) != key(init[i]) {
        assert init[j] == rows[j];
      }
      KeyedLastWins(init, key, i);
    }
  }

  lemma KeyedSnoc<R(!new)>(rows: seq<R>, key: R -> string, x: R)
    ensures Keyed(rows + [x], key) == Keyed(rows, key)[key(x) := x]
  {
    assert (rows + [x])[..|rows|] == rows;
  }

  /// Deleting every record with key k and then loading is loading and then
  /// dropping k.
  lemma {:induction false} KeyedDeleted<R(!new)>(rows: seq<R>, key: R -> string, k: string)
    ensures Keyed(DeleteWhere(rows, key, k), key) == Keyed(rows, key) - {k}
    decreases |rows|
  {
    if rows == [] {
      MapsEqual(Keyed(DeleteWhere(rows, key, k), key), Keyed(rows, key) - {k});
    } else {
      var init := rows[..|rows| - 1];
      var last := rows[|rows| - 1];
      var before := Keyed(init, key);
      assert Keyed(rows, key) == before[key(last) := last];
      KeyedDeleted(init, key, k);
      if key(last) != k {
        assert DeleteWhere(rows, key, k) == DeleteWhere(init, key, k) + [last];
        KeyedSnoc(DeleteWhere(init, key, k), key, last);
        MapsEqual(before[key(last) := last] - {k}, (before - {k})[key(last) := last]);
      } else {
        assert DeleteWhere(rows, key, k) == DeleteWhere(init, key, k);
        MapsEqual(before[key(last) := last] - {k}, before - {k});
      }
    }
  }

  /// Loading after an upsert gives the loaded map with the new record
  /// under its key and every other entry as before.
  lemma KeyedUpserted<R(!new)>(rows: seq<R>, key: R -> string, rec: R)
    ensures Keyed(Upserted(rows, key, rec), key) == Keyed(rows, key)[key(rec) := rec]
  {
    var d := DeleteWhere(rows, key, key(rec));
    KeyedSnoc(d, key, rec);
    KeyedDeleted(rows, key, key(rec));
    MapsEqual((Keyed(rows, key) - {key(rec)})[key(rec) := rec], Keyed(rows, key)[key(rec) := rec]);
  }

  /// Converting each record with a key-preserving f before loading is
  /// loading first and converting each value.
  lemma {:induction false} KeyedMapped<R(!new), S(!new)>(rows: seq<R>, key: R -> string, f: R -> S, key2: S -> string)
    requires forall r :: key2(f(r)) == key(r)
    ensures Keyed(Mapped(rows, f), key2) == map k | k in Keyed(rows, key) :: f(Keyed(rows, key)[k])
    decreases |rows|
  {
    var lhs := Keyed(Mapped(rows, f), key2);
    var rhs := map k | k in Keyed(rows, key) :: f(Keyed(rows, key)[k]);
    if rows == [] {
      MapsEqual(lhs, rhs);
    } else {
      var init := rows[..|rows| - 1];
      var last := rows[|rows| - 1];
      KeyedMapped(init, key, f, key2);
      MappedPrefix(rows, f, |init|);
      assert Mapped(rows, f)[..|rows| - 1] == Mapped(init, f);
      MapsEqual(lhs, rhs);
    }
  }

  /// With each key held once, the loaded map has one entry per record.
  lemma KeyedSize<R(!new)>(rows: seq<R>, key: R -> string)
    requires UniqueKeys(rows, key)
    ensures |Keyed(rows, key)| == |rows|
  {
    var keys := Mapped(rows, key);
    assert forall i, j :: 0 <= i < j < |keys| ==> keys[i] != keys[j];
    DistinctSeqCard(keys);
    forall k ensures k in Keyed(rows, key) <==> k in keys {
      if k in keys {
        var i :| 0 <= i < |keys| && keys[i] == k;
        assert HasKey(rows, key, k);
      }
    }
    assert Keyed(rows, key).Keys == set k | k in keys;
  }
}
