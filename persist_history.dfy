// The process history as the ichimi-persistence crate reads it
// (crates/ichimi-persistence/src/persistence/manager.rs): filtered, newest first, limited.

module PersistHistory {
  import opened Common
  import P = PersistTypes
  import Q = Queries

  // ---------------------------------------------------------------------
  // Process history

  /// `order` lists the positions of the history rows, each once, most
  /// recently started first (`ORDER BY started_at DESC`).
  ghost predicate HistoryOrder(history: seq<Q.ProcessHistoryRecord>, order: seq<nat>)
  {
    && |order| == |history|
    && (forall i :: 0 <= i < |order| ==> order[i] < |history|)
    && (forall i, j :: 0 <= i < j < |order| ==> order[i] != order[j])
    && (forall i, j :: 0 <= i < j < |order| ==> history[order[i]].started_at >= history[order[j]].started_at)
  }

  /// SQLite's `LIMIT n`: a negative limit sets no bound.
  function Limited<T>(rows: seq<T>, limit: Option<int>): (r: seq<T>)
    ensures |r| <= |rows| && r == rows[..|r|]
    ensures forall x :: x in r ==> x in rows
    ensures limit.None? || limit.value < 0 || |rows| <= limit.value ==> r == rows
    ensures limit.Some? && 0 <= limit.value < |rows| ==> |r| == limit.value
  {
    if limit.Some? && 0 <= limit.value < |rows| then rows[..limit.value] else rows
  }

  /// The history rows in the given order: every row appears.
  function Arranged(history: seq<Q.ProcessHistoryRecord>, order: seq<nat>): (r: seq<Q.ProcessHistoryRecord>)
    requires HistoryOrder(history, order)
    ensures |r| == |history|
    ensures forall x :: x in r <==> x in history
    ensures StartSorted(r)
  {
    var r := seq(|order|, i requires 0 <= i < |order| => history[order[i]]);
    assert forall x :: x in r ==> x in history by {
      forall x | x in r ensures x in history {
        var i :| 0 <= i < |r| && r[i] == x;
      }
    }
    assert forall x :: x in history ==> x in r by {
      forall x | x in history ensures x in r {
        var k :| 0 <= k < |history| && history[k] == x;
        OrderCovers(order, k);
        var i :| 0 <= i < |order| && order[i] == k;
        assert r[i] == x;
      }
    }
    r
  }

  /// The positions a sequence of positions holds.
  function Positions(s: seq<nat>): (p: set<nat>)
    ensures forall i :: 0 <= i < |s| ==> s[i] in p
    ensures forall k :: k in p ==> exists i :: 0 <= i < |s| && s[i] == k
  {
    set i | 0 <= i < |s| :: s[i]
  }

  /// Pigeonhole: `n` distinct positions below `n` hold every position below `n`.
  lemma OrderCovers(order: seq<nat>, k: nat)
    requires forall i :: 0 <= i < |order| ==> order[i] < |order|
    requires forall i, j :: 0 <= i < j < |order| ==> order[i] != order[j]
    requires k < |order|
    ensures k in order
  {
    var n := |order|;
    var held := Positions(order);
    DistinctPositions(order);
    var below := Below(n);
    assert held <= below;
    if k !in held {
      assert held <= below - {k};
      SubsetCount(held, below - {k});
      assert false;
    }
  }

  lemma {:induction false} DistinctPositions(s: seq<nat>)
    requires forall i, j :: 0 <= i < j < |s| ==> s[i] != s[j]
    ensures |Positions(s)| == |s|
    decreases |s|
  {
    if s != [] {
      var init := s[..|s| - 1];
      DistinctPositions(init);
      assert Positions(s) == Positions(init) + {s[|s| - 1]};
      assert s[|s| - 1] !in Positions(init);
    }
  }

  /// The positions below `n`.
  function Below(n: nat): (p: set<nat>)
    ensures forall m :: m in p <==> 0 <= m < n
    ensures |p| == n
  {
    if n == 0 then {} else Below(n - 1) + {n - 1}
  }

  lemma {:induction false} SubsetCount(a: set<nat>, b: set<nat>)
    requires a <= b
    ensures |a| <= |b|
    decreases |b|
  {
    if a != {} {
      var x :| x in a;
      SubsetCount(a - {x}, b - {x});
    }
  }

  /// The rows `get_process_history` returns: those of the process when
  /// one is given, most recently started first, at most `limit` of them.
  /// A matching row is left out only when the limit is reached, and then
  /// every row returned started no earlier than it.
  function HistoryRows(history: seq<Q.ProcessHistoryRecord>, processId: Option<string>, limit: Option<int>,
                       order: seq<nat>): (r: seq<Q.ProcessHistoryRecord>)
    requires HistoryOrder(history, order)
    ensures forall x :: x in r ==> x in history && (processId.None? || x.process_id == processId.value)
    ensures StartSorted(r)
    ensures limit.Some? && limit.value >= 0 ==> |r| <= limit.value
    ensures processId.None? && (limit.None? || limit.value < 0) ==> |r| == |history|
    ensures forall x :: x in history && (processId.None? || x.process_id == processId.value) && x !in r ==>
      && limit.Some? && 0 <= limit.value == |r|
      && forall y :: y in r ==> y.started_at >= x.started_at
  {
    var sorted := Arranged(history, order);
    var keep := (x: Q.ProcessHistoryRecord) => processId.None? || x.process_id == processId.value;
    KeptMembers(sorted, keep);
    KeptSorted(sorted, keep);
    var rows := Kept(sorted, keep);
    var r := Limited(rows, limit);
    forall x | x in history && keep(x) && x !in r
      ensures limit.Some? && 0 <= limit.value == |r|
      ensures forall y :: y in r ==> y.started_at >= x.started_at
    {
      assert x in rows;
      LimitedPassesOver(rows, limit, x);
    }
    r
  }

  /// A row that `LIMIT` cuts off comes after every row it keeps.
  lemma LimitedPassesOver(rows: seq<Q.ProcessHistoryRecord>, limit: Option<int>, x: Q.ProcessHistoryRecord)
    requires StartSorted(rows) && x in rows && x !in Limited(rows, limit)
    ensures limit.Some? && 0 <= limit.value == |Limited(rows, limit)|
    ensures forall y :: y in Limited(rows, limit) ==> y.started_at >= x.started_at
  {
    var r := Limited(rows, limit);
    var j :| 0 <= j < |rows| && rows[j] == x;
    assert j >= |r|;
    forall y | y in r ensures y.started_at >= x.started_at {
      var i :| 0 <= i < |r| && r[i] == y;
      assert rows[i] == y;
    }
  }

  predicate StartSorted(xs: seq<Q.ProcessHistoryRecord>)
  {
    forall i, j :: 0 <= i < j < |xs| ==> xs[i].started_at >= xs[j].started_at
  }

  /// Filtering keeps a list sorted by start time sorted.
  lemma {:induction false} KeptSorted(xs: seq<Q.ProcessHistoryRecord>, keep: Q.ProcessHistoryRecord -> bool)
    requires StartSorted(xs)
    ensures StartSorted(Kept(xs, keep))
    decreases |xs|
  {
    if xs != [] {
      var rest := xs[1..];
      KeptSorted(rest, keep);
      if keep(xs[0]) {
        KeptMembers(rest, keep);
        assert xs == [xs[0]] + rest;
        SortedCons(xs[0], Kept(rest, keep), rest);
      }
    }
  }

  lemma SortedCons(x: Q.ProcessHistoryRecord, ys: seq<Q.ProcessHistoryRecord>, from: seq<Q.ProcessHistoryRecord>)
    requires StartSorted(ys) && StartSorted([x] + from)
    requires forall y :: y in ys ==> y in from
    ensures StartSorted([x] + ys)
  {
    var r := [x] + ys;
    forall i, j | 0 <= i < j < |r| ensures r[i].started_at >= r[j].started_at {
      if i == 0 {
        assert r[j] == ys[j - 1] && r[j] in ys;
        var k :| 0 <= k < |from| && from[k] == r[j];
        assert ([x] + from)[k + 1] == r[j] && ([x] + from)[0] == x == r[0];
      } else {
        assert r[i] == ys[i - 1] && r[j] == ys[j - 1];
      }
    }
  }
}
