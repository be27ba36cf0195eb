// The KDL configuration file as the ichimi-persistence crate imports it
// (crates/ichimi-persistence/src/persistence/manager.rs): which rows the
// file's entries leave in the process table.

module PersistConfig {
  import opened Common
  import P = PersistTypes
  import Q = Queries
  import K = KdlSerde

  // ---------------------------------------------------------------------
  // Configuration file

  /// The environment-variable iteration order of each record.
  function EnvOrders(infos: seq<P.ProcessInfo>, envOrderOf: map<string, string> -> seq<string>): (r: seq<seq<string>>)
    requires forall m :: IsKeyOrder(m, envOrderOf(m))
    ensures |r| == |infos| && forall i :: 0 <= i < |infos| ==> IsKeyOrder(infos[i].env, r[i])
  {
    seq(|infos|, i requires 0 <= i < |infos| => envOrderOf(infos[i].env))
  }

  /// The last entry of a configuration file with the id `id`, if any.
  function LastWith(ps: seq<K.KdlProcess>, id: string): (r: Option<K.KdlProcess>)
    ensures r.None? <==> forall i :: 0 <= i < |ps| ==> ps[i].id != id
    ensures r.Some? ==> r.value.id == id && r.value in ps
  {
    if ps == [] then None
    else if ps[|ps| - 1].id == id then Some(ps[|ps| - 1])
    else
      assert forall x :: x in ps[..|ps| - 1] ==> x in ps;
      LastWith(ps[..|ps| - 1], id)
  }

  /// One more entry read: it is the last one with its id.
  lemma LastWithSnoc(ps: seq<K.KdlProcess>, i: nat, id: string)
    requires i < |ps|
    ensures LastWith(ps[..i + 1], id) == if ps[i].id == id then Some(ps[i]) else LastWith(ps[..i], id)
  {
    assert ps[..i + 1][..i] == ps[..i];
  }

  /// The process table after the processes `ps` of a configuration file
  /// were saved over `before`: the ids of the file are added, every other
  /// row is untouched, and each id holds the row of its last entry.
  ghost predicate Imported(ps: seq<K.KdlProcess>, c: K.TimeCodec, json: Q.JsonCodec, now: Timestamp,
                           before: map<string, Q.ProcessRecord>, after: map<string, Q.ProcessRecord>)
  {
    ImportedBy(ps, before, after, SavedRow(c, json, now))
  }

  /// `row` is what saving the file's entry `p` writes, whatever row id and
  /// creation time it kept.
  function SavedRow(c: K.TimeCodec, json: Q.JsonCodec, now: Timestamp): (K.KdlProcess, Q.ProcessRecord) -> bool
  {
    (p: K.KdlProcess, row: Q.ProcessRecord) =>
      row == Q.ProcessRow(K.ToInfo(p, c, now), json, row.id, row.created_at, now)
  }

  /// The import described for any relation `saved` between an entry and
  /// the row it leaves.
  ghost predicate ImportedBy(ps: seq<K.KdlProcess>, before: map<string, Q.ProcessRecord>,
                             after: map<string, Q.ProcessRecord>, saved: (K.KdlProcess, Q.ProcessRecord) -> bool)
  {
    && (forall k :: k in after <==> k in before || LastWith(ps, k).Some?)
    && (forall k :: k in before && LastWith(ps, k).None? ==> after[k] == before[k])
    && (forall k :: LastWith(ps, k).Some? ==> k in after && saved(LastWith(ps, k).value, after[k]))
  }

  /// Saving one more entry of the file keeps the import description.
  lemma ImportedOneMore(ps: seq<K.KdlProcess>, i: nat, start: map<string, Q.ProcessRecord>,
                        before: map<string, Q.ProcessRecord>, after: map<string, Q.ProcessRecord>,
                        saved: (K.KdlProcess, Q.ProcessRecord) -> bool)
    requires i < |ps|
    requires ImportedBy(ps[..i], start, before, saved)
    requires ps[i].id in after && saved(ps[i], after[ps[i].id])
    requires after == before[ps[i].id := after[ps[i].id]]
    ensures ImportedBy(ps[..i + 1], start, after, saved)
  {
    var last := ps[..i + 1];
    forall k ensures LastWith(last, k) == if ps[i].id == k then Some(ps[i]) else LastWith(ps[..i], k) {
      LastWithSnoc(ps, i, k);
    }
    ImportedNext(ps[..i], last, ps[i], start, before, after, saved);
  }

  /// The same, with the entry read last and the last entry of each id
  /// written out.
  lemma ImportedNext(prev: seq<K.KdlProcess>, next: seq<K.KdlProcess>, p: K.KdlProcess,
                     start: map<string, Q.ProcessRecord>, before: map<string, Q.ProcessRecord>,
                     after: map<string, Q.ProcessRecord>, saved: (K.KdlProcess, Q.ProcessRecord) -> bool)
    requires forall k :: LastWith(next, k) == if p.id == k then Some(p) else LastWith(prev, k)
    requires ImportedBy(prev, start, before, saved)
    requires p.id in after && saved(p, after[p.id])
    requires after == before[p.id := after[p.id]]
    ensures ImportedBy(next, start, after, saved)
  {
  }
}
