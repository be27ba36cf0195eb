// The clipboard entries of the ichimi-persistence crate
// (crates/ichimi-persistence/src/persistence/manager.rs): keys, metadata and what a listed row becomes.

module PersistClipboard {
  import opened Common
  import P = PersistTypes
  import Q = Queries
  import J = JsonValues

  // ---------------------------------------------------------------------
  // Clipboard metadata

  /// The file name carried by a metadata value: its "filename" field when
  /// that is a string.
  function FilenameOf(metadata: Option<J.Json>): (r: Option<string>)
    ensures r.Some? <==> metadata.Some? && J.Get(metadata.value, "filename").Some?
                         && J.Get(metadata.value, "filename").value.JString?
  {
    if metadata.None? then None
    else
      var field := J.Get(metadata.value, "filename");
      if field.None? then None else J.AsStr(field.value)
  }

  /// The file name carried by a stored metadata column; text that does
  /// not parse as JSON carries none.
  function FilenameFromText(metadata: Option<string>, jt: J.JsonText): (r: Option<string>)
    ensures metadata.None? ==> r.None?
    ensures metadata.Some? && jt.parse(metadata.value).None? ==> r.None?
  {
    if metadata.None? then None
    else
      var parsed := jt.parse(metadata.value);
      if parsed.None? then None else FilenameOf(parsed)
  }

  /// The metadata column `save_clipboard_item` writes for a file name.
  function FilenameMetadata(filename: string, jt: J.JsonText): (text: string)
    ensures J.Faithful(jt) ==> jt.parse(text) == Some(J.JObject(map["filename" := J.JString(filename)]))
  {
    jt.render(J.JObject(map["filename" := J.JString(filename)]))
  }

  /// The file name written by `save_clipboard_item` reads back.
  lemma FilenameRoundTrip(filename: string, jt: J.JsonText)
    requires J.Faithful(jt)
    ensures FilenameFromText(Some(FilenameMetadata(filename, jt)), jt) == Some(filename)
  {
    assert jt.parse(FilenameMetadata(filename, jt)) == Some(J.JObject(map["filename" := J.JString(filename)]));
  }

  /// The key of an entry stored without one of its own: "clipboard_"
  /// followed by the current time in nanoseconds, or 0 when that time is
  /// out of range.
  function GeneratedKey(nanos: Option<int>): (k: string)
    ensures StartsWith(k, "clipboard_")
  {
    "clipboard_" + IntToString(nanos.UnwrapOr(0))
  }

  /// The item a listed row becomes; the item gets a freshly generated id,
  /// and the stored key is not carried over.
  function ItemOf(r: Q.ClipboardRecord, jt: J.JsonText, generatedId: string, now: Timestamp): (item: P.ClipboardItem)
    ensures item.id.None? && item.content == r.content && item.content_type == Some(r.content_type)
    ensures item.filename == FilenameFromText(r.metadata, jt)
  {
    P.NewClipboardItem(r.content, FilenameFromText(r.metadata, jt), Some(r.content_type), generatedId, now)
  }

  /// The keys of the clipboard rows `rows`.
  function KeysOf(rows: seq<Q.ClipboardRecord>): (keys: set<string>)
    ensures forall k :: k in keys <==> exists j :: 0 <= j < |rows| && rows[j].key == k
  {
    if rows == [] then {} else KeysOf(rows[..|rows| - 1]) + {rows[|rows| - 1].key}
  }

  lemma MinusMore(m: map<string, Q.ClipboardRecord>, gone: set<string>, k: string)
    ensures (m - gone) - {k} == m - (gone + {k})
  {
    MapsEqual((m - gone) - {k}, m - (gone + {k}));
  }

  /// Deleting the key of every listed (visible) entry leaves exactly the
  /// entries that were no longer visible.
  lemma ClearedTable(before: map<string, Q.ClipboardRecord>, rows: seq<Q.ClipboardRecord>,
                     after: map<string, Q.ClipboardRecord>, now: Timestamp)
    requires forall k :: k in before ==> before[k].key == k
    requires forall c :: c in rows <==> c in before.Values && Q.Visible(c, now)
    requires after == before - KeysOf(rows)
    ensures after == map k | k in before && !Q.Visible(before[k], now) :: before[k]
  {
    forall k | k in before ensures (exists j :: 0 <= j < |rows| && rows[j].key == k) <==> Q.Visible(before[k], now) {
      if Q.Visible(before[k], now) {
        assert before[k] in rows;
        var j :| 0 <= j < |rows| && rows[j] == before[k];
      }
      if exists j :: 0 <= j < |rows| && rows[j].key == k {
        var j :| 0 <= j < |rows| && rows[j].key == k;
        assert rows[j] in before.Values;
      }
    }
    MapsEqual(after, map k | k in before && !Q.Visible(before[k], now) :: before[k]);
  }
}
