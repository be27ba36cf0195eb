// The process templates of crates/vantage-persistence
// (crates/vantage-persistence/src/db/template_repository.rs): the template
// record, its constructor and builders, and the template table the
// repository reads and writes.  The table is a sequence of records in the
// order a scan returns them; each stored record carries the record id
// `template:<key>` that names it, and the repository addresses records by
// the key alone.

module TemplateRepository {
  import opened Common
  import opened SurrealTables

  datatype Category = Database | WebServer | BuildTool | Script | Other

  /// `TemplateCategory::default`.
  const DefaultCategory := Other

  /// The name a category is stored under (serde's snake_case).
  function CategoryName(c: Category): string
  {
    match c
    case Database => "database"
    case WebServer => "web_server"
    case BuildTool => "build_tool"
    case Script => "script"
    case Other => "other"
  }

  /// A SurrealDB record id: the table and the key within it.
  datatype RecordId = RecordId(table: string, key: string)

  const TableName := "template"
  const TablePrefix := "template:"

  /// `RecordId::to_string` for a key that is a plain identifier.
  function RecordIdText(r: RecordId): string
  {
    r.table + ":" + r.key
  }

  /// A template's record id reads as the table prefix and the key.
  lemma TemplateRecordText(key: string)
    ensures RecordIdText(RecordId(TableName, key)) == TablePrefix + key
  {
    assert TableName + ":" == TablePrefix;
    AppendRegroup(TableName, ":", key);
  }

  /// `str::strip_prefix(p).unwrap_or(s)`.
  function StripPrefix(s: string, p: string): (r: string)
    ensures StartsWith(s, p) ==> p + r == s
    ensures !StartsWith(s, p) ==> r == s
  {
    if StartsWith(s, p) then
      assert p + s[|p|..] == s;
      s[|p|..]
    else s
  }

  /// The text of a template's record id gives back its key once the table
  /// prefix is stripped.
  lemma KeyFromRecordText(r: RecordId)
    requires r.table == TableName
    ensures StartsWith(RecordIdText(r), TablePrefix)
    ensures StripPrefix(RecordIdText(r), TablePrefix) == r.key
  {
    var s := RecordIdText(r);
    assert s == TablePrefix + r.key;
    assert s[..|TablePrefix|] == TablePrefix;
    assert s[|TablePrefix|..] == r.key;
  }

  datatype Template = Template(
    id: Option<RecordId>,
    name: string,
    description: Option<string>,
    category: Category,
    tags: seq<string>,
    command: string,
    args: seq<string>,
    env: map<string, string>,
    cwd: Option<string>,
    createdAt: Option<string>,
    updatedAt: Option<string>,
    createdBy: Option<string>,
    useCount: int,
    lastUsedAt: Option<string>)
  {
    /// `with_description`: sets the description and nothing else.
    function WithDescription(d: string): (u: Template)
      ensures u.description == Some(d)
      ensures u.(description := this.description) == this
    {
      this.(description := Some(d))
    }

    /// `with_category`: sets the category and nothing else.
    function WithCategory(c: Category): (u: Template)
      ensures u.category == c
      ensures u.(category := this.category) == this
    {
      this.(category := c)
    }

    /// `with_tags`: sets the tags and nothing else.
    function WithTags(ts: seq<string>): (u: Template)
      ensures u.tags == ts
      ensures u.(tags := this.tags) == this
    {
      this.(tags := ts)
    }

    /// `with_args`: sets the arguments and nothing else.
    function WithArgs(xs: seq<string>): (u: Template)
      ensures u.args == xs
      ensures u.(args := this.args) == this
    {
      this.(args := xs)
    }

    /// `with_env`: sets the environment and nothing else.
    function WithEnv(e: map<string, string>): (u: Template)
      ensures u.env == e
      ensures u.(env := this.env) == this
    {
      this.(env := e)
    }

    /// `with_cwd`: sets the working directory and nothing else.
    function WithCwd(dir: string): (u: Template)
      ensures u.cwd == Some(dir)
      ensures u.(cwd := this.cwd) == this
    {
      this.(cwd := Some(dir))
    }
  }

  /// A template that was never stored: no id, no timestamps, never used.
  predicate Unsaved(t: Template)
  {
    t.id.None? && t.createdAt.None? && t.updatedAt.None? && t.useCount == 0 && t.lastUsedAt.None?
  }

  /// `Template::new`: the given name and command, and every other field
  /// empty or at its default.
  function New(name: string, command: string): (t: Template)
    ensures t.name == name && t.command == command
    ensures Unsaved(t) && t.createdBy.None?
    ensures t.category == DefaultCategory && t.description.None? && t.cwd.None?
    ensures t.tags == [] && t.args == [] && t.env == map[]
  {
    Template(None, name, None, DefaultCategory, [], command, [], map[], None, None, None, None, 0, None)
  }

  /// A template built by `new` and all six builders, in any order of the
  /// builders, holds exactly what was given and is still unsaved.
  lemma BuiltTemplate(name: string, command: string, d: string, c: Category, ts: seq<string>,
                      xs: seq<string>, e: map<string, string>, dir: string)
    ensures var t := New(name, command).WithDescription(d).WithCategory(c).WithTags(ts)
                       .WithArgs(xs).WithEnv(e).WithCwd(dir);
            t == New(name, command).WithCwd(dir).WithEnv(e).WithArgs(xs).WithTags(ts)
                   .WithCategory(c).WithDescription(d) &&
            t == Template(None, name, Some(d), c, ts, command, xs, e, Some(dir), None, None, None, 0, None) &&
            Unsaved(t)
  {
  }

  /// A builder applied twice keeps only its later value.
  lemma LaterBuilderWins(t: Template, d1: string, d2: string, c1: Category, c2: Category,
                         dir1: string, dir2: string)
    ensures t.WithDescription(d1).WithDescription(d2) == t.WithDescription(d2)
    ensures t.WithCategory(c1).WithCategory(c2) == t.WithCategory(c2)
    ensures t.WithCwd(dir1).WithCwd(dir2) == t.WithCwd(dir2)
  {
  }

  // ---------------------------------------------------------------------
  // The template table

  /// The key a stored record is addressed by.
  function KeyOf(t: Template): string
  {
    if t.id.Some? then t.id.value.key else ""
  }

  /// Every stored record has a record id in the template table, and no two
  /// records share a key.
  ghost predicate Valid(rows: seq<Template>)
  {
    UniqueKeys(rows, KeyOf) &&
    forall i :: 0 <= i < |rows| ==> rows[i].id.Some? && rows[i].id.value.table == TableName
  }

  /// The position of the first record with key `key`, or |rows|.
  function KeyIndex(rows: seq<Template>, key: string): (i: nat)
    ensures i <= |rows|
    ensures i < |rows| ==> KeyOf(rows[i]) == key
    ensures forall j :: 0 <= j < i ==> KeyOf(rows[j]) != key
    decreases |rows|
  {
    if rows == [] then 0
    else if KeyOf(rows[0]) == key then 0
    else 1 + KeyIndex(rows[1..], key)
  }

  /// `get`: the record with the key, if there is one.
  function Get(rows: seq<Template>, key: string): (r: Option<Template>)
    ensures r.Some? <==> HasKey(rows, KeyOf, key)
    ensures r.Some? ==> r.value in rows && KeyOf(r.value) == key
  {
    var i := KeyIndex(rows, key);
    if i < |rows| then Some(rows[i]) else None
  }

  /// In a valid table, every record is what its own key finds.
  lemma GetFindsStored(rows: seq<Template>, t: Template)
    requires Valid(rows)
    requires t in rows
    ensures Get(rows, KeyOf(t)) == Some(t)
  {
    var k :| 0 <= k < |rows| && rows[k] == t;
    var i := KeyIndex(rows, KeyOf(t));
    assert i <= k;
    assert rows[i] == t;
  }

  /// The position of the first record named `name`, or |rows|.
  function NameIndex(rows: seq<Template>, name: string): (i: nat)
    ensures i <= |rows|
    ensures i < |rows| ==> rows[i].name == name
    ensures forall j :: 0 <= j < i ==> rows[j].name != name
    decreases |rows|
  {
    if rows == [] then 0
    else if rows[0].name == name then 0
    else 1 + NameIndex(rows[1..], name)
  }

  /// `get_by_name`: the first record with the name, as `LIMIT 1` returns it.
  function GetByName(rows: seq<Template>, name: string): (r: Option<Template>)
    ensures r.None? <==> forall t :: t in rows ==> t.name != name
    ensures r.Some? ==> r.value in rows && r.value.name == name
  {
    var i := NameIndex(rows, name);
    if i < |rows| then Some(rows[i]) else None
  }

  /// `list_by_category`: the records of the category.
  function ListByCategory(rows: seq<Template>, c: Category): (r: seq<Template>)
    ensures forall t :: t in r <==> t in rows && t.category == c
  {
    KeptMembers(rows, (t: Template) => t.category == c);
    Kept(rows, (t: Template) => t.category == c)
  }

  /// `search_by_tag`: the records carrying the tag.
  function SearchByTag(rows: seq<Template>, tag: string): (r: seq<Template>)
    ensures forall t :: t in r <==> t in rows && tag in t.tags
  {
    KeptMembers(rows, (t: Template) => tag in t.tags);
    Kept(rows, (t: Template) => tag in t.tags)
  }

  /// `create`: the record is stored under the fresh key the database
  /// generates for it.
  function Create(rows: seq<Template>, t: Template, freshKey: string): (r: seq<Template>)
    requires !HasKey(rows, KeyOf, freshKey)
    ensures r == rows + [Stored(t, freshKey)]
    ensures Valid(rows) ==> Valid(r)
  {
    var r := rows + [Stored(t, freshKey)];
    assert forall i :: 0 <= i < |rows| ==> r[i] == rows[i];
    r
  }

  function Stored(t: Template, key: string): Template
  {
    t.(id := Some(RecordId(TableName, key)))
  }

  /// A record just created is found by its key and, when no other record
  /// had its name, by its name too.
  lemma CreatedIsFound(rows: seq<Template>, t: Template, freshKey: string)
    requires Valid(rows)
    requires !HasKey(rows, KeyOf, freshKey)
    ensures Get(Create(rows, t, freshKey), freshKey) == Some(Stored(t, freshKey))
    ensures GetByName(rows, t.name).None? ==> GetByName(Create(rows, t, freshKey), t.name) == Some(Stored(t, freshKey))
  {
    var r := Create(rows, t, freshKey);
    GetFindsStored(r, Stored(t, freshKey));
    if GetByName(rows, t.name).None? {
      var i := NameIndex(r, t.name);
      assert r[|rows|].name == t.name;
      assert i == |rows|;
    }
  }

  /// `delete`: every record with the key is gone, the rest kept in order.
  function Delete(rows: seq<Template>, key: string): (r: seq<Template>)
    ensures forall t :: t in r <==> t in rows && KeyOf(t) != key
    ensures !HasKey(rows, KeyOf, key) ==> r == rows
  {
    DeleteWhere(rows, KeyOf, key)
  }

  /// After a delete nothing is found under the key, and every other key
  /// finds what it found before.
  lemma DeleteRemovesOnlyKey(rows: seq<Template>, key: string, other: string)
    requires Valid(rows)
    ensures Valid(Delete(rows, key))
    ensures Get(Delete(rows, key), key).None?
    ensures other != key ==> Get(Delete(rows, key), other) == Get(rows, other)
  {
    var r := Delete(rows, key);
    DeleteWhereUnique(rows, KeyOf, key);
    forall i | 0 <= i < |r|
      ensures r[i].id.Some? && r[i].id.value.table == TableName
    {
      assert r[i] in rows;
    }
    if other != key {
      var g := Get(rows, other);
      if g.Some? {
        assert g.value in r;
        GetFindsStored(r, g.value);
      }
    }
  }

  /// `increment_use_count` on one record: one more use, last used now.
  function Bumped(t: Template, now: string): (u: Template)
    ensures u.useCount == t.useCount + 1 && u.lastUsedAt == Some(now)
    ensures u.(useCount := t.useCount, lastUsedAt := t.lastUsedAt) == t
  {
    t.(useCount := t.useCount + 1, lastUsedAt := Some(now))
  }

  /// `increment_use_count`: an UPDATE of the record with the key; a key no
  /// record has changes nothing.
  function IncrementUseCount(rows: seq<Template>, key: string, now: string): (r: seq<Template>)
    ensures |r| == |rows|
    ensures forall i :: 0 <= i < |rows| ==> r[i] == if KeyOf(rows[i]) == key then Bumped(rows[i], now) else rows[i]
  {
    Mapped(rows, (t: Template) => if KeyOf(t) == key then Bumped(t, now) else t)
  }

  /// An increment raises the use count of the record with the key by
  /// exactly one, stamps it, and leaves every other record as it was; for
  /// a key no record has, the table is unchanged.
  lemma IncrementTouchesOnlyKey(rows: seq<Template>, key: string, now: string, other: string)
    requires Valid(rows)
    ensures Valid(IncrementUseCount(rows, key, now))
    ensures Get(rows, key).Some? ==>
              Get(IncrementUseCount(rows, key, now), key) == Some(Bumped(Get(rows, key).value, now))
    ensures !HasKey(rows, KeyOf, key) ==> IncrementUseCount(rows, key, now) == rows
    ensures other != key ==> Get(IncrementUseCount(rows, key, now), other) == Get(rows, other)
  {
    var r := IncrementUseCount(rows, key, now);
    assert forall i :: 0 <= i < |rows| ==> KeyOf(r[i]) == KeyOf(rows[i]);
    assert forall i :: 0 <= i < |rows| ==> r[i].id == rows[i].id;
    var i := KeyIndex(rows, key);
    assert KeyIndex(r, key) == i by {
      KeyIndexSameKeys(rows, r, key);
    }
    KeyIndexSameKeys(rows, r, other);
    if !HasKey(rows, KeyOf, key) {
      assert forall j :: 0 <= j < |rows| ==> r[j] == rows[j];
    }
  }

  /// Two tables whose records have the same keys, position by position,
  /// find a key at the same position.
  lemma {:induction false} KeyIndexSameKeys(a: seq<Template>, b: seq<Template>, key: string)
    requires |a| == |b|
    requires forall i :: 0 <= i < |a| ==> KeyOf(a[i]) == KeyOf(b[i])
    ensures KeyIndex(a, key) == KeyIndex(b, key)
    decreases |a|
  {
    if a != [] {
      KeyIndexSameKeys(a[1..], b[1..], key);
    }
  }

  /// `update` with MERGE: the given template's fields replace the stored
  /// ones, except the record id, which names the record, and the
  /// timestamps, which an absent value leaves as they were.
  function Merge(stored: Template, t: Template): (m: Template)
    ensures m.id == stored.id
    ensures m.createdAt == (if t.createdAt.Some? then t.createdAt else stored.createdAt)
    ensures m.updatedAt == (if t.updatedAt.Some? then t.updatedAt else stored.updatedAt)
    ensures m.(id := t.id, createdAt := t.createdAt, updatedAt := t.updatedAt) == t
  {
    t.(id := stored.id,
       createdAt := if t.createdAt.Some? then t.createdAt else stored.createdAt,
       updatedAt := if t.updatedAt.Some? then t.updatedAt else stored.updatedAt)
  }

  /// `update`: the merged record, or an error when no record has the key.
  function Update(rows: seq<Template>, key: string, t: Template): (r: Result<(seq<Template>, Template)>)
    ensures r.Ok? <==> HasKey(rows, KeyOf, key)
    ensures r.Ok? ==> r.value.1 == Merge(Get(rows, key).value, t) && |r.value.0| == |rows|
  {
    var i := KeyIndex(rows, key);
    if i < |rows| then
      var m := Merge(rows[i], t);
      Ok((rows[..i] + [m] + rows[i + 1..], m))
    else Err("Template update returned None")
  }

  /// After an update the key finds the merged record and every other key
  /// finds what it found before.
  lemma UpdateReplacesOnlyKey(rows: seq<Template>, key: string, t: Template, other: string)
    requires Valid(rows)
    requires HasKey(rows, KeyOf, key)
    ensures Valid(Update(rows, key, t).value.0)
    ensures Get(Update(rows, key, t).value.0, key) == Some(Update(rows, key, t).value.1)
    ensures other != key ==> Get(Update(rows, key, t).value.0, other) == Get(rows, other)
  {
    var i := KeyIndex(rows, key);
    var r := Update(rows, key, t).value.0;
    var m := Merge(rows[i], t);
    assert r == rows[..i] + [m] + rows[i + 1..];
    ReplacedAt(rows, i, m);
    SameKeysValid(rows, r);
    KeyIndexSameKeys(rows, r, key);
    KeyIndexSameKeys(rows, r, other);
    var k := KeyIndex(rows, other);
    if other != key && k < |rows| {
      assert k != i;
    }
  }

  /// Replacing the record at `i` by one with the same record id changes
  /// that position only.
  lemma ReplacedAt(rows: seq<Template>, i: nat, m: Template)
    requires i < |rows| && m.id == rows[i].id
    ensures var r := rows[..i] + [m] + rows[i + 1..];
      && |r| == |rows| && r[i] == m
      && (forall j :: 0 <= j < |rows| && j != i ==> r[j] == rows[j])
      && (forall j :: 0 <= j < |rows| ==> r[j].id == rows[j].id)
  {
  }

  /// Two tables whose records have the same record ids position by
  /// position are valid together.
  lemma SameKeysValid(rows: seq<Template>, r: seq<Template>)
    requires Valid(rows) && |r| == |rows|
    requires forall j :: 0 <= j < |rows| ==> r[j].id == rows[j].id
    ensures Valid(r)
    ensures forall j :: 0 <= j < |rows| ==> KeyOf(r[j]) == KeyOf(rows[j])
  {
    assert forall j :: 0 <= j < |rows| ==> KeyOf(r[j]) == KeyOf(rows[j]);
  }
}
