// The settings of the ichimi-persistence crate (crates/ichimi-persistence/src/persistence/manager.rs)
// as rows of key and text: how `get_settings` reads them and what
// `update_settings` writes, and the two composed.

module PersistSettings {
  import opened Common
  import P = PersistTypes
  import Q = Queries

  // ---------------------------------------------------------------------
  // Settings as key/value rows

  /// `str::parse::<bool>`: exactly "true" or "false".
  function ParseBool(s: string): (r: Option<bool>)
    ensures r == Some(true) <==> s == "true"
    ensures r == Some(false) <==> s == "false"
  {
    if s == "true" then Some(true) else if s == "false" then Some(false) else None
  }

  /// `bool::to_string`.
  function BoolText(b: bool): (r: string)
    ensures ParseBool(r) == Some(b)
  {
    if b then "true" else "false"
  }

  /// `str::parse::<u64>().ok()` (and the same for a 64-bit usize).
  function ParseU64(s: string): (r: Option<U64>)
    ensures r.Some? ==> s != [] && forall i :: 0 < i < |s| ==> IsDigit(s[i])
  {
    var v := ParseUnsigned(s, U64_MAX);
    if v.Some? then Some(v.value) else None
  }

  /// A number printed by `to_string` parses back to itself.
  lemma ParseU64Printed(n: U64)
    ensures ParseU64(NatToString(n)) == Some(n)
  {
    ParseUnsignedPrinted(n, U64_MAX);
  }

  /// The key under which an environment variable is stored.
  function EnvKey(name: string): (k: string)
    ensures |k| == |name| + 4 && k[4..] == name
  {
    "env_" + name
  }

  lemma EnvKeyPrefix(name: string)
    ensures StartsWith(EnvKey(name), "env_")
  {
  }

  /// A key beginning with "env_" is the key of the variable it names.
  lemma EnvKeyOf(key: string)
    requires StartsWith(key, "env_")
    ensures key == EnvKey(key[4..])
  {
    assert key == key[..4] + key[4..];
  }

  /// The five keys with a meaning of their own.
  predicate IsNamedSetting(key: string)
  {
    key == "theme" || key == "auto_save_interval" || key == "max_log_lines"
    || key == "enable_auto_restart" || key == "default_shell"
  }

  /// No key beginning with "env_" is one of the named settings.
  lemma EnvPrefixNotNamed(key: string)
    requires StartsWith(key, "env_")
    ensures !IsNamedSetting(key)
  {
    assert key[0] == 'e' && key[2] == 'v';
  }

  /// One row of the `get_settings` loop: a named key sets its field, an
  /// unparsable number clears it, an unparsable flag is false, and any
  /// other key beginning with "env_" sets an environment variable.
  function ApplySetting(s: P.Settings, key: string, value: string): P.Settings
  {
    if key == "theme" then s.(theme := value)
    else if key == "auto_save_interval" then s.(auto_save_interval := ParseU64(value))
    else if key == "max_log_lines" then s.(max_log_lines := ParseU64(value))
    else if key == "enable_auto_restart" then s.(enable_auto_restart := ParseBool(value).UnwrapOr(false))
    else if key == "default_shell" then s.(default_shell := Some(value))
    else if StartsWith(key, "env_") then s.(env_variables := s.env_variables[key[4..] := value])
    else s
  }

  /// The settings the loop builds from the rows it has read.
  function SettingsOf(rows: seq<Q.SettingsRecord>, now: Timestamp): P.Settings
  {
    if rows == [] then P.DefaultSettings(now)
    else ApplySetting(SettingsOf(rows[..|rows| - 1], now), rows[|rows| - 1].key, rows[|rows| - 1].value)
  }

  /// The settings table as a map from key to stored text.
  ghost function Values(table: map<string, Q.SettingsRecord>): (v: map<string, string>)
    ensures v.Keys == table.Keys && forall k :: k in table ==> v[k] == table[k].value
  {
    ValuesAmong(table, table.Keys)
  }

  /// The stored text of the keys `keys` of the table.
  ghost function ValuesAmong(table: map<string, Q.SettingsRecord>, keys: set<string>): (v: map<string, string>)
    requires keys <= table.Keys
    ensures v.Keys == keys && forall k :: k in keys ==> v[k] == table[k].value
    decreases keys
  {
    if keys == {} then map[]
    else
      var k :| k in keys;
      ValuesAmong(table, keys - {k})[k := table[k].value]
  }

  /// The environment variables a table stores: one per "env_" key.
  ghost function EnvOf(v: map<string, string>): (env: map<string, string>)
    ensures forall name :: name in env <==> EnvKey(name) in v
    ensures forall name :: name in env ==> env[name] == v[EnvKey(name)]
  {
    EnvAmong(v, v.Keys)
  }

  /// The variables stored under the keys `keys` of the table.
  ghost function EnvAmong(v: map<string, string>, keys: set<string>): (env: map<string, string>)
    requires keys <= v.Keys
    ensures forall name :: name in env <==> EnvKey(name) in keys
    ensures forall name :: name in env ==> env[name] == v[EnvKey(name)]
    decreases keys
  {
    if keys == {} then map[]
    else
      var k :| k in keys;
      var rest := EnvAmong(v, keys - {k});
      if StartsWith(k, "env_") then
        EnvKeyOf(k);
        rest[k[4..] := v[k]]
      else
        forall name ensures EnvKey(name) != k {
          EnvKeyPrefix(name);
        }
        rest
  }

  /// Writing an "env_" key sets the one variable it names.
  lemma EnvOfUpdateEnv(v: map<string, string>, key: string, value: string)
    requires StartsWith(key, "env_")
    ensures EnvOf(v[key := value]) == EnvOf(v)[key[4..] := value]
  {
    var n0 := key[4..];
    EnvKeyOf(key);
    var w := v[key := value];
    var a := EnvOf(w);
    var b := EnvOf(v)[n0 := value];
    forall name ensures name in a <==> name in b {
      assert name in a <==> EnvKey(name) in w;
      if name != n0 {
        assert EnvKey(name) != key;
      }
    }
    forall name | name in a ensures a[name] == b[name] {
      if name != n0 {
        assert EnvKey(name) != key;
      }
    }
    MapsEqual(a, b);
  }

  /// Writing any other key leaves the variables as they were.
  lemma EnvOfUpdateOther(v: map<string, string>, key: string, value: string)
    requires !StartsWith(key, "env_")
    ensures EnvOf(v[key := value]) == EnvOf(v)
  {
    var a := EnvOf(v[key := value]);
    forall name ensures EnvKey(name) != key {
      EnvKeyPrefix(name);
    }
    assert forall name :: name in a <==> name in EnvOf(v);
    MapsEqual(a, EnvOf(v));
  }

  /// What the settings are, given the stored text of every key: the
  /// default for each named key that is absent, and one environment
  /// variable per "env_" key.
  ghost function Decode(v: map<string, string>, now: Timestamp): (s: P.Settings)
    ensures s.env_variables == EnvOf(v)
    ensures s.theme == if "theme" in v then v["theme"] else "dark"
    ensures s.enable_auto_restart <==> "enable_auto_restart" in v && ParseBool(v["enable_auto_restart"]) == Some(true)
    ensures s.updated_at == now
  {
    P.Settings(
      if "theme" in v then v["theme"] else "dark",
      if "auto_save_interval" in v then ParseU64(v["auto_save_interval"]) else Some(300),
      if "max_log_lines" in v then ParseU64(v["max_log_lines"]) else Some(1000),
      "enable_auto_restart" in v && ParseBool(v["enable_auto_restart"]).UnwrapOr(false),
      if "default_shell" in v then Some(v["default_shell"]) else None,
      EnvOf(v),
      now)
  }

  /// Nothing stored decodes to the defaults.
  lemma DecodeEmpty(now: Timestamp)
    ensures Decode(map[], now) == P.DefaultSettings(now)
  {
    assert EnvOf(map[]) == map[];
  }

  /// Applying one row to decoded settings decodes the table with that row
  /// written: the loop's result does not depend on what it read before.
  lemma ApplyDecoded(v: map<string, string>, key: string, value: string, now: Timestamp)
    ensures ApplySetting(Decode(v, now), key, value) == Decode(v[key := value], now)
  {
    if StartsWith(key, "env_") {
      EnvOfUpdateEnv(v, key, value);
      EnvPrefixNotNamed(key);
    } else {
      EnvOfUpdateOther(v, key, value);
    }
  }

  /// The map a sequence of rows describes, a later row winning over an
  /// earlier one.
  function RowValues(rows: seq<Q.SettingsRecord>): map<string, string>
  {
    if rows == [] then map[]
    else RowValues(rows[..|rows| - 1])[rows[|rows| - 1].key := rows[|rows| - 1].value]
  }

  /// The settings built from rows are the decoding of what the rows store.
  lemma {:induction false} SettingsOfDecoded(rows: seq<Q.SettingsRecord>, now: Timestamp)
    ensures SettingsOf(rows, now) == Decode(RowValues(rows), now)
    decreases |rows|
  {
    if rows == [] {
      DecodeEmpty(now);
    } else {
      var init := rows[..|rows| - 1];
      SettingsOfDecoded(init, now);
      ApplyDecoded(RowValues(init), rows[|rows| - 1].key, rows[|rows| - 1].value, now);
    }
  }

  /// Applying a full listing of the table, in any key order, to the
  /// defaults gives the decoding of the table.
  lemma ListingDecoded(table: map<string, Q.SettingsRecord>, order: seq<string>,
                       rows: seq<Q.SettingsRecord>, now: Timestamp)
    requires IsKeyOrder(table, order) && |rows| == |order|
    requires forall k :: k in table ==> table[k].key == k
    requires forall j :: 0 <= j < |rows| ==> rows[j] == table[order[j]]
    ensures SettingsOf(rows, now) == Decode(Values(table), now)
  {
    SettingsOfDecoded(rows, now);
    RowValuesOfTable(table, order, rows);
    assert order[..|rows|] == order;
    MapsEqual(map k | k in order :: table[k].value, Values(table));
  }

  /// Listing the table in any key order stores the same map as the table.
  lemma {:induction false} RowValuesOfTable(table: map<string, Q.SettingsRecord>, order: seq<string>,
                                            rows: seq<Q.SettingsRecord>)
    requires IsKeyOrder(table, order) && |rows| <= |order|
    requires forall k :: k in table ==> table[k].key == k
    requires forall j :: 0 <= j < |rows| ==> rows[j] == table[order[j]]
    ensures RowValues(rows) == map k | k in order[..|rows|] :: table[k].value
    decreases |rows|
  {
    var i := |rows|;
    if i > 0 {
      RowValuesOfTable(table, order, rows[..i - 1]);
      assert order[..i] == order[..i - 1] + [order[i - 1]];
      var a := RowValues(rows);
      var b := map k | k in order[..i] :: table[k].value;
      assert forall k :: k in b <==> k in order[..i - 1] || k == order[i - 1];
      MapsEqual(a, b);
    }
  }

  /// The settings written by `update_settings` for `s`, as key and text:
  /// theme and flag always, each optional field only when set, and every
  /// environment variable under its "env_" key.
  function Written(s: P.Settings): (w: map<string, string>)
    ensures "theme" in w && w["theme"] == s.theme
    ensures "enable_auto_restart" in w && w["enable_auto_restart"] == BoolText(s.enable_auto_restart)
    ensures "auto_save_interval" in w <==> s.auto_save_interval.Some?
    ensures s.auto_save_interval.Some? ==> w["auto_save_interval"] == NatToString(s.auto_save_interval.value)
    ensures "max_log_lines" in w <==> s.max_log_lines.Some?
    ensures s.max_log_lines.Some? ==> w["max_log_lines"] == NatToString(s.max_log_lines.value)
    ensures "default_shell" in w <==> s.default_shell.Some?
    ensures s.default_shell.Some? ==> w["default_shell"] == s.default_shell.value
    ensures forall name :: EnvKey(name) in w <==> name in s.env_variables
    ensures forall name :: name in s.env_variables ==> w[EnvKey(name)] == s.env_variables[name]
  {
    var e := EnvEntries(s.env_variables);
    forall k | k in e ensures !IsNamedSetting(k) {
      EnvPrefixNotNamed(k);
    }
    forall name ensures !IsNamedSetting(EnvKey(name)) {
      EnvKeyPrefix(name);
      EnvPrefixNotNamed(EnvKey(name));
    }
    Fixed(s) + e
  }

  /// The named settings `update_settings` writes.
  function Fixed(s: P.Settings): (w: map<string, string>)
    ensures forall k :: k in w ==> IsNamedSetting(k)
    ensures "theme" in w && w["theme"] == s.theme
    ensures "enable_auto_restart" in w && w["enable_auto_restart"] == BoolText(s.enable_auto_restart)
    ensures "auto_save_interval" in w <==> s.auto_save_interval.Some?
    ensures s.auto_save_interval.Some? ==> w["auto_save_interval"] == NatToString(s.auto_save_interval.value)
    ensures "max_log_lines" in w <==> s.max_log_lines.Some?
    ensures s.max_log_lines.Some? ==> w["max_log_lines"] == NatToString(s.max_log_lines.value)
    ensures "default_shell" in w <==> s.default_shell.Some?
    ensures s.default_shell.Some? ==> w["default_shell"] == s.default_shell.value
  {
    var w0 := map["theme" := s.theme];
    var w1 := if s.auto_save_interval.Some? then w0["auto_save_interval" := NatToString(s.auto_save_interval.value)] else w0;
    var w2 := if s.max_log_lines.Some? then w1["max_log_lines" := NatToString(s.max_log_lines.value)] else w1;
    var w3 := w2["enable_auto_restart" := BoolText(s.enable_auto_restart)];
    if s.default_shell.Some? then w3["default_shell" := s.default_shell.value] else w3
  }

  /// The environment variables under their "env_" keys.
  function EnvEntries(env: map<string, string>): (w: map<string, string>)
    ensures forall k :: k in w ==> StartsWith(k, "env_") && k[4..] in env && w[k] == env[k[4..]]
    ensures forall name :: name in env ==> EnvKey(name) in w
  {
    map k | k in (set name | name in env :: EnvKey(name)) :: env[k[4..]]
  }

  /// The entries written for the variables `names`, one after another.
  ghost function EnvEntriesOf(env: map<string, string>, names: seq<string>): (w: map<string, string>)
    requires forall name :: name in names ==> name in env
    ensures forall k :: k in w ==> StartsWith(k, "env_") && k[4..] in names && w[k] == env[k[4..]]
    ensures forall name :: name in names ==> EnvKey(name) in w
  {
    if names == [] then map[]
    else
      var last := names[|names| - 1];
      var prev := EnvEntriesOf(env, names[..|names| - 1]);
      assert forall name :: name in names[..|names| - 1] ==> name in names;
      assert forall name :: name in names ==> name in names[..|names| - 1] || name == last;
      EnvKeyPrefix(last);
      prev[EnvKey(last) := env[last]]
  }

  /// One more variable written by the loop of `update_settings`.
  lemma EnvWriteStep(s: P.Settings, envOrder: seq<string>, i: nat)
    requires IsKeyOrder(s.env_variables, envOrder) && i < |envOrder|
    ensures (Fixed(s) + EnvEntriesOf(s.env_variables, envOrder[..i]))[EnvKey(envOrder[i]) := s.env_variables[envOrder[i]]]
         == Fixed(s) + EnvEntriesOf(s.env_variables, envOrder[..i + 1])
  {
    assert envOrder[..i + 1][..i] == envOrder[..i];
    UpdateMerge(Fixed(s), EnvEntriesOf(s.env_variables, envOrder[..i]), EnvKey(envOrder[i]), s.env_variables[envOrder[i]]);
  }

  /// After the loop of `update_settings`, everything it writes is written.
  lemma EnvWriteDone(s: P.Settings, envOrder: seq<string>)
    requires IsKeyOrder(s.env_variables, envOrder)
    ensures Fixed(s) + EnvEntriesOf(s.env_variables, envOrder[..|envOrder|]) == Written(s)
  {
    assert envOrder[..|envOrder|] == envOrder;
    EnvEntriesOfAll(s.env_variables, envOrder);
  }

  /// Writing every variable in the map's order writes all of them.
  lemma EnvEntriesOfAll(env: map<string, string>, order: seq<string>)
    requires IsKeyOrder(env, order)
    ensures EnvEntriesOf(env, order) == EnvEntries(env)
  {
    var a := EnvEntriesOf(env, order);
    var b := EnvEntries(env);
    forall k | k in a ensures k in b {
      EnvKeyOf(k);
    }
    forall k | k in b ensures k in a {
      EnvKeyOf(k);
    }
    MapsEqual(a, b);
  }

  /// `update_settings` followed by `get_settings`: the theme, the flag and
  /// every optional field that was set read back as written; an optional
  /// field that was not set keeps what the table held before; stored
  /// environment variables are never removed, only added to or replaced.
  lemma UpdateThenDecode(v: map<string, string>, s: P.Settings, now: Timestamp)
    ensures Decode(v + Written(s), now).theme == s.theme
    ensures Decode(v + Written(s), now).enable_auto_restart == s.enable_auto_restart
    ensures Decode(v + Written(s), now).auto_save_interval
         == if s.auto_save_interval.Some? then s.auto_save_interval else Decode(v, now).auto_save_interval
    ensures Decode(v + Written(s), now).max_log_lines
         == if s.max_log_lines.Some? then s.max_log_lines else Decode(v, now).max_log_lines
    ensures Decode(v + Written(s), now).default_shell
         == if s.default_shell.Some? then s.default_shell else Decode(v, now).default_shell
    ensures Decode(v + Written(s), now).env_variables == Decode(v, now).env_variables + s.env_variables
  {
    var w := Written(s);
    NamedAfterWrite(v, w, s, now);
    EnvAfterWrite(v, w, s.env_variables);
  }

  /// The named settings of `update_settings` read back, for any written
  /// map `w` holding exactly what it writes under the named keys.
  lemma NamedAfterWrite(v: map<string, string>, w: map<string, string>, s: P.Settings, now: Timestamp)
    requires "theme" in w && w["theme"] == s.theme
    requires "enable_auto_restart" in w && w["enable_auto_restart"] == BoolText(s.enable_auto_restart)
    requires "auto_save_interval" in w <==> s.auto_save_interval.Some?
    requires s.auto_save_interval.Some? ==> w["auto_save_interval"] == NatToString(s.auto_save_interval.value)
    requires "max_log_lines" in w <==> s.max_log_lines.Some?
    requires s.max_log_lines.Some? ==> w["max_log_lines"] == NatToString(s.max_log_lines.value)
    requires "default_shell" in w <==> s.default_shell.Some?
    requires s.default_shell.Some? ==> w["default_shell"] == s.default_shell.value
    ensures Decode(v + w, now).theme == s.theme
    ensures Decode(v + w, now).enable_auto_restart == s.enable_auto_restart
    ensures Decode(v + w, now).auto_save_interval
         == if s.auto_save_interval.Some? then s.auto_save_interval else Decode(v, now).auto_save_interval
    ensures Decode(v + w, now).max_log_lines
         == if s.max_log_lines.Some? then s.max_log_lines else Decode(v, now).max_log_lines
    ensures Decode(v + w, now).default_shell
         == if s.default_shell.Some? then s.default_shell else Decode(v, now).default_shell
  {
    if s.auto_save_interval.Some? {
      ParseU64Printed(s.auto_save_interval.value);
    }
    if s.max_log_lines.Some? {
      ParseU64Printed(s.max_log_lines.value);
    }
  }

  /// Writing the keys of `w`, which hold exactly the variables of `env`,
  /// adds those variables to the ones stored.
  lemma EnvAfterWrite(v: map<string, string>, w: map<string, string>, env: map<string, string>)
    requires forall name :: EnvKey(name) in w <==> name in env
    requires forall name :: name in env ==> w[EnvKey(name)] == env[name]
    ensures EnvOf(v + w) == EnvOf(v) + env
  {
    EnvAfterWriteKeys(v, w, env);
    forall name | name in EnvOf(v + w) ensures EnvOf(v + w)[name] == (EnvOf(v) + env)[name] {
      EnvAfterWriteValues(v, w, env, name);
    }
    MapsEqual(EnvOf(v + w), EnvOf(v) + env);
  }
  lemma EnvAfterWriteKeys(v: map<string, string>, w: map<string, string>, env: map<string, string>)
    requires forall name :: EnvKey(name) in w <==> name in env
    ensures forall name :: name in EnvOf(v + w) <==> name in EnvOf(v) || name in env
  {
  }
  lemma EnvAfterWriteValues(v: map<string, string>, w: map<string, string>, env: map<string, string>, name: string)
    requires forall name :: EnvKey(name) in w <==> name in env
    requires forall name :: name in env ==> w[EnvKey(name)] == env[name]
    requires name in EnvOf(v + w)
    ensures EnvOf(v + w)[name] == (EnvOf(v) + env)[name]
  {
  }

  /// On a fresh settings table, reading back what was written gives the
  /// settings themselves, except that an unset interval or line limit
  /// reads back as its default.
  lemma FreshUpdateThenDecode(s: P.Settings, now: Timestamp)
    ensures var r := Decode(map[] + Written(s), now);
      && r.theme == s.theme && r.enable_auto_restart == s.enable_auto_restart
      && r.auto_save_interval == (if s.auto_save_interval.Some? then s.auto_save_interval else Some(300))
      && r.max_log_lines == (if s.max_log_lines.Some? then s.max_log_lines else Some(1000))
      && r.default_shell == s.default_shell && r.env_variables == s.env_variables
  {
    UpdateThenDecode(map[], s, now);
    DecodeEmpty(now);
    OverDefaults(Decode(map[] + Written(s), now), Decode(map[], now), s);
  }

  /// Settings read back over the defaults.
  lemma OverDefaults(r: P.Settings, d: P.Settings, s: P.Settings)
    requires d == P.DefaultSettings(d.updated_at)
    requires r.theme == s.theme && r.enable_auto_restart == s.enable_auto_restart
    requires r.auto_save_interval == if s.auto_save_interval.Some? then s.auto_save_interval else d.auto_save_interval
    requires r.max_log_lines == if s.max_log_lines.Some? then s.max_log_lines else d.max_log_lines
    requires r.default_shell == if s.default_shell.Some? then s.default_shell else d.default_shell
    requires r.env_variables == d.env_variables + s.env_variables
    ensures r.auto_save_interval == (if s.auto_save_interval.Some? then s.auto_save_interval else Some(300))
    ensures r.max_log_lines == (if s.max_log_lines.Some? then s.max_log_lines else Some(1000))
    ensures r.default_shell == s.default_shell && r.env_variables == s.env_variables
  {
    MapsEqual(map[] + s.env_variables, s.env_variables);
  }
}
