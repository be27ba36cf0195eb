// Shared vocabulary: optional values, error-carrying results, and the
// handful of Rust `str` operations the process manager relies on
// (`contains`, `starts_with`, `ends_with`, `replace`, `trim`, `lines`,
// `is_control`, `eq_ignore_ascii_case`, integer parsing and printing).

module Common {

  datatype Option<T> = None | Some(value: T)
  {
    function UnwrapOr(default: T): T
    {
      if Some? then value else default
    }
  }

  /// `Result<T, String>`: the error side is the message the source builds.
  datatype Result<T> = Ok(value: T) | Err(error: string)

  /// Unit, for `Result<(), String>`.
  datatype Unit = Unit

  // ---------------------------------------------------------------------
  // Substrings

  predicate StartsWith(s: string, p: string)
  {
    |p| <= |s| && s[..|p|] == p
  }

  predicate EndsWith(s: string, p: string)
  {
    |p| <= |s| && s[|s| - |p|..] == p
  }

  /// `s.contains(p)`: p occurs at some position of s.
  predicate Contains(s: string, p: string)
    decreases |s|
  {
    StartsWith(s, p) || (|s| > 0 && Contains(s[1..], p))
  }

  predicate ContainsChar(s: string, c: char)
  {
    c in s
  }

  lemma {:induction false} ContainsCharIsContains(s: string, c: char)
    ensures Contains(s, [c]) <==> c in s
    decreases |s|
  {
    if |s| > 0 {
      ContainsCharIsContains(s[1..], c);
      assert s == [s[0]] + s[1..];
    }
  }

  lemma {:induction false} ContainsSuffix(s: string, p: string, k: nat)
    requires k <= |s| && Contains(s[k..], p)
    ensures Contains(s, p)
    decreases k
  {
    if k > 0 {
      assert s[1..][k - 1..] == s[k..];
      ContainsSuffix(s[1..], p, k - 1);
    }
  }

  lemma {:induction false} ContainsWithin(s: string, p: string, i: nat)
    requires i + |p| <= |s| && s[i..i + |p|] == p
    ensures Contains(s, p)
  {
    assert StartsWith(s[i..], p);
    ContainsSuffix(s, p, i);
  }

  lemma {:induction false} ContainsPrefixOf(s: string, t: string, p: string)
    requires Contains(s, p)
    ensures Contains(s + t, p)
    decreases |s|
  {
    if StartsWith(s, p) {
      assert (s + t)[..|p|] == s[..|p|];
    } else {
      assert (s + t)[1..] == s[1..] + t;
      ContainsPrefixOf(s[1..], t, p);
    }
  }

  /// A text contains its own prefix.
  lemma ContainsFront(s: string, t: string)
    ensures Contains(s + t, s)
  {
    assert (s + t)[..|s|] == s;
  }

  lemma {:induction false} ContainsAppended(s: string, t: string, p: string)
    requires Contains(t, p)
    ensures Contains(s + t, p)
  {
    assert (s + t)[|s|..] == t;
    ContainsSuffix(s + t, p, |s|);
  }

  /// Every character of an occurring pattern occurs in the string.
  lemma {:induction false} ContainsHasChars(s: string, p: string, k: nat)
    requires Contains(s, p) && k < |p|
    ensures p[k] in s
    decreases |s|
  {
    if StartsWith(s, p) {
      assert s[k] == p[k];
    } else {
      ContainsHasChars(s[1..], p, k);
    }
  }

  /// Rust's `str::replace` with a non-empty pattern: every non-overlapping
  /// occurrence, scanning from the left, is replaced.
  function Replace(s: string, from: string, to: string): string
    requires |from| > 0
    decreases |s|
  {
    if |s| < |from| then s
    else if s[..|from|] == from then to + Replace(s[|from|..], from, to)
    else [s[0]] + Replace(s[1..], from, to)
  }

  lemma {:induction false} ReplaceAbsent(s: string, from: string, to: string)
    requires |from| > 0 && !Contains(s, from)
    ensures Replace(s, from, to) == s
    decreases |s|
  {
    if |s| >= |from| {
      ReplaceAbsent(s[1..], from, to);
      assert s == [s[0]] + s[1..];
    }
  }

  lemma {:induction false} NotContainsShort(s: string, p: string)
    requires |s| < |p|
    ensures !Contains(s, p)
    decreases |s|
  {
    if |s| > 0 { NotContainsShort(s[1..], p); }
  }

  // ---------------------------------------------------------------------
  // Characters

  /// Unicode `White_Space`, the set Rust's `trim` family removes.
  predicate IsWhitespace(c: char)
  {
    ('\t' <= c <= '\r') || c == ' ' || c == '\U{85}' || c == '\U{A0}'
    || c == '\U{1680}' || ('\U{2000}' <= c <= '\U{200A}')
    || c == '\U{2028}' || c == '\U{2029}' || c == '\U{202F}'
    || c == '\U{205F}' || c == '\U{3000}'
  }

  /// `char::is_control`: the general category Cc.
  predicate IsControl(c: char)
  {
    c <= '\U{1F}' || ('\U{7F}' <= c <= '\U{9F}')
  }

  function AsciiLower(c: char): char
  {
    if 'A' <= c <= 'Z' then (c as int + 32) as char else c
  }

  function AsciiLowercase(s: string): (r: string)
    ensures |r| == |s|
    ensures forall i :: 0 <= i < |s| ==> r[i] == AsciiLower(s[i])
  {
    seq(|s|, i requires 0 <= i < |s| => AsciiLower(s[i]))
  }

  /// `str::eq_ignore_ascii_case`.
  predicate EqIgnoreAsciiCase(a: string, b: string)
  {
    AsciiLowercase(a) == AsciiLowercase(b)
  }

  // ---------------------------------------------------------------------
  // Trimming

  function TrimStart(s: string): (r: string)
    ensures |r| <= |s| && r == s[|s| - |r|..]
    ensures r == [] || !IsWhitespace(r[0])
    decreases |s|
  {
    if |s| > 0 && IsWhitespace(s[0]) then TrimStart(s[1..]) else s
  }

  function TrimEnd(s: string): (r: string)
    ensures |r| <= |s| && r == s[..|r|]
    ensures r == [] || !IsWhitespace(r[|r| - 1])
    decreases |s|
  {
    if |s| > 0 && IsWhitespace(s[|s| - 1]) then TrimEnd(s[..|s| - 1]) else s
  }

  function Trim(s: string): string
  {
    TrimEnd(TrimStart(s))
  }

  /// A string trims to nothing exactly when every character is whitespace.
  lemma {:induction false} TrimStartEmpty(s: string)
    ensures TrimStart(s) == [] <==> forall i :: 0 <= i < |s| ==> IsWhitespace(s[i])
    decreases |s|
  {
    if |s| > 0 {
      TrimStartEmpty(s[1..]);
      if IsWhitespace(s[0]) {
        forall i | 0 <= i < |s| && (forall j :: 0 <= j < |s| - 1 ==> IsWhitespace(s[1..][j]))
          ensures IsWhitespace(s[i])
        {
          if i > 0 { assert s[i] == s[1..][i - 1]; }
        }
      }
    }
  }

  lemma {:induction false} TrimEmptyIffBlank(s: string)
    ensures Trim(s) == [] <==> forall i :: 0 <= i < |s| ==> IsWhitespace(s[i])
  {
    TrimStartEmpty(s);
    var t := TrimStart(s);
    if t != [] {
      // t has a non-whitespace first character, which TrimEnd keeps.
      TrimEndKeepsNonBlank(t);
      assert s[|s| - |t|] == t[0];
    }
  }

  lemma {:induction false} TrimEndKeepsNonBlank(t: string)
    requires t != [] && !IsWhitespace(t[0])
    ensures TrimEnd(t) != []
    decreases |t|
  {
    if IsWhitespace(t[|t| - 1]) {
      assert |t| > 1;
      assert t[..|t| - 1][0] == t[0];
      TrimEndKeepsNonBlank(t[..|t| - 1]);
    }
  }

  // ---------------------------------------------------------------------
  // Joining and splitting

  /// `Vec<String>::join(sep)`.
  function Join(parts: seq<string>, sep: string): string
  {
    if parts == [] then ""
    else if |parts| == 1 then parts[0]
    else parts[0] + sep + Join(parts[1..], sep)
  }

  /// Every part of a joined list occurs in the joined text.
  lemma {:induction false} JoinHasPart(parts: seq<string>, sep: string, i: nat)
    requires i < |parts|
    ensures Contains(Join(parts, sep), parts[i])
    decreases |parts|
  {
    if |parts| == 1 {
      ContainsFront(parts[0], "");
      assert parts[0] + "" == parts[0];
    } else if i == 0 {
      var rest := sep + Join(parts[1..], sep);
      ContainsFront(parts[0], rest);
      AppendRegroup(parts[0], sep, Join(parts[1..], sep));
    } else {
      JoinHasPart(parts[1..], sep, i - 1);
      ContainsAppended(parts[0] + sep, Join(parts[1..], sep), parts[i]);
    }
  }

  /// `str::split(c)`: the pieces between occurrences of c, always at least one.
  function Split(s: string, c: char): (r: seq<string>)
    ensures |r| >= 1
    ensures forall i :: 0 <= i < |r| ==> c !in r[i]
    decreases |s|
  {
    if s == [] then [""]
    else if s[0] == c then [""] + Split(s[1..], c)
    else var rest := Split(s[1..], c); [[s[0]] + rest[0]] + rest[1..]
  }

  /// Joining the pieces of a split with the separator gives the text back.
  lemma {:induction false} SplitJoin(s: string, c: char)
    ensures Join(Split(s, c), [c]) == s
    decreases |s|
  {
    if s != [] {
      var rest := Split(s[1..], c);
      SplitJoin(s[1..], c);
      if s[0] == c {
        assert Split(s, c)[1..] == rest;
        assert s == [c] + s[1..];
      } else {
        var r := Split(s, c);
        assert r[1..] == rest[1..];
        if |rest| > 1 {
          assert Join(rest, [c]) == rest[0] + [c] + Join(rest[1..], [c]);
        }
        assert s == [s[0]] + s[1..];
      }
    }
  }

  // ---------------------------------------------------------------------
  // Maps visited in iteration order

  /// `order` lists the keys of the map, each once, in the order the map
  /// yields them. Rust's HashMap order is unspecified, so every rule that
  /// depends on it takes the order as a parameter.
  predicate IsKeyOrder<V>(m: map<string, V>, order: seq<string>)
  {
    (forall i, j :: 0 <= i < j < |order| ==> order[i] != order[j])
    && (forall k :: k in m ==> k in order)
    && (forall k :: k in order ==> k in m)
  }

  lemma {:induction false} DistinctSeqCard(order: seq<string>)
    requires forall i, j :: 0 <= i < j < |order| ==> order[i] != order[j]
    ensures |set k | k in order| == |order|
  {
    if order != [] {
      var rest := order[1..];
      DistinctSeqCard(rest);
      assert (set k | k in order) == (set k | k in rest) + {order[0]};
      assert forall j :: 0 <= j < |rest| ==> rest[j] == order[j + 1];
      assert order[0] !in rest;
    }
  }

  /// A key order lists each key exactly once.
  lemma KeyOrderLength<V>(m: map<string, V>, order: seq<string>)
    requires IsKeyOrder(m, order)
    ensures |order| == |m|
  {
    assert (set k | k in order) == m.Keys;
    DistinctSeqCard(order);
  }

  /// Appending to a text built so far: regrouping the pieces.
  lemma AppendRegroup<T>(a: seq<T>, b: seq<T>, c: seq<T>)
    ensures a + b + c == a + (b + c)
  {
  }

  /// Two maps with the same keys and the same value under each are equal.
  lemma MapsEqual<K, V>(a: map<K, V>, b: map<K, V>)
    requires forall k :: k in a <==> k in b
    requires forall k :: k in a ==> a[k] == b[k]
    ensures a == b
  {
  }

  /// Updating a merged map is merging the updated right-hand map.
  lemma UpdateMerge<K, V>(a: map<K, V>, b: map<K, V>, k: K, v: V)
    ensures (a + b)[k := v] == a + b[k := v]
  {
    MapsEqual((a + b)[k := v], a + b[k := v]);
  }

  // ---------------------------------------------------------------------
  // Order-preserving filtering

  /// The elements of xs that `keep` accepts, in their original order.
  function Kept<T>(xs: seq<T>, keep: T -> bool): seq<T>
  {
    if xs == [] then []
    else if keep(xs[0]) then [xs[0]] + Kept(xs[1..], keep)
    else Kept(xs[1..], keep)
  }

  lemma {:induction false} KeptMembers<T>(xs: seq<T>, keep: T -> bool)
    ensures forall x :: x in Kept(xs, keep) <==> x in xs && keep(x)
    ensures |Kept(xs, keep)| <= |xs|
    ensures (forall i :: 0 <= i < |xs| ==> keep(xs[i])) ==> Kept(xs, keep) == xs
  {
    if xs != [] {
      KeptMembers(xs[1..], keep);
      assert xs == [xs[0]] + xs[1..];
    }
  }

  /// Filtering a concatenation filters each part.
  lemma {:induction false} KeptAppend<T>(xs: seq<T>, ys: seq<T>, keep: T -> bool)
    ensures Kept(xs + ys, keep) == Kept(xs, keep) + Kept(ys, keep)
  {
    if xs == [] {
      assert xs + ys == ys;
    } else {
      KeptAppend(xs[1..], ys, keep);
      assert (xs + ys)[1..] == xs[1..] + ys;
    }
  }

  lemma {:induction false} KeptSnoc<T>(xs: seq<T>, x: T, keep: T -> bool)
    ensures Kept(xs + [x], keep) == Kept(xs, keep) + (if keep(x) then [x] else [])
  {
    if xs != [] {
      assert (xs + [x])[1..] == xs[1..] + [x];
      KeptSnoc(xs[1..], x, keep);
    }
  }

  /// `a` is `b` with some elements left out and the rest in their order.
  predicate SubsequenceOf<T(==)>(a: seq<T>, b: seq<T>)
    decreases |b|
  {
    if a == [] then true
    else if b == [] then false
    else (a[0] == b[0] && SubsequenceOf(a[1..], b[1..])) || SubsequenceOf(a, b[1..])
  }

  /// Filtering keeps the elements in their original order.
  lemma {:induction false} KeptSubsequence<T>(xs: seq<T>, keep: T -> bool)
    ensures SubsequenceOf(Kept(xs, keep), xs)
    decreases |xs|
  {
    if xs != [] {
      KeptSubsequence(xs[1..], keep);
      if keep(xs[0]) {
        assert Kept(xs, keep)[1..] == Kept(xs[1..], keep);
      }
    }
  }

  /// Every element kept comes from the list.
  lemma {:induction false} KeptWithin<T>(xs: seq<T>, keep: T -> bool)
    ensures forall x :: x in Kept(xs, keep) ==> x in xs
    decreases |xs|
  {
    if xs != [] {
      KeptWithin(xs[1..], keep);
      assert xs == [xs[0]] + xs[1..];
    }
  }

  /// The list is sorted by `at`, largest first.
  predicate DescendingBy<T>(xs: seq<T>, at: T -> int)
  {
    forall i, j :: 0 <= i < j < |xs| ==> at(xs[i]) >= at(xs[j])
  }

  /// Filtering a list sorted by a key, largest first, keeps it sorted.
  lemma {:induction false} KeptDescending<T>(xs: seq<T>, keep: T -> bool, at: T -> int)
    requires DescendingBy(xs, at)
    ensures DescendingBy(Kept(xs, keep), at)
    decreases |xs|
  {
    if xs != [] {
      var rest := xs[1..];
      assert DescendingBy(rest, at) by {
        forall i, j | 0 <= i < j < |rest| ensures at(rest[i]) >= at(rest[j]) {
          assert rest[i] == xs[i + 1] && rest[j] == xs[j + 1];
        }
      }
      KeptDescending(rest, keep, at);
      if keep(xs[0]) {
        KeptWithin(rest, keep);
        assert xs == [xs[0]] + rest;
        DescendingCons(xs[0], Kept(rest, keep), rest, at);
        assert Kept(xs, keep) == [xs[0]] + Kept(rest, keep);
      }
    }
  }

  lemma DescendingCons<T>(x: T, ys: seq<T>, from: seq<T>, at: T -> int)
    requires DescendingBy(ys, at) && DescendingBy([x] + from, at)
    requires forall y :: y in ys ==> y in from
    ensures DescendingBy([x] + ys, at)
  {
    var r := [x] + ys;
    forall i, j | 0 <= i < j < |r| ensures at(r[i]) >= at(r[j]) {
      if i == 0 {
        assert r[j] == ys[j - 1] && r[j] in ys;
        var k :| 0 <= k < |from| && from[k] == r[j];
        assert ([x] + from)[k + 1] == r[j] && ([x] + from)[0] == x == r[0];
      } else {
        assert r[i] == ys[i - 1] && r[j] == ys[j - 1];
      }
    }
  }

  // ---------------------------------------------------------------------
  // Integers

  function DigitChar(d: nat): char
    requires d < 10
  {
    ('0' as int + d) as char
  }

  /// Decimal text of a natural number, as Rust's `Display` prints it.
  function NatToString(n: nat): (r: string)
    ensures |r| > 0
    ensures forall i :: 0 <= i < |r| ==> '0' <= r[i] <= '9'
    decreases n
  {
    if n < 10 then [DigitChar(n)] else NatToString(n / 10) + [DigitChar(n % 10)]
  }

  function IntToString(n: int): (r: string)
    ensures |r| > 0
  {
    if n < 0 then "-" + NatToString(-n) else NatToString(n)
  }

  predicate IsDigit(c: char) { '0' <= c <= '9' }

  function DigitOf(c: char): nat
    requires IsDigit(c)
  {
    c as int - '0' as int
  }

  function DigitsValue(s: string): nat
    requires AllDigits(s)
    decreases |s|
  {
    if s == [] then 0 else DigitsValue(s[..|s| - 1]) * 10 + DigitOf(s[|s| - 1])
  }

  predicate AllDigits(s: string)
  {
    forall i :: 0 <= i < |s| ==> IsDigit(s[i])
  }

  lemma {:induction false} NatToStringValue(n: nat)
    ensures AllDigits(NatToString(n)) && DigitsValue(NatToString(n)) == n
    decreases n
  {
    var r := NatToString(n);
    if n >= 10 {
      NatToStringValue(n / 10);
      assert r[..|r| - 1] == NatToString(n / 10);
    }
  }

  /// `str::parse` for an unsigned integer type whose largest value is `max`:
  /// an optional '+', then one or more ASCII digits, and no overflow.
  function ParseUnsigned(s: string, max: nat): (r: Option<nat>)
    ensures r.Some? ==> r.value <= max
  {
    var body := if |s| > 0 && s[0] == '+' then s[1..] else s;
    if body == [] || !AllDigits(body) then None
    else if DigitsValue(body) > max then None
    else Some(DigitsValue(body))
  }

  /// `str::parse` for a signed integer type with range [min, max].
  function ParseSigned(s: string, min: int, max: int): (r: Option<int>)
    ensures r.Some? ==> min <= r.value <= max
  {
    var neg := |s| > 0 && s[0] == '-';
    var body := if |s| > 0 && (s[0] == '+' || s[0] == '-') then s[1..] else s;
    if body == [] || !AllDigits(body) then None
    else
      var v := if neg then -(DigitsValue(body) as int) else DigitsValue(body) as int;
      if v < min || v > max then None else Some(v)
  }

  lemma {:induction false} ParseUnsignedPrinted(n: nat, max: nat)
    requires n <= max
    ensures ParseUnsigned(NatToString(n), max) == Some(n)
  {
    NatToStringValue(n);
  }

  const I64_MIN: int := -0x8000_0000_0000_0000
  const I64_MAX: int := 0x7FFF_FFFF_FFFF_FFFF
  const U16_MAX: nat := 0xFFFF
  const U32_MAX: nat := 0xFFFF_FFFF
  const U64_MAX: nat := 0xFFFF_FFFF_FFFF_FFFF

  /// An instant, counted in whole seconds since the Unix epoch; the
  /// sub-second part chrono keeps plays no role in any rule modelled here.
  type Timestamp = int

  type U16 = x: int | 0 <= x <= U16_MAX
  type U32 = x: int | 0 <= x <= U32_MAX
  type I32 = x: int | -0x8000_0000 <= x <= 0x7FFF_FFFF
  type U64 = x: int | 0 <= x <= U64_MAX

  /// Rust's `value as u32` on a 64-bit unsigned value: keep the low 32 bits.
  function U64ToU32(v: U64): (r: U32)
    ensures v <= U32_MAX ==> r == v
  {
    v % 0x1_0000_0000
  }
}
