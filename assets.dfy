// The web server's embedded assets (src/web/assets.rs): which files are
// embedded, and the content type a file is served with, chosen from the
// suffix of its path.

module Assets {
  import opened Common

  type Byte = bv8

  /// The embedded files, by path.  Their contents are fixed when the binary
  /// is built.
  type Store = map<string, seq<Byte>>

  /// The embedding rule: only files under `static/` and `web-svelte/dist/`
  /// are part of the binary.
  predicate Embedded(path: string)
  {
    StartsWith(path, "static/") || StartsWith(path, "web-svelte/dist/")
  }

  ghost predicate WellFormedStore(store: Store)
  {
    forall path :: path in store ==> Embedded(path)
  }

  const OctetStream := "application/octet-stream"

  /// `mime_from_path`: the first of the listed suffixes the path ends with
  /// decides the type; a path with none of them (upper-case extensions
  /// included) is plain bytes.
  function MimeFromPath(path: string): (mime: string)
    ensures mime == OctetStream || exists i :: 0 <= i < MimeCount && EndsWith(path, MimeEntry(i).0) && mime == MimeEntry(i).1
  {
    if EndsWith(path, ".html") then assert MimeEntry(0).0 == ".html"; "text/html; charset=utf-8"
    else if EndsWith(path, ".css") then assert MimeEntry(1).0 == ".css"; "text/css; charset=utf-8"
    else if EndsWith(path, ".js") then assert MimeEntry(2).0 == ".js"; "application/javascript; charset=utf-8"
    else if EndsWith(path, ".json") then assert MimeEntry(3).0 == ".json"; "application/json"
    else if EndsWith(path, ".png") then assert MimeEntry(4).0 == ".png"; "image/png"
    else if EndsWith(path, ".jpg") || EndsWith(path, ".jpeg") then
      assert MimeEntry(5).0 == ".jpg" && MimeEntry(6).0 == ".jpeg"; "image/jpeg"
    else if EndsWith(path, ".gif") then assert MimeEntry(7).0 == ".gif"; "image/gif"
    else if EndsWith(path, ".svg") then assert MimeEntry(8).0 == ".svg"; "image/svg+xml"
    else if EndsWith(path, ".woff2") then assert MimeEntry(9).0 == ".woff2"; "font/woff2"
    else if EndsWith(path, ".woff") then assert MimeEntry(10).0 == ".woff"; "font/woff"
    else if EndsWith(path, ".ttf") then assert MimeEntry(11).0 == ".ttf"; "font/ttf"
    else if EndsWith(path, ".eot") then assert MimeEntry(12).0 == ".eot"; "application/vnd.ms-fontobject"
    else OctetStream
  }

  const MimeCount := 13

  /// The same rule written as a table of (suffix, type) pairs in the order
  /// the suffixes are tried.
  function MimeEntry(k: nat): (string, string)
    requires k < MimeCount
  {
    match k
    case 0 => (".html", "text/html; charset=utf-8")
    case 1 => (".css", "text/css; charset=utf-8")
    case 2 => (".js", "application/javascript; charset=utf-8")
    case 3 => (".json", "application/json")
    case 4 => (".png", "image/png")
    case 5 => (".jpg", "image/jpeg")
    case 6 => (".jpeg", "image/jpeg")
    case 7 => (".gif", "image/gif")
    case 8 => (".svg", "image/svg+xml")
    case 9 => (".woff2", "font/woff2")
    case 10 => (".woff", "font/woff")
    case 11 => (".ttf", "font/ttf")
    case _ => (".eot", "application/vnd.ms-fontobject")
  }

  /// The type of the first table entry, from index `k` on, whose suffix
  /// `path` ends with.
  function FirstMatch(path: string, k: nat): string
    requires k <= MimeCount
    decreases MimeCount - k
  {
    if k == MimeCount then OctetStream
    else if EndsWith(path, MimeEntry(k).0) then MimeEntry(k).1
    else FirstMatch(path, k + 1)
  }

  lemma {:induction false} FirstMatchAt(path: string, k: nat, i: nat)
    requires k <= i < MimeCount && EndsWith(path, MimeEntry(i).0)
    requires forall j :: k <= j < i ==> !EndsWith(path, MimeEntry(j).0)
    ensures FirstMatch(path, k) == MimeEntry(i).1
    decreases i - k
  {
    if k < i {
      FirstMatchAt(path, k + 1, i);
    }
  }

  lemma {:induction false} FirstMatchNone(path: string, k: nat)
    requires k <= MimeCount
    requires forall j :: k <= j < MimeCount ==> !EndsWith(path, MimeEntry(j).0)
    ensures FirstMatch(path, k) == OctetStream
    decreases MimeCount - k
  {
    if k < MimeCount {
      FirstMatchNone(path, k + 1);
    }
  }

  /// None of the listed types is plain bytes.
  lemma ListedTypeNotOctetStream(j: nat)
    requires j < MimeCount
    ensures MimeEntry(j).1 != OctetStream
  {
  }

  /// When some entry matches, the first match is one of the table's types,
  /// none of which is plain bytes.
  lemma {:induction false} FirstMatchSome(path: string, k: nat)
    requires k <= MimeCount
    requires exists j :: k <= j < MimeCount && EndsWith(path, MimeEntry(j).0)
    ensures FirstMatch(path, k) != OctetStream
    decreases MimeCount - k
  {
    if EndsWith(path, MimeEntry(k).0) {
      ListedTypeNotOctetStream(k);
    } else {
      FirstMatchSome(path, k + 1);
    }
  }

  /// The if/else chain and the table agree on every path.
  lemma MimeFromTable(path: string)
    ensures MimeFromPath(path) == FirstMatch(path, 0)
  {
    FontsFromTable(path);
    ImagesFromTable(path);
    TableStep(path, 3, ".json", "application/json");
    TableStep(path, 2, ".js", "application/javascript; charset=utf-8");
    TableStep(path, 1, ".css", "text/css; charset=utf-8");
    TableStep(path, 0, ".html", "text/html; charset=utf-8");
  }

  /// The image entries in the middle of the table.
  lemma ImagesFromTable(path: string)
    ensures FirstMatch(path, 4) ==
      if EndsWith(path, ".png") then "image/png"
      else if EndsWith(path, ".jpg") || EndsWith(path, ".jpeg") then "image/jpeg"
      else if EndsWith(path, ".gif") then "image/gif"
      else if EndsWith(path, ".svg") then "image/svg+xml"
      else FirstMatch(path, 9)
  {
    TableStep(path, 8, ".svg", "image/svg+xml");
    TableStep(path, 7, ".gif", "image/gif");
    TableStep(path, 6, ".jpeg", "image/jpeg");
    TableStep(path, 5, ".jpg", "image/jpeg");
    TableStep(path, 4, ".png", "image/png");
  }

  /// One entry of the table: its suffix decides, or the rest of the table.
  lemma TableStep(path: string, k: nat, suffix: string, mime: string)
    requires k < MimeCount && MimeEntry(k) == (suffix, mime)
    ensures FirstMatch(path, k) == if EndsWith(path, suffix) then mime else FirstMatch(path, k + 1)
  {
  }

  /// The font entries at the end of the table.
  lemma FontsFromTable(path: string)
    ensures FirstMatch(path, 9) ==
      if EndsWith(path, ".woff2") then "font/woff2"
      else if EndsWith(path, ".woff") then "font/woff"
      else if EndsWith(path, ".ttf") then "font/ttf"
      else if EndsWith(path, ".eot") then "application/vnd.ms-fontobject"
      else OctetStream
  {
    TableStep(path, 12, ".eot", "application/vnd.ms-fontobject");
    TableStep(path, 11, ".ttf", "font/ttf");
    TableStep(path, 10, ".woff", "font/woff");
    TableStep(path, 9, ".woff2", "font/woff2");
  }

  /// A suffix made of a dot and then no other dot.
  predicate DotSuffix(s: string)
  {
    |s| >= 1 && s[0] == '.' && forall k :: 1 <= k < |s| ==> s[k] != '.'
  }

  /// Of two suffixes made of a single dot and a name, one ends with the
  /// other only when they are the same.
  lemma DotSuffixEndsWith(a: string, b: string)
    requires DotSuffix(a) && DotSuffix(b) && EndsWith(a, b)
    ensures a == b
  {
  }

  lemma ListedSuffixDotted(i: nat)
    requires i < MimeCount
    ensures DotSuffix(MimeEntry(i).0)
  {
  }

  lemma ListedSuffixesDiffer(i: nat, j: nat)
    requires j < i < MimeCount
    ensures MimeEntry(i).0 != MimeEntry(j).0
  {
  }

  /// A path that ends with `p` after `e` was appended ends, within `e`, with
  /// the shorter of the two.
  lemma EndsWithAppended(stem: string, e: string, p: string)
    requires EndsWith(stem + e, p)
    ensures |p| <= |e| ==> EndsWith(e, p)
    ensures |e| < |p| ==> EndsWith(p, e)
  {
    var s := stem + e;
    if |p| <= |e| {
      assert e[|e| - |p|..] == s[|s| - |p|..];
    } else {
      assert p[|p| - |e|..] == s[|s| - |e|..];
    }
  }

  /// No listed suffix ends with, or is the tail of, an earlier one, so a
  /// path ending with a listed suffix never matches an earlier entry.
  lemma SuffixesDistinct(i: nat, j: nat)
    requires j < i < MimeCount
    ensures !EndsWith(MimeEntry(i).0, MimeEntry(j).0)
    ensures !EndsWith(MimeEntry(j).0, MimeEntry(i).0)
  {
    ListedSuffixDotted(i);
    ListedSuffixDotted(j);
    ListedSuffixesDiffer(i, j);
    if EndsWith(MimeEntry(i).0, MimeEntry(j).0) {
      DotSuffixEndsWith(MimeEntry(i).0, MimeEntry(j).0);
    }
    if EndsWith(MimeEntry(j).0, MimeEntry(i).0) {
      DotSuffixEndsWith(MimeEntry(j).0, MimeEntry(i).0);
    }
  }

  /// Any file named with a listed extension gets that extension's type,
  /// whatever comes before it.
  lemma MimeOfListedSuffix(stem: string, i: nat)
    requires i < MimeCount
    ensures MimeFromPath(stem + MimeEntry(i).0) == MimeEntry(i).1
  {
    var e := MimeEntry(i).0;
    var path := stem + e;
    assert EndsWith(path, e) by {
      assert path[|path| - |e|..] == e;
    }
    forall j | 0 <= j < i
      ensures !EndsWith(path, MimeEntry(j).0)
    {
      SuffixesDistinct(i, j);
      if EndsWith(path, MimeEntry(j).0) {
        EndsWithAppended(stem, e, MimeEntry(j).0);
      }
    }
    FirstMatchAt(path, 0, i);
    MimeFromTable(path);
  }

  /// A path is served as plain bytes exactly when it has none of the listed
  /// suffixes.
  lemma OctetStreamExactlyWhenUnlisted(path: string)
    ensures MimeFromPath(path) == OctetStream <==>
            forall i :: 0 <= i < MimeCount ==> !EndsWith(path, MimeEntry(i).0)
  {
    MimeFromTable(path);
    if forall i :: 0 <= i < MimeCount ==> !EndsWith(path, MimeEntry(i).0) {
      FirstMatchNone(path, 0);
    } else {
      FirstMatchSome(path, 0);
    }
  }

  /// `get_with_mime`: nothing when no file is embedded at the path,
  /// otherwise its bytes with the type its suffix calls for.
  function GetWithMime(store: Store, path: string): (r: Option<(seq<Byte>, string)>)
    ensures r.None? <==> path !in store
    ensures r.Some? ==> r.value.0 == store[path] && r.value.1 == MimeFromPath(path)
  {
    if path in store then Some((store[path], MimeFromPath(path))) else None
  }

  /// Only files under the embedded folders can ever be found.
  lemma OnlyEmbeddedFound(store: Store, path: string)
    requires WellFormedStore(store)
    requires GetWithMime(store, path).Some?
    ensures Embedded(path)
  {
  }
}
