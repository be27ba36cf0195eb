// The fallback route of the `crates/ichimi` web server
// (crates/ichimi/src/web/server.rs): any request path that no API route
// claims is served from the embedded web build, or answered with 404.

module StaticServer {
  import opened Common
  import opened Assets

  /// `static_handler`'s path normalisation: the site root is the index page,
  /// and one leading '/' is dropped from any other path.
  function NormalizePath(path: string): (p: string)
    ensures p != []
    ensures path == [] || path == "/" ==> p == "index.html"
  {
    if path == [] || path == "/" then "index.html"
    else if path[0] == '/' then path[1..]
    else path
  }

  /// Where the web build's files sit among the embedded assets.
  const DistDir := "ui/web/dist/"

  function DistPath(path: string): string
  {
    DistDir + NormalizePath(path)
  }

  datatype Body = Bytes(data: seq<Byte>) | Text(text: string)

  /// The answer: a status code, a content type when one is set, and a body.
  datatype Response = Response(status: nat, contentType: Option<string>, body: Body)

  const NotFound := Response(404, None, Text("404 Not Found"))

  /// `static_handler`: the embedded file with its content type, or 404.
  function StaticResponse(store: Store, path: string): (r: Response)
    ensures r.status == 200 <==> DistPath(path) in store
    ensures DistPath(path) in store ==>
              r.contentType == Some(MimeFromPath(DistPath(path))) && r.body == Bytes(store[DistPath(path)])
    ensures DistPath(path) !in store ==> r == NotFound
  {
    match GetWithMime(store, DistPath(path))
    case Some((data, mime)) => Response(200, Some(mime), Bytes(data))
    case None => NotFound
  }

  /// A request path keeps everything after its one leading '/', and a path
  /// without one is used as it is.
  lemma NormalizeDropsOneSlash(rest: string)
    requires rest != []
    ensures NormalizePath("/" + rest) == rest
    ensures rest[0] != '/' ==> NormalizePath(rest) == rest
  {
    assert ("/" + rest)[1..] == rest;
  }

  /// The site root, the empty path and "/index.html" are the same request.
  lemma RootIsIndex(store: Store)
    ensures StaticResponse(store, "") == StaticResponse(store, "/")
    ensures StaticResponse(store, "/") == StaticResponse(store, "/index.html")
    ensures StaticResponse(store, "/") == StaticResponse(store, "index.html")
  {
    NormalizeDropsOneSlash("index.html");
  }

  /// A found file named with a listed extension is served with that
  /// extension's content type.
  lemma ServedWithListedType(store: Store, stem: string, i: nat)
    requires i < MimeCount
    requires DistPath("/" + stem + MimeEntry(i).0) in store
    ensures StaticResponse(store, "/" + stem + MimeEntry(i).0).contentType == Some(MimeEntry(i).1)
  {
    var e := MimeEntry(i).0;
    var q := stem + e;
    AppendRegroup("/", stem, e);
    NormalizeDropsOneSlash(q);
    AppendRegroup(DistDir, stem, e);
    MimeOfListedSuffix(DistDir + stem, i);
  }
}
