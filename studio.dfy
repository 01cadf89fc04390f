/**
 * The Plugin Studio server (server/index.js): the bounded search for a free port, the
 * static-file handler with its path-traversal guard and single-page-application fallback,
 * the MIME table, and the routing of `/api/` requests to the JSON stub.
 *
 * Paths are lists of segments. `path.join(DIST_DIR, rawPath)` is modelled by resolving
 * the segments of the request path against the segments of DIST_DIR: empty and `.`
 * segments vanish and `..` removes the last segment. The file system is the set of paths
 * that are regular files and the set that are directories.
 */
module Studio {
  import opened Optional
  import opened Text

  // ---------------------------------------------------------------------------
  // Port search
  // ---------------------------------------------------------------------------

  const PortStart := 3847
  const PortMax := 3857

  /**
   * `findAvailablePort`: probe `start`, and on failure try `start + 1`; give up once the
   * port passes the top of the range. `busy` holds the ports a probe cannot listen on.
   */
  function FindAvailablePort(start: int, busy: set<int>): (r: Option<int>)
    ensures r.Some? ==> start <= r.value <= PortMax && r.value !in busy
    ensures r.Some? ==> forall q :: start <= q < r.value ==> q in busy
    ensures r.None? <==> forall q :: start <= q <= PortMax ==> q in busy
    decreases if start > PortMax then 0 else PortMax + 1 - start
  {
    if start > PortMax then None
    else if start !in busy then Some(start)
    else FindAvailablePort(start + 1, busy)
  }

  /** The server starts on the lowest free port of 3847..3857, and fails to start only when all eleven are taken. */
  lemma StartupPort(busy: set<int>)
    ensures var r := FindAvailablePort(PortStart, busy);
      (r.Some? ==> PortStart <= r.value <= PortMax && forall q :: PortStart <= q < r.value ==> q in busy)
      && (r.None? <==> forall q :: PortStart <= q <= PortMax ==> q in busy)
    ensures PortStart !in busy ==> FindAvailablePort(PortStart, busy) == Some(PortStart)
  {
  }

  // ---------------------------------------------------------------------------
  // Paths
  // ---------------------------------------------------------------------------

  type Path = seq<string>

  /** A normalised path: no empty, `.` or `..` segment, and no separator inside a segment. */
  predicate Clean(p: Path) {
    forall k :: 0 <= k < |p| ==> p[k] != "" && p[k] != "." && p[k] != ".." && '/' !in p[k]
  }

  /** `p` is `base` or lies below it: `p === DIST_DIR || p.startsWith(DIST_DIR + sep)`. */
  predicate Inside(base: Path, p: Path) {
    |base| <= |p| && p[..|base|] == base
  }

  /** One segment of a joined path. */
  function Step(p: Path, segment: string): Path {
    if segment == "" || segment == "." then p
    else if segment == ".." then (if p == [] then [] else p[..|p| - 1])
    else p + [segment]
  }

  /** The normalised join of `base` with the segments of a relative path, left to right. */
  function Resolve(base: Path, segments: seq<string>): Path
    decreases |segments|
  {
    if segments == [] then base else Resolve(Step(base, segments[0]), segments[1..])
  }

  /** Resolving a clean path against separator-free segments gives a clean path. */
  lemma {:induction false} ResolveClean(base: Path, segments: seq<string>)
    requires Clean(base)
    requires forall k :: 0 <= k < |segments| ==> '/' !in segments[k]
    ensures Clean(Resolve(base, segments))
    decreases |segments|
  {
    if segments != [] {
      ResolveClean(Step(base, segments[0]), segments[1..]);
    }
  }

  lemma InsideTransitive(a: Path, b: Path, c: Path)
    requires Inside(a, b) && Inside(b, c)
    ensures Inside(a, c)
  {
    assert c[..|a|] == c[..|b|][..|a|];
  }

  /** Without a `..` segment a joined path cannot leave its base. */
  lemma {:induction false} ResolveWithoutParentStaysInside(base: Path, segments: seq<string>)
    requires forall k :: 0 <= k < |segments| ==> segments[k] != ".."
    ensures Inside(base, Resolve(base, segments))
    decreases |segments|
  {
    if segments != [] {
      var next := Step(base, segments[0]);
      assert Inside(base, next);
      ResolveWithoutParentStaysInside(next, segments[1..]);
      InsideTransitive(base, next, Resolve(next, segments[1..]));
    }
  }

  /** The request target: the path before the first `?`, with `/` standing for `index.html`. */
  function RawPath(url: string): (r: string)
    ensures '?' !in r
  {
    Split(url, '?')[0]
  }

  /** The joined file path and whether it ends in a separator (Node keeps a trailing one). */
  datatype Target = Target(path: Path, trailing: bool)

  function TargetOf(dist: Path, url: string): Target {
    var raw := RawPath(url);
    if raw == "/" then Target(dist + [IndexHtml], false)
    else Target(Resolve(dist, Split(raw, '/')), |raw| > 0 && raw[|raw| - 1] == '/')
  }

  const IndexHtml := "index.html"

  // ---------------------------------------------------------------------------
  // MIME types
  // ---------------------------------------------------------------------------

  const MimeTypes: seq<(string, string)> := [
    (".html", "text/html; charset=utf-8"),
    (".js", "application/javascript; charset=utf-8"),
    (".mjs", "application/javascript; charset=utf-8"),
    (".css", "text/css; charset=utf-8"),
    (".json", "application/json; charset=utf-8"),
    (".svg", "image/svg+xml"),
    (".png", "image/png"),
    (".jpg", "image/jpeg"),
    (".ico", "image/x-icon"),
    (".woff2", "font/woff2"),
    (".woff", "font/woff")]

  const OctetStream := "application/octet-stream"

  /** The index of the last `.` in `s`. */
  function LastDot(s: string): (r: Option<nat>)
    ensures r.Some? ==> r.value < |s| && s[r.value] == '.' && '.' !in s[r.value + 1..]
    ensures r.None? ==> '.' !in s
    decreases |s|
  {
    if s == [] then None
    else if s[|s| - 1] == '.' then Some(|s| - 1)
    else
      var r := LastDot(s[..|s| - 1]);
      assert s == s[..|s| - 1] + [s[|s| - 1]];
      r
  }

  /**
   * `path.extname` of a file name: from its last `.` on, unless that dot starts
   * the name or the name is `..`.
   */
  function Extname(name: string): (r: string)
    ensures r == "" || (r[0] == '.' && '.' !in r[1..] && 0 < |name| - |r| && name[|name| - |r|..] == r)
    ensures r == "" <==> name == ".." || forall i :: 0 < i < |name| ==> name[i] != '.'
  {
    match LastDot(name)
    case None => ""
    case Some(i) => if i == 0 || name == ".." then "" else name[i..]
  }

  function MimeLookup(table: seq<(string, string)>, ext: string): (r: Option<string>)
    ensures r.Some? ==> exists k :: 0 <= k < |table| && table[k] == (ext, r.value)
    ensures r.None? <==> forall k :: 0 <= k < |table| ==> table[k].0 != ext
    decreases |table|
  {
    if table == [] then None
    else if table[0].0 == ext then Some(table[0].1)
    else
      var r := MimeLookup(table[1..], ext);
      assert forall k :: 1 <= k < |table| ==> table[k] == table[1..][k - 1];
      r
  }

  /** The lookup yields the value of the first entry whose key is `ext`. */
  lemma {:induction false} MimeLookupAt(table: seq<(string, string)>, ext: string, k: nat)
    requires k < |table| && table[k].0 == ext
    requires forall j :: 0 <= j < k ==> table[j].0 != ext
    ensures MimeLookup(table, ext) == Some(table[k].1)
    decreases k
  {
    if k > 0 {
      assert table[1..][k - 1] == table[k];
      assert forall j :: 0 <= j < k - 1 ==> table[1..][j].0 == table[j + 1].0;
      MimeLookupAt(table[1..], ext, k - 1);
    }
  }

  /** Each extension of the table looks up its own entry's type. */
  lemma KnownExtensionLookup(ext: string)
    ensures forall k :: 0 <= k < |MimeTypes| && MimeTypes[k].0 == ext ==> MimeLookup(MimeTypes, ext) == Some(MimeTypes[k].1)
  {
    MimeKeysDistinct();
    forall k | 0 <= k < |MimeTypes| && MimeTypes[k].0 == ext
      ensures MimeLookup(MimeTypes, ext) == Some(MimeTypes[k].1)
    {
      MimeLookupAt(MimeTypes, ext, k);
    }
  }

  /** `MIME_TYPES[ext] ?? 'application/octet-stream'`. */
  function ContentType(ext: string): (r: string)
    ensures r == OctetStream <==> forall k :: 0 <= k < |MimeTypes| ==> MimeTypes[k].0 != ext
    ensures forall k :: 0 <= k < |MimeTypes| && MimeTypes[k].0 == ext ==> r == MimeTypes[k].1
  {
    NoTypeIsOctetStream();
    KnownExtensionLookup(ext);
    MimeLookup(MimeTypes, ext).GetOr(OctetStream)
  }

  /** The table's extensions are pairwise distinct, as the keys of an object literal are. */
  lemma MimeKeysDistinct()
    ensures forall i, j :: 0 <= i < j < |MimeTypes| ==> MimeTypes[i].0 != MimeTypes[j].0
  {
  }

  /** No entry of the table maps to the fallback type: only its two `application/` types share its first letter, and they are longer. */
  lemma NoTypeIsOctetStream()
    ensures forall k :: 0 <= k < |MimeTypes| ==> MimeTypes[k].1 != OctetStream
  {
    forall k | 0 <= k < |MimeTypes| ensures MimeTypes[k].1 != OctetStream {
      var v := MimeTypes[k].1;
      assert |v| != |OctetStream| || v[0] != OctetStream[0];
    }
  }

  /** The content type of the file a path names. */
  function ContentTypeOf(p: Path): string {
    if p == [] then OctetStream else ContentType(Extname(p[|p| - 1]))
  }

  /** A name's extension is the text from its last dot, when something precedes that dot and the name is not `..`. */
  lemma {:induction false} ExtnameOf(stem: string, ext: string)
    requires stem != [] && '.' !in ext && stem + "." + ext != ".."
    ensures Extname(stem + "." + ext) == "." + ext
    decreases |ext|
  {
    LastDotOf(stem, ext);
    var name := stem + "." + ext;
    assert name[|stem|..] == "." + ext;
  }

  lemma {:induction false} LastDotOf(stem: string, ext: string)
    requires '.' !in ext
    ensures LastDot(stem + "." + ext) == Some(|stem|)
    decreases |ext|
  {
    var name := stem + "." + ext;
    if ext != [] {
      assert name[|name| - 1] == ext[|ext| - 1] != '.';
      assert name[..|name| - 1] == stem + "." + ext[..|ext| - 1];
      LastDotOf(stem, ext[..|ext| - 1]);
    }
  }

  /** The fallback page is served as HTML. */
  lemma IndexIsHtml(dist: Path)
    ensures ContentTypeOf(dist + [IndexHtml]) == "text/html; charset=utf-8"
  {
    ContentTypeOfLast(dist, IndexHtml);
    IndexExtname();
    HtmlContentType();
  }

  lemma IndexExtname()
    ensures Extname(IndexHtml) == ".html"
  {
    assert IndexHtml == "index" + "." + "html";
    ExtnameOf("index", "html");
  }

  lemma HtmlContentType()
    ensures ContentType(".html") == "text/html; charset=utf-8"
  {
    assert MimeTypes[0] == (".html", "text/html; charset=utf-8");
  }

  /** The content type of a path is decided by its last segment alone. */
  lemma ContentTypeOfLast(dir: Path, name: string)
    ensures ContentTypeOf(dir + [name]) == ContentType(Extname(name))
  {
    assert (dir + [name])[|dir|] == name;
  }

  /** The table is case-sensitive: an upper-case extension is served as a byte stream. */
  lemma UpperCaseExtensionUnknown()
    ensures ContentType(".HTML") == OctetStream
  {
    KeysStartLowerCase();
    var ext := ".HTML";
    assert ext[1] == 'H';
    assert forall k :: 0 <= k < |MimeTypes| ==> MimeTypes[k].0[1] != ext[1];
  }

  /** Every extension in the table is a dot and then a lower-case letter. */
  lemma KeysStartLowerCase()
    ensures forall k :: 0 <= k < |MimeTypes| ==> |MimeTypes[k].0| >= 2 && 'a' <= MimeTypes[k].0[1] <= 'z'
  {
  }

  /** A file name whose only dot starts it has no extension, and no extension means a byte stream. */
  lemma DotfileHasNoExtension()
    ensures Extname(".env") == "" && ContentType("") == OctetStream
  {
    assert LastDot(".env") == Some(0) by {
      assert ".env"[1..] == "env";
    }
    forall k | 0 <= k < |MimeTypes|
      ensures MimeTypes[k].0 != ""
    {
      assert |MimeTypes[k].0| > 0;
    }
  }

  // ---------------------------------------------------------------------------
  // Static serving and routing
  // ---------------------------------------------------------------------------

  datatype Tree = Tree(files: set<Path>, dirs: set<Path>)

  /** `fs.existsSync`: with a trailing separator only a directory exists. */
  predicate ExistsSync(tree: Tree, p: Path, trailing: bool) {
    p in tree.dirs || (p in tree.files && !trailing)
  }

  /** The target itself is served: it exists and is not a directory. */
  predicate Servable(tree: Tree, t: Target) {
    ExistsSync(tree, t.path, t.trailing) && t.path !in tree.dirs
  }

  datatype Response =
    | Forbidden                                   // 403
    | NotFound                                    // 404
    | Served(path: Path, contentType: string)     // 200 with the file's bytes
    | ApiStub                                     // 200 with the JSON stub

  function Status(r: Response): nat {
    match r
    case Forbidden => 403
    case NotFound => 404
    case Served(_, _) => 200
    case ApiStub => 200
  }

  /** `serveStatic`: guard, fall back to the index page, then serve or answer 404. */
  method ServeStatic(tree: Tree, dist: Path, url: string) returns (r: Response)
    requires dist != []
    ensures var t := TargetOf(dist, url);
      (r.Forbidden? <==> !Inside(dist, t.path))
      && (r.NotFound? <==> Inside(dist, t.path) && !Servable(tree, t) && !ExistsSync(tree, dist + [IndexHtml], false))
      && (r.Served? ==> r.path == (if Servable(tree, t) then t.path else dist + [IndexHtml]))
    ensures r.Served? ==> Inside(dist, r.path) && r.contentType == ContentTypeOf(r.path)
    ensures !r.ApiStub?
  {
    var target := TargetOf(dist, url);
    var filePath := target.path;
    if !Inside(dist, filePath) {
      return Forbidden;
    }
    var trailing := target.trailing;
    if !ExistsSync(tree, filePath, trailing) || filePath in tree.dirs {
      filePath := dist + [IndexHtml];
      trailing := false;
    }
    if !ExistsSync(tree, filePath, trailing) {
      return NotFound;
    }
    assert Inside(dist, dist + [IndexHtml]);
    r := Served(filePath, ContentTypeOf(filePath));
  }

  /** `requestHandler`: any URL starting with `/api/` gets the JSON stub and never reaches the files. */
  method HandleRequest(tree: Tree, dist: Path, url: string) returns (r: Response)
    requires dist != []
    ensures r.ApiStub? <==> StartsWith(url, "/api/")
    ensures !StartsWith(url, "/api/") ==> var t := TargetOf(dist, url);
      (r.Forbidden? <==> !Inside(dist, t.path))
      && (r.NotFound? <==> Inside(dist, t.path) && !Servable(tree, t) && !ExistsSync(tree, dist + [IndexHtml], false))
      && (r.Served? ==> r.path == (if Servable(tree, t) then t.path else dist + [IndexHtml]))
    ensures r.Served? ==> Inside(dist, r.path) && r.contentType == ContentTypeOf(r.path)
  {
    if StartsWith(url, "/api/") {
      return ApiStub;
    }
    r := ServeStatic(tree, dist, url);
  }

  /** A request without a `..` segment is never refused. */
  lemma PlainRequestsPassGuard(dist: Path, url: string)
    requires forall k :: 0 <= k < |Split(RawPath(url), '/')| ==> Split(RawPath(url), '/')[k] != ".."
    ensures Inside(dist, TargetOf(dist, url).path)
  {
    if RawPath(url) != "/" {
      ResolveWithoutParentStaysInside(dist, Split(RawPath(url), '/'));
    } else {
      assert (dist + [IndexHtml])[..|dist|] == dist;
    }
  }

  /** `/..` climbs out of the distribution directory and is refused with 403. */
  lemma ParentRequestForbidden(dist: Path)
    requires dist != []
    ensures !Inside(dist, TargetOf(dist, "/..").path)
  {
    assert Split("/..", '?') == ["/.."] by {
      SplitNoSeparator("/..", '?');
    }
    assert Split("/..", '/') == ["", ".."] by {
      assert "/.." == "" + ['/'] + "..";
      SplitAtFirst("", "..", '/');
      SplitNoSeparator("..", '/');
    }
    assert RawPath("/..") == "/..";
    assert Resolve(dist, ["", ".."]) == dist[..|dist| - 1] by {
      assert Step(dist, "") == dist;
      assert ["", ".."][1..] == [".."];
      assert [".."][1..] == [];
    }
  }
}
