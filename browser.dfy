// The local activity browser: how a GET request is routed, how a photo
// path is taken apart, which sessions the list and the detail views show,
// and how moving times are written.

module Browser {
  import opened Util
  import opened DateTimes
  import Activities

  // ---------------------------------------------------------------- request paths

  /** The index of the first character of `s` in `stops`, or `|s|`. */
  function FirstOf(s: string, stops: set<char>): (n: nat)
    ensures n <= |s|
    ensures forall k :: 0 <= k < n ==> s[k] !in stops
    ensures n < |s| ==> s[n] in stops
    decreases |s|
  {
    if s == [] || s[0] in stops then 0 else 1 + FirstOf(s[1..], stops)
  }

  /** The index just after the last `/` of `p`, or 0 when `p` has none. */
  function AfterLastSlash(p: string): (j: nat)
    ensures j <= |p|
    ensures j > 0 ==> p[j - 1] == '/'
    ensures forall k :: j <= k < |p| ==> p[k] != '/'
    decreases |p|
  {
    if p == [] then 0 else if p[|p| - 1] == '/' then |p| else AfterLastSlash(p[..|p| - 1])
  }

  /**
   * `_splitparams`: the path up to the first `;` of its last segment (that
   * `;` and what follows are the parameters).
   */
  function StripParams(p: string): (r: string)
    ensures r <= p
    ensures AfterLastSlash(p) <= |r|
    ensures ';' !in r[AfterLastSlash(p)..]
  {
    var j := AfterLastSlash(p);
    var r := p[..j + FirstOf(p[j..], {';'})];
    assert r[j..] == p[j..][..FirstOf(p[j..], {';'})];
    r
  }

  /** A character `urlsplit` accepts in a scheme name. */
  predicate SchemeChar(c: char)
  {
    'a' <= c <= 'z' || 'A' <= c <= 'Z' || '0' <= c <= '9' || c == '+' || c == '-' || c == '.'
  }

  /**
   * The length of the scheme `urlsplit` takes off the front of `scheme:rest`
   * (the colon goes with it): the text before the first `:`, when it starts
   * with an ASCII letter and holds only scheme characters; 0 otherwise.
   */
  function SchemeLength(target: string): (n: nat)
    ensures n == 0 || n < |target|
    ensures n > 0 ==> target[n] == ':' && ('a' <= target[0] <= 'z' || 'A' <= target[0] <= 'Z')
                      && forall k :: 0 <= k < n ==> SchemeChar(target[k])
  {
    var i := FirstOf(target, {':'});
    if 0 < i < |target| && ('a' <= target[0] <= 'z' || 'A' <= target[0] <= 'Z')
       && forall k :: 0 <= k < i ==> SchemeChar(target[k])
    then i else 0
  }

  /** The schemes whose paths carry `;` parameters (`uses_params`); the empty scheme is one of them. */
  const UsesParams: set<string> :=
    {"", "ftp", "hdl", "prospero", "http", "imap", "https", "shttp", "rtsp", "rtspu", "sip", "sips", "mms", "sftp", "tel"}

  /**
   * The path `urlparse` finds in a request target: after the `scheme:` and
   * the `//` network location, before the query (`?`) and the fragment
   * (`#`), and, for a scheme of `UsesParams`, without the `;` parameters of
   * its last segment.
   */
  function UrlPath(target: string): (path: string)
    ensures '?' !in path && '#' !in path
  {
    var rest := AfterNetloc(AfterScheme(target));
    var p := rest[..FirstOf(rest, {'?', '#'})];
    if ParamsScheme(target) then StripParams(p) else p
  }

  /** The target less its `scheme:`. */
  function AfterScheme(target: string): (rest: string)
    ensures SchemeLength(target) == 0 ==> rest == target
  {
    var n := SchemeLength(target);
    if n > 0 then target[n + 1..] else target
  }

  /** The rest of a target less its `//` network location, when it has one. */
  function AfterNetloc(rest: string): (r: string)
    ensures !(|rest| >= 2 && rest[0] == '/' && rest[1] == '/') ==> r == rest
  {
    if |rest| >= 2 && rest[..2] == "//" then rest[2 + FirstOf(rest[2..], {'/', '?', '#'})..] else rest
  }

  /** Whether the target's scheme, lower-cased, is one of `UsesParams`; a target without scheme is. */
  predicate ParamsScheme(target: string)
  {
    Lower(target[..SchemeLength(target)]) in UsesParams
  }

  /** A target without a scheme has the empty scheme, which carries parameters. */
  lemma NoSchemeParams(target: string)
    requires SchemeLength(target) == 0
    ensures ParamsScheme(target)
  {
    assert Lower(target[..0]) == "";
  }

  /** `s.rstrip(c)` for one character: the trailing copies of `c` removed. */
  function RStripChar(s: string, c: char): (r: string)
    ensures r <= s
    ensures r == [] || r[|r| - 1] != c
    ensures forall k :: |r| <= k < |s| ==> s[k] == c
    decreases |s|
  {
    if s != [] && s[|s| - 1] == c then RStripChar(s[..|s| - 1], c) else s
  }

  /** `path.split(sep)[1]` when `path` starts with `sep`: what follows, up to the next `sep`. */
  function AfterPrefix(path: string, sep: string): (r: string)
    requires |sep| > 0 && sep <= path
    ensures r == Split(path[|sep|..], sep)[0]
  {
    assert Split(path, sep) == [""] + Split(path[|sep|..], sep);
    Split(path, sep)[1]
  }

  /** What `do_GET` does with a request path, in the order it tests the prefixes. */
  datatype Route =
    | ListPage
    | DetailPage(sessionKey: string)
    | ListJson
    | DetailJson(sessionKey: string)
    | PhotoPath(path: string)
    | StaticPath
    | Unknown

  function RouteOf(path: string): (r: Route)
    ensures r.PhotoPath? ==> r.path == path && "/photos/" <= path
  {
    if path == "/" || path == "/index.html" then ListPage
    else if "/activity/" <= path then DetailPage(RStripChar(AfterPrefix(path, "/activity/"), '/'))
    else if "/api/activities" <= path then ListJson
    else if "/api/activity/" <= path then DetailJson(RStripChar(AfterPrefix(path, "/api/activity/"), '/'))
    else if "/photos/" <= path then PhotoPath(path)
    else if "/static/" <= path then StaticPath
    else Unknown
  }

  /** A string without `sep` splits into itself alone. */
  lemma SplitNoMatch(s: string, sep: string)
    requires |sep| > 0 && !Contains(s, sep)
    ensures Split(s, sep) == [s]
  {
  }

  /** A path under `/activity/` is a detail page. */
  lemma RouteDetailPrefix(p: string)
    requires "/activity/" <= p
    ensures RouteOf(p) == DetailPage(RStripChar(AfterPrefix(p, "/activity/"), '/'))
  {
    assert p != "/" && p != "/index.html" by { assert p[1] == 'a'; }
  }

  /** A path under `/api/activity/` is a detail request. */
  lemma RouteApiDetailPrefix(p: string)
    requires "/api/activity/" <= p
    ensures RouteOf(p) == DetailJson(RStripChar(AfterPrefix(p, "/api/activity/"), '/'))
  {
    assert p[1] == 'a' && p[2] == 'p' && p[12] == 'y';
    assert !("/activity/" <= p) by { assert "/activity/"[2] == 'c'; }
    assert !("/api/activities" <= p) by { assert "/api/activities"[12] == 'i'; }
  }

  /** The key is what follows the prefix, less its trailing slashes. */
  lemma KeyAfterPrefix(prefix: string, k: string, slashes: nat)
    requires |prefix| > 0
    requires k == [] || k[|k| - 1] != '/'
    requires !Contains(k + Repeat('/', slashes), prefix)
    ensures RStripChar(AfterPrefix(prefix + k + Repeat('/', slashes), prefix), '/') == k
  {
    var tail := k + Repeat('/', slashes);
    var p := prefix + k + Repeat('/', slashes);
    assert p == prefix + tail && p[|prefix|..] == tail;
    SplitNoMatch(tail, prefix);
    RStripRepeat(k, slashes);
  }

  /** `/activity/<k>` names session `k`, whatever number of slashes follows it. */
  lemma RouteDetailKey(k: string, slashes: nat)
    requires k == [] || k[|k| - 1] != '/'
    requires !Contains(k + Repeat('/', slashes), "/activity/")
    ensures RouteOf("/activity/" + k + Repeat('/', slashes)) == DetailPage(k)
  {
    RouteDetailPrefix("/activity/" + k + Repeat('/', slashes));
    KeyAfterPrefix("/activity/", k, slashes);
  }

  /** `/api/activity/<k>` names session `k`, whatever number of slashes follows it. */
  lemma RouteApiDetailKey(k: string, slashes: nat)
    requires k == [] || k[|k| - 1] != '/'
    requires !Contains(k + Repeat('/', slashes), "/api/activity/")
    ensures RouteOf("/api/activity/" + k + Repeat('/', slashes)) == DetailJson(k)
  {
    RouteApiDetailPrefix("/api/activity/" + k + Repeat('/', slashes));
    KeyAfterPrefix("/api/activity/", k, slashes);
  }

  /** `n` copies of `c`. */
  function Repeat(c: char, n: nat): (r: string)
    ensures |r| == n && forall k :: 0 <= k < n ==> r[k] == c
  {
    seq(n, _ => c)
  }

  lemma {:induction false} RStripRepeat(k: string, n: nat)
    requires k == [] || k[|k| - 1] != '/'
    ensures RStripChar(k + Repeat('/', n), '/') == k
    decreases n
  {
    if n > 0 {
      assert (k + Repeat('/', n))[..|k| + n - 1] == k + Repeat('/', n - 1);
      RStripRepeat(k, n - 1);
    } else {
      assert k + Repeat('/', 0) == k;
    }
  }

  /** A path under `/api/activities` is the JSON list. */
  lemma RouteListJsonPrefix(p: string)
    requires "/api/activities" <= p
    ensures RouteOf(p) == ListJson
  {
    assert p[1] == 'a' && p[2] == 'p';
  }

  /** A string that differs from `a` at some index of both does not start with `a`. */
  lemma DiffersAt(a: string, p: string, i: nat)
    requires i < |a| && i < |p| && a[i] != p[i]
    ensures !(a <= p)
  {
  }

  /** A path under `/static/` is a static file. */
  lemma RouteStaticPrefix(p: string)
    requires "/static/" <= p
    ensures RouteOf(p) == StaticPath
  {
    assert p[1] == 's';
    DiffersAt("/index.html", p, 1);
    DiffersAt("/activity/", p, 1);
    DiffersAt("/api/activities", p, 1);
    DiffersAt("/api/activity/", p, 1);
    DiffersAt("/photos/", p, 1);
  }

  /** The list and the JSON list answer their paths, and the static prefix is served as such. */
  lemma RouteFixedPaths(path: string)
    ensures RouteOf("/") == ListPage && RouteOf("/index.html") == ListPage
    ensures "/api/activities" <= path ==> RouteOf(path) == ListJson
    ensures "/static/" <= path ==> RouteOf(path) == StaticPath
  {
    if "/api/activities" <= path {
      RouteListJsonPrefix(path);
    }
    if "/static/" <= path {
      RouteStaticPrefix(path);
    }
  }

  /** Every path that none of the routes claims is not found. */
  lemma RouteUnknown(path: string)
    ensures RouteOf(path) == Unknown <==>
              path != "/" && path != "/index.html" && !("/activity/" <= path) && !("/api/activities" <= path)
              && !("/api/activity/" <= path) && !("/photos/" <= path) && !("/static/" <= path)
  {
    if "/api/activities" <= path {
      RouteListJsonPrefix(path);
    }
    if "/static/" <= path {
      RouteStaticPrefix(path);
    }
  }

  // ---------------------------------------------------------------- photo paths

  /** The three parts of `/photos/<username>/<session key>/<filename>`. */
  datatype PhotoRef = PhotoRef(username: string, sessionKey: string, filename: string)

  /**
   * `_serve_photo`'s split: what follows `/photos/` (up to a second
   * `/photos/`), cut at `/`; fewer than three parts is not a photo, and the
   * parts after the second are joined back as the file name.
   */
  function PhotoRequest(path: string): (r: Option<PhotoRef>)
    requires "/photos/" <= path
  {
    var parts := Split(AfterPrefix(path, "/photos/"), "/");
    if |parts| < 3 then None else Some(PhotoRef(parts[0], parts[1], Join(parts[2..], "/")))
  }

  /** The first `/` of `u + "/" + rest` follows `u` when `u` has none. */
  lemma SplitAtFirstSlash(u: string, rest: string)
    requires '/' !in u
    ensures Split(u + "/" + rest, "/") == [u] + Split(rest, "/")
  {
    var s := u + "/" + rest;
    assert "/" <= s[|u|..];
    forall j | 0 <= j < |u| ensures !("/" <= s[j..]) {
      assert s[j] == u[j];
    }
    assert s[..|u|] == u && s[|u| + 1..] == rest;
  }

  /** A photo path names its user, its session and its file, even a file name with slashes. */
  lemma PhotoRequestRoundTrip(u: string, k: string, f: string)
    requires '/' !in u && '/' !in k
    requires !Contains(u + "/" + k + "/" + f, "/photos/")
    ensures PhotoRequest("/photos/" + u + "/" + k + "/" + f) == Some(PhotoRef(u, k, f))
  {
    var rest := u + "/" + k + "/" + f;
    assert "/photos/" + u + "/" + k + "/" + f == "/photos/" + rest;
    AfterPhotos(rest);
    SplitNamesAndTail(u, k, f);
    var parts := Split(rest, "/");
    assert parts[2..] == Split(f, "/");
    JoinSplit(f, "/");
  }

  /** What follows `/photos/` is all of the rest when the rest has no second `/photos/`. */
  lemma AfterPhotos(rest: string)
    requires !Contains(rest, "/photos/")
    ensures AfterPrefix("/photos/" + rest, "/photos/") == rest
  {
    var path := "/photos/" + rest;
    assert path[|"/photos/"|..] == rest;
    SplitNoMatch(rest, "/photos/");
  }

  /** Two slash-free names and a tail split into the two names and the tail's parts. */
  lemma SplitNamesAndTail(u: string, k: string, f: string)
    requires '/' !in u && '/' !in k
    ensures Split(u + "/" + k + "/" + f, "/") == [u, k] + Split(f, "/")
  {
    var t := k + "/" + f;
    RegroupPath(u, k, f);
    SplitAtFirstSlash(u, t);
    SplitAtFirstSlash(k, f);
    ConsTwo(u, k, Split(f, "/"));
  }

  /** Regrouping the components of a path. */
  lemma RegroupPath(u: string, k: string, f: string)
    ensures u + "/" + k + "/" + f == u + "/" + (k + "/" + f)
  {
  }

  /** Two heads consed one at a time. */
  lemma ConsTwo<T>(a: T, b: T, tail: seq<T>)
    ensures [a] + ([b] + tail) == [a, b] + tail
  {
  }

  /**
   * A path shorter than three parts is refused: `/photos/<u>/<k>` has no
   * file name.
   */
  lemma PhotoRequestNeedsThreeParts(u: string, k: string)
    requires '/' !in u && '/' !in k
    requires !Contains(u + "/" + k, "/photos/")
    ensures PhotoRequest("/photos/" + u + "/" + k) == None
  {
    var rest := u + "/" + k;
    var path := "/photos/" + u + "/" + k;
    assert path == "/photos/" + rest && path[|"/photos/"|..] == rest;
    SplitNoMatch(rest, "/photos/");
    SplitAtFirstSlash(u, k);
    ContainsChar(k, '/');
    SplitNoMatch(k, "/");
  }

  // ---------------------------------------------------------------- the file a photo request opens

  /**
   * How the operating system resolves path components from a directory:
   * empty and `.` components stay, `..` climbs one level (never above the
   * root), any other name descends.
   */
  function Resolve(dir: seq<string>, parts: seq<string>): seq<string>
    decreases |parts|
  {
    if parts == [] then dir
    else if parts[0] == "" || parts[0] == "." then Resolve(dir, parts[1..])
    else if parts[0] == ".." then Resolve(if dir == [] then [] else dir[..|dir| - 1], parts[1..])
    else Resolve(dir + [parts[0]], parts[1..])
  }

  /**
   * `photos_dir / filename`, resolved: an absolute file name replaces the
   * directory, a relative one is resolved inside it.
   */
  function Opened(photosDir: seq<string>, filename: string): seq<string>
  {
    if "/" <= filename then Resolve([], Split(filename, "/")) else Resolve(photosDir, Split(filename, "/"))
  }

  /** A file name that cannot leave the photos directory: relative, and no `..` component. */
  predicate SafeFilename(filename: string)
  {
    !("/" <= filename) && ".." !in Split(filename, "/")
  }

  lemma {:induction false} ResolveStaysBelow(dir: seq<string>, parts: seq<string>)
    requires ".." !in parts
    ensures dir <= Resolve(dir, parts)
    decreases |parts|
  {
    if parts != [] {
      assert ".." !in parts[1..] by { assert forall k :: 0 <= k < |parts[1..]| ==> parts[1..][k] == parts[k + 1]; }
      if parts[0] == "" || parts[0] == "." {
        ResolveStaysBelow(dir, parts[1..]);
      } else {
        ResolveStaysBelow(dir + [parts[0]], parts[1..]);
      }
    }
  }

  /** A safe file name opens a file inside the photos directory. */
  lemma SafeFilenameStaysInside(photosDir: seq<string>, filename: string)
    requires SafeFilename(filename)
    ensures photosDir <= Opened(photosDir, filename)
  {
    ResolveStaysBelow(photosDir, Split(filename, "/"));
  }

  /** Where a session's photos are, for a user and a session key; None when the key does not parse. */
  type PhotosDirs = (string, string) -> Option<seq<string>>

  /** The result of a request. */
  datatype Response =
    | Listing(entries: seq<ListEntry>)
    | ListingJson(entries: seq<ListEntry>)
    | DetailView(detail: Detail)
    | DetailJsonBody(detail: Detail)
    | File(path: seq<string>)
    | NotFound(message: string)

  /**
   * `_serve_photo` as written: a photo of a known user, whose session key
   * parses, is served whenever the resolved file exists.
   */
  function ServePhotoAsWritten(path: string, users: seq<string>, dirs: PhotosDirs, present: seq<string> -> bool): Response
    requires "/photos/" <= path
  {
    match PhotoRequest(path)
    case None => NotFound("Not Found")
    case Some(r) =>
      if r.username in users && dirs(r.username, r.sessionKey).Some?
         && present(Opened(dirs(r.username, r.sessionKey).value, r.filename))
      then File(Opened(dirs(r.username, r.sessionKey).value, r.filename))
      else NotFound("Photo not found")
  }

  /** `/photos/` needs an `h`: a string without one has no occurrence of it. */
  lemma NoPhotosWithoutH(s: string)
    requires 'h' !in s
    ensures !Contains(s, "/photos/")
  {
    forall j | 0 <= j <= |s| ensures !("/photos/" <= s[j..]) {
      if j + 3 <= |s| {
        assert s[j..][2] == s[j + 2] != 'h';
      }
    }
  }

  /** `n` times the component `u` followed by a slash. */
  function Components(u: string, n: nat): string
  {
    if n == 0 then "" else u + "/" + Components(u, n - 1)
  }

  /** `n` copies of `u`. */
  function Copies(u: string, n: nat): (r: seq<string>)
    ensures |r| == n && forall k :: 0 <= k < n ==> r[k] == u
  {
    if n == 0 then [] else [u] + Copies(u, n - 1)
  }

  lemma {:induction false} SplitComponents(u: string, n: nat, x: string)
    requires '/' !in u
    ensures Split(Components(u, n) + x, "/") == Copies(u, n) + Split(x, "/")
    decreases n
  {
    if n == 0 {
      assert Components(u, 0) + x == x;
      assert Copies(u, 0) + Split(x, "/") == Split(x, "/");
    } else {
      SplitComponents(u, n - 1, x);
      SplitOneMore(u, n, x);
    }
  }

  /** The induction step of `SplitComponents`. */
  lemma SplitOneMore(u: string, n: nat, x: string)
    requires '/' !in u && n > 0
    requires Split(Components(u, n - 1) + x, "/") == Copies(u, n - 1) + Split(x, "/")
    ensures Split(Components(u, n) + x, "/") == Copies(u, n) + Split(x, "/")
  {
    var y := Components(u, n - 1) + x;
    ComponentsCons(u, n, x);
    SplitAtFirstSlash(u, y);
    CopiesCons(u, n, Split(x, "/"));
  }

  lemma ComponentsCons(u: string, n: nat, x: string)
    requires n > 0
    ensures Components(u, n) + x == u + "/" + (Components(u, n - 1) + x)
  {
    assert Components(u, n) == u + "/" + Components(u, n - 1);
  }

  lemma CopiesCons(u: string, n: nat, tail: seq<string>)
    requires n > 0
    ensures Copies(u, n) + tail == [u] + (Copies(u, n - 1) + tail)
  {
    assert Copies(u, n) == [u] + Copies(u, n - 1);
  }

  lemma {:induction false} ComponentsLack(u: string, n: nat, c: char)
    requires c != '/' && c !in u
    ensures c !in Components(u, n)
    decreases n
  {
    if n > 0 {
      ComponentsLack(u, n - 1, c);
    }
  }

  lemma {:induction false} ResolveUps(dir: seq<string>, n: nat, rest: seq<string>)
    requires n >= |dir|
    ensures Resolve(dir, Copies("..", n) + rest) == Resolve([], rest)
    decreases n
  {
    if n > 0 {
      var ups := Copies("..", n) + rest;
      assert ups[0] == ".." && ups[1..] == Copies("..", n - 1) + rest;
      ResolveUps(if dir == [] then [] else dir[..|dir| - 1], n - 1, rest);
    } else {
      assert Copies("..", 0) + rest == rest;
    }
  }

  /** A path component that names a directory entry: not empty, not `.` or `..`, no slash. */
  predicate PlainName(a: string)
  {
    a != "" && a != "." && a != ".." && '/' !in a
  }

  /** `a/b` splits into its two components. */
  lemma SplitTwoNames(a: string, b: string)
    requires '/' !in a && '/' !in b
    ensures Split(a + "/" + b, "/") == [a, b]
  {
    SplitAtFirstSlash(a, b);
    ContainsChar(b, '/');
    SplitNoMatch(b, "/");
  }

  /** `/a/b` splits into an empty component and its two names. */
  lemma SplitRootedNames(a: string, b: string)
    requires '/' !in a && '/' !in b
    ensures Split("/" + a + "/" + b, "/") == ["", a, b]
  {
    var rest := a + "/" + b;
    assert "/" + a + "/" + b == "" + "/" + rest;
    SplitTwoNames(a, b);
    SplitAtFirstSlash("", rest);
  }

  /** The empty component of a rooted path is skipped. */
  lemma ResolveRootedNames(a: string, b: string)
    requires PlainName(a) && PlainName(b)
    ensures Resolve([], ["", a, b]) == [a, b]
  {
    ResolveTwoNames(a, b);
    assert ["", a, b][1..] == [a, b];
  }

  lemma ResolveTwoNames(a: string, b: string)
    requires PlainName(a) && PlainName(b)
    ensures Resolve([], [a, b]) == [a, b]
  {
    assert [a, b][1..] == [b] && [b][1..] == [];
    assert Resolve([a, b], []) == [a, b];
    assert Resolve([a], [b]) == Resolve([a] + [b], []);
    assert Resolve([], [a, b]) == Resolve([] + [a], [b]);
  }

  /** A request for a photo of user `u` in session `k` names the file name as given. */
  lemma RequestNames(u: string, k: string, f: string)
    requires '/' !in u && '/' !in k && 'h' !in u && 'h' !in k && 'h' !in f
    ensures PhotoRequest(PhotoUrl(u, k, f)) == Some(PhotoRef(u, k, f))
  {
    NoPhotosWithoutH(u + "/" + k + "/" + f);
    PhotoRequestRoundTrip(u, k, f);
  }

  /** A known user's photo request is served as the opened file, when that file exists. */
  lemma ServesOpened(u: string, k: string, f: string, dir: seq<string>, dirs: PhotosDirs, present: seq<string> -> bool)
    requires '/' !in u && '/' !in k && 'h' !in u && 'h' !in k && 'h' !in f
    requires dirs(u, k) == Some(dir) && present(Opened(dir, f))
    ensures ServePhotoAsWritten(PhotoUrl(u, k, f), [u], dirs, present) == File(Opened(dir, f))
  {
    RequestNames(u, k, f);
  }

  /** Enough `..` components climb out of any photos directory. */
  lemma OpenedClimbsOut(dir: seq<string>, n: nat, a: string, b: string)
    requires PlainName(a) && PlainName(b) && n >= |dir|
    ensures 'h' !in a && 'h' !in b ==> 'h' !in Components("..", n) + a + "/" + b
    ensures Opened(dir, Components("..", n) + a + "/" + b) == [a, b]
  {
    var f := Components("..", n) + a + "/" + b;
    assert f == Components("..", n) + (a + "/" + b);
    assert 'h' !in a && 'h' !in b ==> 'h' !in f by {
      ComponentsLack("..", n, 'h');
    }
    assert !("/" <= f) by {
      if n > 0 { assert f[0] == '.'; } else { assert f[0] == a[0]; }
    }
    assert Resolve(dir, Split(f, "/")) == [a, b] by {
      SplitTwoNames(a, b);
      SplitComponents("..", n, a + "/" + b);
      ResolveUps(dir, n, [a, b]);
      ResolveTwoNames(a, b);
    }
  }

  /** An absolute file name replaces any photos directory. */
  lemma OpenedAbsolute(dir: seq<string>, a: string, b: string)
    requires PlainName(a) && PlainName(b)
    ensures Opened(dir, "/" + a + "/" + b) == [a, b]
  {
    SplitRootedNames(a, b);
    ResolveRootedNames(a, b);
  }

  /**
   * The as-written rule serves files outside the photos directory, whatever
   * it is: enough `..` components climb out of it (for instance
   * `/photos/alice/20240101T080000/../../../../../etc/passwd`), and an
   * absolute file name after `//` replaces it
   * (`/photos/alice/20240101T080000//etc/passwd`).
   */
  lemma PhotoPathEscapes(u: string, k: string, dir: seq<string>, n: nat, a: string, b: string,
                         dirs: PhotosDirs, present: seq<string> -> bool)
    requires '/' !in u && '/' !in k && 'h' !in u && 'h' !in k
    requires PlainName(a) && PlainName(b) && 'h' !in a && 'h' !in b
    requires n >= |dir| && dirs(u, k) == Some(dir) && present([a, b])
    ensures ServePhotoAsWritten(PhotoUrl(u, k, Components("..", n) + a + "/" + b), [u], dirs, present) == File([a, b])
    ensures ServePhotoAsWritten(PhotoUrl(u, k, "/" + a + "/" + b), [u], dirs, present) == File([a, b])
  {
    OpenedClimbsOut(dir, n, a, b);
    ServesOpened(u, k, Components("..", n) + a + "/" + b, dir, dirs, present);
    OpenedAbsolute(dir, a, b);
    assert 'h' !in "/" + a + "/" + b;
    ServesOpened(u, k, "/" + a + "/" + b, dir, dirs, present);
  }

  /** `_serve_photo` with the file name checked: only safe names are looked up. */
  function ServePhoto(path: string, users: seq<string>, dirs: PhotosDirs, present: seq<string> -> bool): (r: Response)
    requires "/photos/" <= path
    ensures r.File? ==> PhotoRequest(path).Some? && var p := PhotoRequest(path).value;
                        && p.username in users && dirs(p.username, p.sessionKey).Some?
                        && dirs(p.username, p.sessionKey).value <= r.path
  {
    match PhotoRequest(path)
    case None => NotFound("Not Found")
    case Some(p) =>
      if p.username in users && SafeFilename(p.filename) && dirs(p.username, p.sessionKey).Some?
         && present(Opened(dirs(p.username, p.sessionKey).value, p.filename))
      then
        SafeFilenameStaysInside(dirs(p.username, p.sessionKey).value, p.filename);
        File(Opened(dirs(p.username, p.sessionKey).value, p.filename))
      else NotFound("Photo not found")
  }

  /** On safe file names the checked rule serves what the as-written rule serves. */
  lemma ServePhotoAgrees(path: string, users: seq<string>, dirs: PhotosDirs, present: seq<string> -> bool)
    requires "/photos/" <= path
    requires PhotoRequest(path).Some? && SafeFilename(PhotoRequest(path).value.filename)
    ensures ServePhoto(path, users, dirs, present) == ServePhotoAsWritten(path, users, dirs, present)
  {
  }

  // ---------------------------------------------------------------- the data directory

  /**
   * A session directory as the browser sees it: its key, the activity
   * `load_activity` reads (None when it reads nothing), the GPS flag of the
   * tracking manifest (None without a manifest), the track points
   * `get_coordinates` gives, and the names in the photos directory (None
   * when there is none), in `iterdir` order.
   */
  datatype Session = Session(key: string, activity: Option<Activities.Activity>, manifestGps: Option<bool>,
                             coords: seq<(real, real)>, photoNames: Option<seq<string>>)

  /** An athlete directory: the user name and its sessions, in iteration order. */
  datatype Athlete = Athlete(username: string, sessions: seq<Session>)

  predicate SessionsValid(ss: seq<Session>)
  {
    forall k :: 0 <= k < |ss| && ss[k].activity.Some? ==> Activities.ActivityValid(ss[k].activity.value)
  }

  /** The activities were read from JSON files, so their datetimes are real ones. */
  predicate DirValid(dir: seq<Athlete>)
  {
    forall i :: 0 <= i < |dir| ==> SessionsValid(dir[i].sessions)
  }

  function Usernames(dir: seq<Athlete>): seq<string>
  {
    seq(|dir|, i requires 0 <= i < |dir| => dir[i].username)
  }

  // ---------------------------------------------------------------- the activity list

  /** One row of the list, as `_get_all_activities` builds it; the distance is in hundredths of a kilometre. */
  datatype ListEntry = ListEntry(sessionKey: string, username: string, name: string, activityType: string,
                                 date: string, distanceKm: int, movingTime: int, hasGps: bool,
                                 hasPhotos: bool, photoCount: int)

  /** `round(distance / 1000, 2) if distance else 0`, in hundredths of a kilometre. */
  function DistanceKm(metres: int): (r: int)
    ensures metres == 0 ==> r == 0
    ensures metres > 0 ==> r * 10 - 5 <= metres < r * 10 + 5
  {
    if metres == 0 then 0 else (metres + 5) / 10
  }

  function EntryOf(username: string, s: Session): (e: ListEntry)
    requires s.activity.Some? && Activities.ActivityValid(s.activity.value)
    ensures e.sessionKey == s.key && e.username == username
    ensures e.hasGps <==> s.manifestGps == Some(true)
  {
    var a := s.activity.value;
    ListEntry(s.key, username, a.name, a.activityType, MinuteText(a.startDate), DistanceKm(a.distance),
              a.movingTime, s.manifestGps.Some? && s.manifestGps.value, a.hasPhotos, a.photoCount)
  }

  /** The entries of one athlete's sessions that hold an activity, in order. */
  function SessionEntries(username: string, ss: seq<Session>): (es: seq<ListEntry>)
    requires SessionsValid(ss)
    ensures |es| <= |ss|
    decreases |ss|
  {
    if ss == [] then []
    else
      var last := ss[|ss| - 1];
      SessionEntries(username, ss[..|ss| - 1]) + (if last.activity.Some? then [EntryOf(username, last)] else [])
  }

  /** The entries of every athlete, before the sort. */
  function Collected(dir: seq<Athlete>): seq<ListEntry>
    requires DirValid(dir)
    decreases |dir|
  {
    if dir == [] then []
    else Collected(dir[..|dir| - 1]) + SessionEntries(dir[|dir| - 1].username, dir[|dir| - 1].sessions)
  }

  /** `sort(key=date, reverse=True)`: a later date first, equal dates in their original order. */
  predicate NotOlder(a: ListEntry, b: ListEntry) { LexLe(b.date, a.date) }

  /** `_get_all_activities`. */
  method AllActivities(dir: seq<Athlete>) returns (entries: seq<ListEntry>)
    requires DirValid(dir)
    ensures entries == SortBy(Collected(dir), NotOlder)
  {
    var collected: seq<ListEntry> := [];
    for i := 0 to |dir|
      invariant collected == Collected(dir[..i])
    {
      assert dir[..i + 1][..i] == dir[..i];
      var athlete := dir[i];
      for j := 0 to |athlete.sessions|
        invariant collected == Collected(dir[..i]) + SessionEntries(athlete.username, athlete.sessions[..j])
      {
        assert athlete.sessions[..j + 1][..j] == athlete.sessions[..j];
        var s := athlete.sessions[j];
        if s.activity.Some? {
          collected := collected + [EntryOf(athlete.username, s)];
        }
      }
      assert athlete.sessions[..|athlete.sessions|] == athlete.sessions;
    }
    assert dir[..|dir|] == dir;
    entries := SortBy(collected, NotOlder);
  }

  /** The list is newest first and holds every loaded session once. */
  lemma AllActivitiesOrdered(dir: seq<Athlete>)
    requires DirValid(dir)
    ensures OrderedBy(SortBy(Collected(dir), NotOlder), NotOlder)
    ensures multiset(SortBy(Collected(dir), NotOlder)) == multiset(Collected(dir))
  {
    forall a: ListEntry, b: ListEntry ensures NotOlder(a, b) || NotOlder(b, a) {
      LexLeTotal(a.date, b.date);
    }
    SortByOrdered(Collected(dir), NotOlder);
  }

  /** The sessions that hold an activity, in order. */
  function Loaded(ss: seq<Session>): (r: seq<Session>)
    ensures forall k :: 0 <= k < |r| ==> r[k].activity.Some? && r[k] in ss
    decreases |ss|
  {
    if ss == [] then []
    else Loaded(ss[..|ss| - 1]) + (if ss[|ss| - 1].activity.Some? then [ss[|ss| - 1]] else [])
  }

  /** A session without an activity is left out; each other one gives its entry, in order. */
  lemma {:induction false} SessionEntriesLoaded(username: string, ss: seq<Session>)
    requires SessionsValid(ss)
    ensures var l := Loaded(ss);
            && |SessionEntries(username, ss)| == |l|
            && forall k :: 0 <= k < |l| ==> SessionEntries(username, ss)[k] == EntryOf(username, l[k])
    decreases |ss|
  {
    if |ss| > 0 {
      var n := |ss| - 1;
      assert SessionsValid(ss[..n]);
      SessionEntriesLoaded(username, ss[..n]);
      var es, l := SessionEntries(username, ss[..n]), Loaded(ss[..n]);
      if ss[n].activity.Some? {
        var e := EntryOf(username, ss[n]);
        assert SessionEntries(username, ss) == es + [e];
        assert Loaded(ss) == l + [ss[n]];
        forall k | 0 <= k < |l| + 1 ensures (es + [e])[k] == EntryOf(username, (l + [ss[n]])[k]) {
          if k < |l| {
            assert (es + [e])[k] == es[k];
          }
        }
      } else {
        assert SessionEntries(username, ss) == es && Loaded(ss) == l;
      }
    }
  }

  // ---------------------------------------------------------------- the detail view

  /** What `_get_activity_data` returns for a session. */
  datatype Detail = Detail(sessionKey: string, username: string, activity: Activities.Activity, hasGps: bool,
                           coords: seq<(real, real)>, photos: seq<string>)

  /** `Path(name).suffix`: from the last dot, unless that dot starts or ends the name. */
  function Suffix(name: string): (r: string)
    ensures r == [] || (|r| < |name| && r[0] == '.' && r == name[|name| - |r|..])
  {
    var i := LastDot(name);
    if 0 < i < |name| - 1 then name[i..] else ""
  }

  /** The index of the last `.` in `s`, or -1. */
  function LastDot(s: string): (i: int)
    ensures -1 <= i < |s|
    ensures i >= 0 ==> s[i] == '.' && forall k :: i < k < |s| ==> s[k] != '.'
    ensures i == -1 ==> '.' !in s
    decreases |s|
  {
    if s == [] then -1 else if s[|s| - 1] == '.' then |s| - 1 else LastDot(s[..|s| - 1])
  }

  /** The names the detail view lists as photos: a `.jpg`, `.jpeg` or `.png` suffix in any case. */
  predicate IsImage(name: string)
  {
    Lower(Suffix(name)) in {".jpg", ".jpeg", ".png"}
  }

  lemma {:induction false} LastDotAppend(s: string, t: string)
    requires '.' !in t
    ensures LastDot(s + t) == LastDot(s)
    decreases |t|
  {
    if t != [] {
      assert (s + t)[..|s + t| - 1] == s + t[..|t| - 1];
      LastDotAppend(s, t[..|t| - 1]);
    } else {
      assert s + t == s;
    }
  }

  /**
   * The suffix is the last dotted part after a non-empty stem; a name that
   * only starts with a dot (a hidden file such as `.jpg`) has none.
   */
  lemma SuffixMeaning(stem: string, ext: string)
    requires '.' !in ext && ext != []
    ensures stem != [] ==> Suffix(stem + "." + ext) == "." + ext
    ensures Suffix("." + ext) == ""
  {
    LastDotAppend(stem + ".", ext);
    assert (stem + ".")[..|stem|] == stem;
    assert stem + "." + ext == (stem + ".") + ext;
    assert (stem + "." + ext)[|stem|..] == "." + ext;
    LastDotAppend(".", ext);
  }

  /**
   * After a non-empty stem, the name is an image exactly when its last dotted
   * part is one of the three in any case; a hidden file such as `.jpg` is not.
   */
  lemma IsImageMeaning(stem: string, ext: string)
    requires '.' !in ext && ext != []
    ensures stem != [] ==> (IsImage(stem + "." + ext) <==> Lower("." + ext) in {".jpg", ".jpeg", ".png"})
    ensures !IsImage("." + ext)
  {
    SuffixMeaning(stem, ext);
    assert Lower("") == "";
  }

  /** The URL of a photo of a session. */
  function PhotoUrl(username: string, sessionKey: string, name: string): (url: string)
    ensures "/photos/" <= url
  {
    "/photos/" + username + "/" + sessionKey + "/" + name
  }

  /** The photo URLs of the detail view: one per image name, in listing order. */
  function PhotoUrls(username: string, sessionKey: string, names: seq<string>): (urls: seq<string>)
    ensures |urls| <= |names|
    ensures forall u :: u in urls ==> exists n :: n in names && IsImage(n) && u == PhotoUrl(username, sessionKey, n)
    ensures forall n :: n in names && IsImage(n) ==> PhotoUrl(username, sessionKey, n) in urls
    decreases |names|
  {
    if names == [] then []
    else (if IsImage(names[0]) then [PhotoUrl(username, sessionKey, names[0])] else [])
         + PhotoUrls(username, sessionKey, names[1..])
  }

  /** A detail photo URL routes back to its user, session and file. */
  lemma PhotoUrlRoutesBack(username: string, sessionKey: string, name: string)
    requires '/' !in username && '/' !in sessionKey && '/' !in name
    requires sessionKey != "photos"
    ensures "/photos/" <= PhotoUrl(username, sessionKey, name)
    ensures PhotoRequest(PhotoUrl(username, sessionKey, name)) == Some(PhotoRef(username, sessionKey, name))
    ensures SafeFilename(name) <==> name != ".."
  {
    var rest := username + "/" + sessionKey + "/" + name;
    assert PhotoUrl(username, sessionKey, name) == "/photos/" + rest;
    NoPhotosSegment(username, sessionKey, name);
    PhotoRequestRoundTrip(username, sessionKey, name);
    ContainsChar(name, '/');
    SplitNoMatch(name, "/");
  }

  /** The only slashes of `u/k/f` are the two separators. */
  lemma SlashPositions(u: string, k: string, f: string, m: nat)
    requires '/' !in u && '/' !in k && '/' !in f && m < |u + "/" + k + "/" + f|
    ensures (u + "/" + k + "/" + f)[m] == '/' ==> m == |u| || m == |u| + 1 + |k|
  {
    var s := u + "/" + k + "/" + f;
    if m < |u| { assert s[m] == u[m]; }
    else if |u| < m < |u| + 1 + |k| { assert s[m] == k[m - |u| - 1]; }
    else if m > |u| + 1 + |k| { assert s[m] == f[m - |u| - |k| - 2]; }
  }

  /** With no slash inside the three names and a key other than `photos`, `/photos/` cannot occur. */
  lemma NoPhotosSegment(u: string, k: string, f: string)
    requires '/' !in u && '/' !in k && '/' !in f && k != "photos"
    ensures !Contains(u + "/" + k + "/" + f, "/photos/")
  {
    var s := u + "/" + k + "/" + f;
    forall j | 0 <= j <= |s| ensures !("/photos/" <= s[j..]) {
      if j + 8 <= |s| && s[j] == '/' && s[j + 7] == '/' {
        SlashPositions(u, k, f, j);
        SlashPositions(u, k, f, j + 7);
        assert j == |u| && |k| == 6;
        assert s[j + 1..j + 7] == k;
        assert s[j..][1..7] == k;
      }
    }
  }

  /** The first session with the key, across athletes in order, and its user. */
  function FirstSession(dir: seq<Athlete>, key: string): (r: Option<(string, Session)>)
    ensures r.Some? ==> r.value.1.key == key
    decreases |dir|
  {
    if dir == [] then None
    else match FirstIn(dir[0].sessions, key)
         case Some(s) => Some((dir[0].username, s))
         case None => FirstSession(dir[1..], key)
  }

  function FirstIn(ss: seq<Session>, key: string): (r: Option<Session>)
    ensures r.Some? ==> r.value.key == key && r.value in ss
    ensures r.None? <==> forall k :: 0 <= k < |ss| ==> ss[k].key != key
    decreases |ss|
  {
    if ss == [] then None else if ss[0].key == key then Some(ss[0]) else FirstIn(ss[1..], key)
  }

  function DetailOf(username: string, key: string, s: Session): (d: Detail)
    requires s.activity.Some?
    ensures d.hasGps <==> s.manifestGps == Some(true)
    ensures !d.hasGps ==> d.coords == []
    ensures d.photos == if s.photoNames.Some? then PhotoUrls(username, key, s.photoNames.value) else []
  {
    var gps := s.manifestGps.Some? && s.manifestGps.value;
    Detail(key, username, s.activity.value, gps, if gps then s.coords else [],
           if s.photoNames.Some? then PhotoUrls(username, key, s.photoNames.value) else [])
  }

  /**
   * `_get_activity_data`: the first session with the key decides; when it
   * holds no activity there is no data, even if a later athlete has one.
   */
  function ActivityDataOf(dir: seq<Athlete>, key: string): Option<Detail>
  {
    match FirstSession(dir, key)
    case None => None
    case Some((u, s)) => if s.activity.None? then None else Some(DetailOf(u, key, s))
  }

  lemma FirstSessionSkips(dir: seq<Athlete>, key: string, i: nat)
    requires i < |dir| && FirstIn(dir[i].sessions, key).None?
    ensures FirstSession(dir[i..], key) == FirstSession(dir[i + 1..], key)
  {
    assert dir[i..][1..] == dir[i + 1..];
  }

  /** `_get_activity_data`, the two loops and their early return. */
  method ActivityData(dir: seq<Athlete>, key: string) returns (d: Option<Detail>)
    ensures d == ActivityDataOf(dir, key)
  {
    for i := 0 to |dir|
      invariant FirstSession(dir, key) == FirstSession(dir[i..], key)
    {
      var athlete := dir[i];
      for j := 0 to |athlete.sessions|
        invariant FirstIn(athlete.sessions, key) == FirstIn(athlete.sessions[j..], key)
      {
        assert athlete.sessions[j..][1..] == athlete.sessions[j + 1..];
        var s := athlete.sessions[j];
        if s.key == key {
          assert FirstSession(dir[i..], key) == Some((athlete.username, s));
          if s.activity.None? {
            return None;
          }
          return Some(DetailOf(athlete.username, key, s));
        }
      }
      FirstSessionSkips(dir, key, i);
    }
    return None;
  }

  /** An unknown key has no data; a known one has data exactly when its first session holds an activity. */
  lemma ActivityDataMeaning(dir: seq<Athlete>, key: string)
    ensures (forall i, j :: 0 <= i < |dir| && 0 <= j < |dir[i].sessions| ==> dir[i].sessions[j].key != key)
            ==> ActivityDataOf(dir, key).None?
    ensures ActivityDataOf(dir, key).Some? ==>
              && FirstSession(dir, key).Some?
              && var (u, s) := FirstSession(dir, key).value;
                 ActivityDataOf(dir, key).value.sessionKey == key && ActivityDataOf(dir, key).value.username == u
  {
    if forall i, j :: 0 <= i < |dir| && 0 <= j < |dir[i].sessions| ==> dir[i].sessions[j].key != key {
      NoSessionNoFirst(dir, key);
    }
  }

  lemma {:induction false} NoSessionNoFirst(dir: seq<Athlete>, key: string)
    requires forall i, j :: 0 <= i < |dir| && 0 <= j < |dir[i].sessions| ==> dir[i].sessions[j].key != key
    ensures FirstSession(dir, key).None?
    decreases |dir|
  {
    if dir != [] {
      assert FirstIn(dir[0].sessions, key).None?;
      assert forall i, j :: 0 <= i < |dir[1..]| && 0 <= j < |dir[1..][i].sessions| ==> dir[1..][i].sessions[j] == dir[i + 1].sessions[j];
      NoSessionNoFirst(dir[1..], key);
    }
  }

  // ---------------------------------------------------------------- moving times

  /** The minutes and seconds of the list view; Python's `//` and `%` by 60. */
  function ListFields(t: int): (r: (int, int))
    ensures r.0 * 60 + r.1 == t && 0 <= r.1 < 60
  {
    (t / 60, t % 60)
  }

  /** `"{t // 60}m {t % 60}s"`. */
  function ListTime(t: int): string
  {
    IntToString(ListFields(t).0) + "m " + IntToString(ListFields(t).1) + "s"
  }

  /** The hours, minutes and seconds of the detail view. */
  function DetailFields(t: int): (r: (int, int, int))
    ensures r.0 * 3600 + r.1 * 60 + r.2 == t && 0 <= r.1 < 60 && 0 <= r.2 < 60
  {
    (t / 3600, (t % 3600) / 60, t % 60)
  }

  /** `"{h}h {m}m {s}s"`. */
  function DetailTime(t: int): string
  {
    IntToString(DetailFields(t).0) + "h " + IntToString(DetailFields(t).1) + "m " + IntToString(DetailFields(t).2) + "s"
  }

  /** The minutes of the list are the hours and minutes of the detail view together. */
  lemma TimesAgree(t: int)
    ensures ListFields(t).0 == DetailFields(t).0 * 60 + DetailFields(t).1
    ensures ListFields(t).1 == DetailFields(t).2
  {
    var (m, s) := ListFields(t);
    var (h, mm, ss) := DetailFields(t);
    assert m * 60 + s == (h * 60 + mm) * 60 + ss;
  }

  // ---------------------------------------------------------------- do_GET

  /** What a request gets; a photo file name is looked up as the URL gives it. */
  function Respond(target: string, dir: seq<Athlete>, dirs: PhotosDirs, present: seq<string> -> bool): Response
    requires DirValid(dir)
  {
    RouteAnswer(RouteOf(UrlPath(target)), dir, dirs, present)
  }

  /** The answer for one route. */
  function RouteAnswer(route: Route, dir: seq<Athlete>, dirs: PhotosDirs, present: seq<string> -> bool): Response
    requires DirValid(dir)
    requires route.PhotoPath? ==> "/photos/" <= route.path
  {
    match route
    case ListPage => ListAnswer(dir, false)
    case ListJson => ListAnswer(dir, true)
    case DetailPage(key) => DetailAnswer(dir, key, false)
    case DetailJson(key) => DetailAnswer(dir, key, true)
    case PhotoPath(p) => ServePhotoAsWritten(p, Usernames(dir), dirs, present)
    case StaticPath => NotFound("Not Found")
    case Unknown => NotFound("Not Found")
  }

  /** The activity list, as the page or as JSON. */
  function ListAnswer(dir: seq<Athlete>, json: bool): Response
    requires DirValid(dir)
  {
    var entries := SortBy(Collected(dir), NotOlder);
    if json then ListingJson(entries) else Listing(entries)
  }

  /** One activity, as the page or as JSON; not found when the session has no data. */
  function DetailAnswer(dir: seq<Athlete>, key: string, json: bool): Response
  {
    var d := ActivityDataOf(dir, key);
    if d.None? then NotFound("Activity not found")
    else if json then DetailJsonBody(d.value) else DetailView(d.value)
  }

  /** `do_GET`. */
  method DoGet(target: string, dir: seq<Athlete>, dirs: PhotosDirs, present: seq<string> -> bool) returns (r: Response)
    requires DirValid(dir)
    ensures r == Respond(target, dir, dirs, present)
  {
    var route := RouteOf(UrlPath(target));
    r := RouteResponse(route, dir, dirs, present);
  }

  /** The handler `do_GET` dispatches one route to. */
  method RouteResponse(route: Route, dir: seq<Athlete>, dirs: PhotosDirs, present: seq<string> -> bool) returns (r: Response)
    requires DirValid(dir)
    requires route.PhotoPath? ==> "/photos/" <= route.path
    ensures r == RouteAnswer(route, dir, dirs, present)
  {
    match route {
      case ListPage =>
        r := ListResponse(dir, false);
      case ListJson =>
        r := ListResponse(dir, true);
      case DetailPage(key) =>
        r := DetailResponse(dir, key, false);
      case DetailJson(key) =>
        r := DetailResponse(dir, key, true);
      case PhotoPath(p) =>
        r := ServePhotoAsWritten(p, Usernames(dir), dirs, present);
      case StaticPath =>
        r := NotFound("Not Found");
      case Unknown =>
        r := NotFound("Not Found");
    }
  }

  /** `_serve_activity_list` and `_serve_activities_json`: gather every activity, then render. */
  method ListResponse(dir: seq<Athlete>, json: bool) returns (r: Response)
    requires DirValid(dir)
    ensures r == ListAnswer(dir, json)
  {
    var entries := AllActivities(dir);
    r := if json then ListingJson(entries) else Listing(entries);
  }

  /** `_serve_activity_detail` and `_serve_activity_json`: look the session up, then render. */
  method DetailResponse(dir: seq<Athlete>, key: string, json: bool) returns (r: Response)
    ensures r == DetailAnswer(dir, key, json)
  {
    var d := ActivityData(dir, key);
    r := if d.None? then NotFound("Activity not found") else if json then DetailJsonBody(d.value) else DetailView(d.value);
  }

  /** A path without scheme, `?` and `#` is its own path, less its parameters. */
  lemma UrlPathPlain(path: string)
    requires '?' !in path && '#' !in path && !(|path| >= 2 && path[..2] == "//") && SchemeLength(path) == 0
    ensures UrlPath(path) == StripParams(path)
  {
    UrlPathLocal(path);
    FirstOfNone(path, {'?', '#'});
    assert path[..|path|] == path;
  }

  /**
   * The parameters are cut exactly when the last segment holds a `;`: then
   * the path ends just before the first `;` of that segment.
   */
  lemma StripParamsMeaning(p: string)
    ensures StripParams(p) == p <==> ';' !in p[AfterLastSlash(p)..]
    ensures StripParams(p) != p ==> |StripParams(p)| < |p| && p[|StripParams(p)|] == ';'
                                    && '/' !in p[|StripParams(p)|..]
  {
    var j := AfterLastSlash(p);
    var n := FirstOf(p[j..], {';'});
    if ';' !in p[j..] {
      FirstOfNone(p[j..], {';'});
    } else {
      assert p[j..][n] == p[j + n];
    }
  }

  lemma {:induction false} AfterLastSlashTail(a: string, b: string)
    requires forall k :: 0 <= k < |b| ==> b[k] != '/'
    ensures AfterLastSlash(a + "/" + b) == |a| + 1
    decreases |b|
  {
    var c := a + "/" + b;
    if b == [] {
      assert c[|c| - 1] == '/';
    } else {
      assert c[..|c| - 1] == a + "/" + b[..|b| - 1];
      assert c[|c| - 1] == b[|b| - 1];
      AfterLastSlashTail(a, b[..|b| - 1]);
    }
  }

  /**
   * The parameters of the last segment are cut: `/activity/k;x` is the path
   * `/activity/k`.
   */
  lemma LastSegmentParamsCut(a: string, k: string, x: string)
    requires forall i :: 0 <= i < |k| ==> k[i] != '/' && k[i] != ';'
    requires forall i :: 0 <= i < |x| ==> x[i] != '/'
    ensures StripParams(a + "/" + k + ";" + x) == a + "/" + k
  {
    var b := k + ";" + x;
    var p := a + "/" + k + ";" + x;
    assert p == a + "/" + b;
    AfterLastSlashTail(a, b);
    assert p[|a| + 1..] == b;
    assert b == k + (";" + x);
    FirstOfStops(k, ";" + x, {';'});
    assert p[..|a| + 1 + |k|] == a + "/" + k;
  }

  /**
   * Without a scheme and a leading `//` the path is the target up to its
   * query or fragment, less its parameters.
   */
  lemma UrlPathLocal(t: string)
    requires !(|t| >= 2 && t[0] == '/' && t[1] == '/') && SchemeLength(t) == 0
    ensures UrlPath(t) == StripParams(t[..FirstOf(t, {'?', '#'})])
  {
    NoSchemeParams(t);
    NoSchemeNoNetloc(t);
    UrlPathUnchanged(t);
  }

  /** Without a scheme and a leading `//` nothing is cut from the front of the target. */
  lemma NoSchemeNoNetloc(t: string)
    requires !(|t| >= 2 && t[0] == '/' && t[1] == '/') && SchemeLength(t) == 0
    ensures AfterNetloc(AfterScheme(t)) == t
  {
  }

  /** A target that neither its scheme nor its network location shortens keeps its path and its parameters. */
  lemma UrlPathUnchanged(t: string)
    requires ParamsScheme(t) && AfterNetloc(AfterScheme(t)) == t
    ensures UrlPath(t) == StripParams(t[..FirstOf(t, {'?', '#'})])
  {
  }

  /** The query and the fragment never change the route. */
  lemma QueryIgnored(path: string, c: char, rest: string)
    requires '?' !in path && '#' !in path && !(|path| >= 2 && path[..2] == "//") && SchemeLength(path) == 0
    requires c == '?' || c == '#'
    ensures UrlPath(path + [c] + rest) == StripParams(path)
  {
    var t := path + [c] + rest;
    FirstOfStops(path, [c] + rest, {'?', '#'});
    assert t == path + ([c] + rest);
    if |path| >= 2 {
      assert path[..2] == [path[0], path[1]];
    }
    assert forall k :: 0 <= k < |path| ==> t[k] == path[k];
    assert t[|path|] == c;
    if ':' in path {
      FirstOfPrefix(path, [c] + rest, {':'});
    }
    assert SchemeLength(t) == 0;
    UrlPathLocal(t);
  }

  /** A stop inside `s` is found there, whatever follows `s`. */
  lemma FirstOfPrefix(s: string, t: string, stops: set<char>)
    requires exists k :: 0 <= k < |s| && s[k] in stops
    ensures FirstOf(s + t, stops) == FirstOf(s, stops) < |s|
  {
    var j := FirstOf(s, stops);
    assert forall k :: 0 <= k < |s| ==> (s + t)[k] == s[k];
  }

  /**
   * An absolute-form target `scheme://host/path` routes by its path alone:
   * the scheme and the network location are cut off, and so are the path's
   * parameters when the scheme uses them.
   */
  lemma AbsoluteFormPath(scheme: string, host: string, path: string)
    requires |scheme| > 0 && ('a' <= scheme[0] <= 'z' || 'A' <= scheme[0] <= 'Z')
    requires forall k :: 0 <= k < |scheme| ==> SchemeChar(scheme[k])
    requires forall k :: 0 <= k < |host| ==> host[k] !in {'/', '?', '#'}
    requires |path| > 0 && path[0] == '/' && '?' !in path && '#' !in path
    ensures UrlPath(scheme + "://" + host + path) == if Lower(scheme) in UsesParams then StripParams(path) else path
  {
    var t := scheme + "://" + host + path;
    SchemeCut(scheme, "//" + host + path);
    assert t == scheme + ":" + ("//" + host + path);
    NetlocCut(host, path);
    UrlPathOfRest(t, path);
  }

  /** A scheme followed by a colon is cut off, and decides whether parameters are cut. */
  lemma SchemeCut(scheme: string, rest: string)
    requires |scheme| > 0 && ('a' <= scheme[0] <= 'z' || 'A' <= scheme[0] <= 'Z')
    requires forall k :: 0 <= k < |scheme| ==> SchemeChar(scheme[k])
    ensures SchemeLength(scheme + ":" + rest) == |scheme|
    ensures AfterScheme(scheme + ":" + rest) == rest
    ensures ParamsScheme(scheme + ":" + rest) == (Lower(scheme) in UsesParams)
  {
    var t := scheme + ":" + rest;
    assert t == scheme + (":" + rest);
    FirstOfStops(scheme, ":" + rest, {':'});
    assert t[..|scheme|] == scheme;
    assert t[|scheme| + 1..] == rest;
  }

  /** A `//` network location ends at the `/` that starts the path. */
  lemma NetlocCut(host: string, path: string)
    requires forall k :: 0 <= k < |host| ==> host[k] !in {'/', '?', '#'}
    requires |path| > 0 && path[0] == '/'
    ensures AfterNetloc("//" + host + path) == path
  {
    var after := "//" + host + path;
    assert after[..2] == "//";
    assert after[2..] == host + path;
    FirstOfStops(host, path, {'/', '?', '#'});
    assert after[2 + |host|..] == path;
  }

  /** Once scheme and network location are cut, a rest without query and fragment is the path. */
  lemma UrlPathOfRest(t: string, rest: string)
    requires AfterNetloc(AfterScheme(t)) == rest && '?' !in rest && '#' !in rest
    ensures UrlPath(t) == if ParamsScheme(t) then StripParams(rest) else rest
  {
    FirstOfNone(rest, {'?', '#'});
    assert rest[..|rest|] == rest;
  }

  lemma {:induction false} FirstOfNone(s: string, stops: set<char>)
    requires forall k :: 0 <= k < |s| ==> s[k] !in stops
    ensures FirstOf(s, stops) == |s|
    decreases |s|
  {
    if s != [] {
      FirstOfNone(s[1..], stops);
    }
  }

  lemma FirstOfStops(s: string, t: string, stops: set<char>)
    requires (forall k :: 0 <= k < |s| ==> s[k] !in stops) && t != [] && t[0] in stops
    ensures FirstOf(s + t, stops) == |s| && (s + t)[..|s|] == s
  {
    assert forall k :: 0 <= k < |s| ==> (s + t)[k] == s[k];
    assert (s + t)[|s|] == t[0];
    assert (s + t)[..|s|] == s;
  }
}
