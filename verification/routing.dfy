/**
 * The request predicates the service worker registers routes with: the
 * app-shell navigation route and the same-origin image route.
 */
module Routing {

  /** `Request.mode`. */
  datatype RequestMode = Navigate | SameOrigin | NoCors | Cors

  /**
   * The regular expression `/[^/?]+\.[^/]+$` matches `p` with its `/` at
   * index `i` and its `.` at index `j`: at least one character other than `/`
   * and `?` between them, and at least one character, none of them `/`, from
   * after the `.` to the end.
   */
  ghost predicate ExtensionMatchAt(p: string, i: int, j: int)
  {
    0 <= i && i + 1 < j && j + 1 < |p| && p[i] == '/' && p[j] == '.'
    && (forall k :: i < k < j ==> p[k] != '/' && p[k] != '?')
    && (forall k :: j < k < |p| ==> p[k] != '/')
  }

  /** `p.match(fileExtensionRegexp)` succeeds (the expression is not anchored at the start). */
  ghost predicate FileExtensionMatch(p: string)
  {
    exists i, j :: ExtensionMatchAt(p, i, j)
  }

  /** The index of the last `c` in `s`, or -1. */
  function LastIndexOf(s: string, c: char): (r: int)
    ensures -1 <= r < |s|
    ensures r >= 0 ==> s[r] == c
    ensures forall k :: r < k < |s| ==> s[k] != c
    decreases |s|
  {
    if s == [] then -1
    else if s[|s| - 1] == c then |s| - 1
    else LastIndexOf(s[..|s| - 1], c)
  }

  /** The index of the first `c` in `s`, or `|s|`. */
  function IndexOf(s: string, c: char): (r: nat)
    ensures r <= |s|
    ensures r < |s| ==> s[r] == c
    ensures forall k :: 0 <= k < r ==> s[k] != c
    decreases |s|
  {
    if s == [] then 0
    else if s[0] == c then 0
    else 1 + IndexOf(s[1..], c)
  }

  /**
   * The regular expression decided on the last path segment: there must be a
   * `/`, and the segment after the last one must hold a `.` that has at least
   * one character before it, no `?` before it, and at least one character
   * after it.
   */
  function HasFileExtension(p: string): bool
  {
    var i := LastIndexOf(p, '/');
    if i < 0 then false
    else
      var segment := p[i + 1..];
      var end := IndexOf(segment, '?');
      var limit := if end < |segment| - 1 then end else |segment| - 1;
      1 <= limit && '.' in segment[1..limit]
  }

  lemma HasFileExtensionIsRegexMatch(p: string)
    ensures HasFileExtension(p) <==> FileExtensionMatch(p)
  {
    var i := LastIndexOf(p, '/');
    if HasFileExtension(p) {
      var segment := p[i + 1..];
      var end := IndexOf(segment, '?');
      var limit := if end < |segment| - 1 then end else |segment| - 1;
      var d :| 1 <= d < limit && segment[d] == '.';
      assert ExtensionMatchAt(p, i, i + 1 + d) by {
        forall k | i < k < i + 1 + d ensures p[k] != '/' && p[k] != '?' {
          assert p[k] == segment[k - i - 1];
        }
      }
    }
    if FileExtensionMatch(p) {
      var a, b :| ExtensionMatchAt(p, a, b);
      assert i == a;
      var segment := p[i + 1..];
      var end := IndexOf(segment, '?');
      var d := b - i - 1;
      assert segment[d] == '.';
      assert d < end;
      var limit := if end < |segment| - 1 then end else |segment| - 1;
      assert segment[1..limit][d - 1] == '.';
    }
  }

  /**
   * The app-shell route: navigations, except to paths starting with `/_` and
   * to paths whose last segment looks like a file name, are served
   * `index.html`.
   */
  function NavigationRoute(mode: RequestMode, pathname: string): (r: bool)
    ensures r <==> mode == Navigate && !("/_" <= pathname) && !FileExtensionMatch(pathname)
  {
    HasFileExtensionIsRegexMatch(pathname);
    if mode != Navigate then false
    else if "/_" <= pathname then false
    else if HasFileExtension(pathname) then false
    else true
  }

  /** `s.endsWith(suffix)`. */
  function EndsWith(s: string, suffix: string): (r: bool)
    ensures r <==> exists k :: 0 <= k <= |s| && s[k..] == suffix
  {
    |suffix| <= |s| && s[|s| - |suffix|..] == suffix
  }

  /** The image route: same-origin requests for paths ending in `.png`. */
  function ImageRoute(urlOrigin: string, selfOrigin: string, pathname: string): (r: bool)
    ensures r <==> urlOrigin == selfOrigin && exists k :: 0 <= k <= |pathname| && pathname[k..] == ".png"
  {
    urlOrigin == selfOrigin && EndsWith(pathname, ".png")
  }

  /** Every same-origin path that is some name followed by `.png` is routed to the image cache. */
  lemma ImageRouteTakesEveryPng(origin: string, stem: string)
    ensures ImageRoute(origin, origin, stem + ".png")
  {
  }

  /** A plain route is served the app shell. */
  lemma PlainRouteIsServedShell()
    ensures forall m :: NavigationRoute(m, "/about") <==> m == Navigate
  {
    assert "/about"[1] != '_';
  }

  /** A path whose last segment is a file name is left to the network. */
  lemma FileNameIsNotServedShell()
    ensures !NavigationRoute(Navigate, "/static/logo.svg")
    ensures !NavigationRoute(Navigate, "/_next/page")
  {
    assert ExtensionMatchAt("/static/logo.svg", 7, 12);
  }

  /** A path ending in `/` never looks like a file name. */
  lemma TrailingSlashIsNoFileName(p: string)
    requires |p| > 0 && p[|p| - 1] == '/'
    ensures !FileExtensionMatch(p)
  {
  }

  /** A `.` that only appears after a `?` in the last segment does not make a file name. */
  lemma DotAfterQueryIsNoFileName(p: string, q: nat)
    requires q < |p| && p[q] == '?'
    requires forall k :: 0 <= k < q && (forall m :: k < m < q ==> p[m] != '/') ==> p[k] != '.'
    requires forall k :: q < k < |p| ==> p[k] != '/'
    ensures !FileExtensionMatch(p)
  {
  }

  /** Examples: a `.` inside the query or in a directory name is served the shell. */
  lemma DotsOutsideFileNamesAreServedShell()
    ensures NavigationRoute(Navigate, "/search?q=a.b")
    ensures NavigationRoute(Navigate, "/v1.2/")
    ensures NavigationRoute(Navigate, "/v1.2/s?q=a.b")
  {
    DotAfterQueryIsNoFileName("/search?q=a.b", 7);
    assert "/v1.2/s?q=a.b"[5] == '/';
    DotAfterQueryIsNoFileName("/v1.2/s?q=a.b", 7);
    assert "/v1.2/s?q=a.b"[1] != '_';
    TrailingSlashIsNoFileName("/v1.2/");
    assert "/search?q=a.b"[1] != '_' && "/v1.2/"[1] != '_';
  }
}
