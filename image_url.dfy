/** Image addresses as the dashboards build them: a value that already is
    an http or https URL is kept, any other path is served by the API and
    joined to its base address with a single slash between them. */
module ImageUrl {
  import opened Text
  import Http

  /** `s.startsWith('http://') || s.startsWith('https://')`. */
  predicate IsAbsolute(s: string) {
    StartsWith(s, "http://") || StartsWith(s, "https://")
  }

  /** `base.endsWith('/') ? base.slice(0, -1) : base`. */
  function WithoutTrailingSlash(base: string): (b: string)
    ensures EndsWith(base, "/") ==> |base| >= 1 && b == base[..|base| - 1]
    ensures !EndsWith(base, "/") ==> b == base
  {
    if EndsWith(base, "/") then base[..|base| - 1] else base
  }

  /** `path.startsWith('/') ? path : '/' + path`. */
  function Rooted(path: string): (p: string)
    ensures StartsWith(p, "/")
    ensures StartsWith(path, "/") ==> p == path
    ensures !StartsWith(path, "/") ==> p == "/" + path
  {
    if StartsWith(path, "/") then path else "/" + path
  }

  /** The base without its trailing slash followed by the rooted path. */
  function Joined(base: string, path: string): string {
    WithoutTrailingSlash(base) + Rooted(path)
  }

  /** What both dashboards do with a present path: keep a full URL, join
      anything else to the API base. */
  function Resolve(path: string): (r: string)
    ensures IsAbsolute(path) ==> r == path
    ensures !IsAbsolute(path) ==> r == Joined(Http.ApiBase, path)
  {
    if IsAbsolute(path) then path else Joined(Http.ApiBase, path)
  }

  /** The joined address is the trimmed base, one slash, and the path
      without its leading slash (if it had one). */
  lemma JoinedShape(base: string, path: string)
    ensures var b := WithoutTrailingSlash(base);
      var r := Joined(base, path);
      |r| > |b| && r[..|b|] == b && r[|b|] == '/' &&
      r[|b| + 1..] == (if StartsWith(path, "/") then path[1..] else path)
  {
    var b := WithoutTrailingSlash(base);
    var r := Joined(base, path);
    assert r[|b|..] == Rooted(path);
    if StartsWith(path, "/") {
      assert path[..1] == "/";
    }
  }

  /** A relative path that does not start with two slashes is served from
      the API base with exactly one slash between the base and the rest of
      the path, which then does not start with a slash. */
  lemma OneSlash(path: string)
    requires !IsAbsolute(path) && !StartsWith(path, "//")
    ensures var q := if StartsWith(path, "/") then path[1..] else path;
      Resolve(path) == Http.ApiBase + "/" + q && !StartsWith(q, "/")
  {
    assert Http.ApiBase[|Http.ApiBase| - 1] == '2';
    assert !EndsWith(Http.ApiBase, "/");
    JoinedShape(Http.ApiBase, path);
    var q := if StartsWith(path, "/") then path[1..] else path;
    var r := Resolve(path);
    assert r[..|Http.ApiBase|] == Http.ApiBase && r[|Http.ApiBase|] == '/' && r[|Http.ApiBase| + 1..] == q;
    assert r == Http.ApiBase + "/" + q;
    if StartsWith(path, "/") && |q| >= 1 {
      assert path[..2] == [path[0], q[0]];
    }
  }
}
