/** The route table of the single-page app: every declared path pattern
    and, for the three dashboards, the role its guard requires. */
module Routes {
  import opened Text

  /** A segment of a declared path pattern: literal text, or a `:name`
      parameter that matches any one segment. */
  datatype PatternSegment = Lit(text: string) | Param(name: string)

  /** A declared route: its path pattern, as segments, and the role its
      `ProtectedRoute` wrapper requires (None for a public route). */
  datatype Route = Route(pattern: seq<PatternSegment>, guard: Option<string>)

  /** The routes in declaration order; `[]` is the pattern "/". */
  const Table: seq<Route> := [
    Route([], None),
    Route([Lit("login")], None),
    Route([Lit("signup")], None),
    Route([Lit("chefs")], None),
    Route([Lit("recipes")], None),
    Route([Lit("about")], None),
    Route([Lit("gallery")], None),
    Route([Lit("maindishes")], None),
    Route([Lit("fastfood")], None),
    Route([Lit("dessert")], None),
    Route([Lit("chef-profile"), Param("id")], None),
    Route([Lit("chef-dashboard")], Some("Chef")),
    Route([Lit("admin-dashboard")], Some("Admin")),
    Route([Lit("foodlover-dashboard")], Some("FoodLover"))
  ]

  /** Length of the leading run of non-'/' characters. */
  function SegmentLength(s: string): (n: nat)
    ensures n <= |s|
    ensures forall i :: 0 <= i < n ==> s[i] != '/'
    ensures n == |s| || s[n] == '/'
    ensures s != "" && s[0] != '/' ==> n >= 1
  {
    if s == "" || s[0] == '/' then 0 else 1 + SegmentLength(s[1..])
  }

  /** The non-empty '/'-separated segments of a path, in order. */
  function Segments(path: string): (r: seq<string>)
    ensures forall k :: 0 <= k < |r| ==> r[k] != "" && '/' !in r[k]
    decreases |path|
  {
    if path == "" then []
    else if path[0] == '/' then Segments(path[1..])
    else
      var n := SegmentLength(path);
      [path[..n]] + Segments(path[n..])
  }

  predicate SegmentMatches(p: PatternSegment, segment: string) {
    p.Param? || p.text == segment
  }

  /** Whether a path, given by its segments, matches a pattern. */
  predicate Matches(pattern: seq<PatternSegment>, segments: seq<string>) {
    |pattern| == |segments| && forall k :: 0 <= k < |pattern| ==> SegmentMatches(pattern[k], segments[k])
  }

  /** The index of the first route in `routes` at or after `from` that
      matches the segments, if any. */
  function MatchIndex(routes: seq<Route>, segments: seq<string>, from: nat): (r: Option<nat>)
    requires from <= |routes|
    ensures r.Some? ==> from <= r.value < |routes| && Matches(routes[r.value].pattern, segments)
    ensures r.Some? ==> forall i :: from <= i < r.value ==> !Matches(routes[i].pattern, segments)
    ensures r.None? ==> forall i :: from <= i < |routes| ==> !Matches(routes[i].pattern, segments)
    decreases |routes| - from
  {
    if from == |routes| then None
    else if Matches(routes[from].pattern, segments) then Some(from)
    else MatchIndex(routes, segments, from + 1)
  }

  /** What navigating to a path shows: None when no route matches (the
      router renders nothing), otherwise the matching route's guard. */
  function GuardOf(path: string): Option<Option<string>> {
    match MatchIndex(Table, Segments(path), 0)
    case None => None
    case Some(i) => Some(Table[i].guard)
  }

  /** A path is public when a route matches it and that route has no guard. */
  predicate IsPublic(path: string) {
    GuardOf(path) == Some(None)
  }

  lemma {:induction false} SegmentLengthOfPlain(s: string)
    requires '/' !in s
    ensures SegmentLength(s) == |s|
  {
    if s != "" {
      assert s[0] in s;
      assert s == [s[0]] + s[1..];
      SegmentLengthOfPlain(s[1..]);
    }
  }

  /** "/name" has the single segment name when name is slash-free. */
  lemma {:induction false} OneSegment(name: string)
    requires name != "" && '/' !in name
    ensures Segments("/" + name) == [name]
  {
    var p := "/" + name;
    assert p[1..] == name;
    assert Segments(p) == Segments(name);
    assert name[0] in name;
    SegmentLengthOfPlain(name);
    assert name[..|name|] == name;
    assert name[|name|..] == "";
    assert Segments(name) == [name] + Segments("");
  }

  /** "/a/b" has the segments a and b when both are slash-free. */
  lemma {:induction false} TwoSegments(a: string, b: string)
    requires a != "" && '/' !in a && b != "" && '/' !in b
    ensures Segments("/" + a + "/" + b) == [a, b]
  {
    var p := "/" + a + "/" + b;
    var q := a + ("/" + b);
    assert p[1..] == q;
    assert Segments(p) == Segments(q);
    assert a[0] in a;
    SegmentLengthPrefix(a, "/" + b);
    assert q[..|a|] == a;
    assert q[|a|..] == "/" + b;
    assert Segments(q) == [a] + Segments("/" + b);
    OneSegment(b);
  }

  lemma {:induction false} SegmentLengthPrefix(a: string, rest: string)
    requires '/' !in a && rest != "" && rest[0] == '/'
    ensures SegmentLength(a + rest) == |a|
    decreases |a|
  {
    if a == "" {
      assert a + rest == rest;
    } else {
      assert a[0] in a;
      assert a == [a[0]] + a[1..];
      assert (a + rest)[1..] == a[1..] + rest;
      SegmentLengthPrefix(a[1..], rest);
    }
  }

  lemma RootHasNoSegments()
    ensures Segments("/") == []
  {
    assert "/"[1..] == "";
  }

  /** All declared route patterns are distinct. */
  lemma PatternsDistinct()
    ensures forall i, j :: 0 <= i < j < |Table| ==> Table[i].pattern != Table[j].pattern
  {
  }

  /** Every declared pattern other than "/" starts with a literal segment,
      and no two declared patterns start with the same one. */
  lemma FirstSegmentsDistinct()
    ensures forall i :: 1 <= i < |Table| ==> |Table[i].pattern| >= 1 && Table[i].pattern[0].Lit?
    ensures forall i, j :: 1 <= i < j < |Table| ==> Table[i].pattern[0].text != Table[j].pattern[0].text
    ensures Table[0].pattern == []
  {
  }

  /** Every path matches at most one declared route, so route selection
      does not depend on declaration order. */
  lemma AtMostOneMatch(segments: seq<string>, i: nat, j: nat)
    requires i < |Table| && j < |Table|
    requires Matches(Table[i].pattern, segments) && Matches(Table[j].pattern, segments)
    ensures i == j
  {
    FirstSegmentsDistinct();
    if segments != [] {
      assert i != 0 && j != 0;
      assert SegmentMatches(Table[i].pattern[0], segments[0]);
      assert SegmentMatches(Table[j].pattern[0], segments[0]);
    }
  }

  /** A path whose segments are exactly those of the route at index i
      (with any value for a parameter) selects route i. */
  lemma {:induction false} Selects(path: string, i: nat)
    requires i < |Table| && Matches(Table[i].pattern, Segments(path))
    ensures GuardOf(path) == Some(Table[i].guard)
  {
    var m := MatchIndex(Table, Segments(path), 0);
    assert m.Some?;
    AtMostOneMatch(Segments(path), i, m.value);
  }

  /** Navigating to a one-segment path selects the route declared with it. */
  lemma {:induction false} SelectsPlain(name: string, i: nat)
    requires name != "" && '/' !in name
    requires i < |Table| && Table[i].pattern == [Lit(name)]
    ensures GuardOf("/" + name) == Some(Table[i].guard)
  {
    OneSegment(name);
    Selects("/" + name, i);
  }

  /** Exactly the last three declared routes, the dashboards, are guarded. */
  lemma GuardedRoutes()
    ensures forall i :: 0 <= i < |Table| ==> (Table[i].guard.Some? <==> 11 <= i)
  {
  }

  /** The chef dashboard requires the role Chef. */
  lemma ChefDashboardGuard()
    ensures GuardOf("/chef-dashboard") == Some(Some("Chef"))
  {
    assert "/chef-dashboard" == "/" + "chef-dashboard";
    SelectsPlain("chef-dashboard", 11);
  }

  /** The admin dashboard requires the role Admin. */
  lemma AdminDashboardGuard()
    ensures GuardOf("/admin-dashboard") == Some(Some("Admin"))
  {
    assert "/admin-dashboard" == "/" + "admin-dashboard";
    SelectsPlain("admin-dashboard", 12);
  }

  /** The food lover dashboard requires the role FoodLover. */
  lemma FoodLoverDashboardGuard()
    ensures GuardOf("/foodlover-dashboard") == Some(Some("FoodLover"))
  {
    assert "/foodlover-dashboard" == "/" + "foodlover-dashboard";
    SelectsPlain("foodlover-dashboard", 13);
  }

  /** The home page is public. */
  lemma HomePublic()
    ensures IsPublic("/")
  {
    RootHasNoSegments();
    Selects("/", 0);
  }

  /** The login page is public. */
  lemma LoginPublic()
    ensures IsPublic("/login")
  {
    assert "/login" == "/" + "login";
    SelectsPlain("login", 1);
  }

  /** The main dishes category page is public. */
  lemma MainDishesPublic()
    ensures IsPublic("/maindishes")
  {
    assert "/maindishes" == "/" + "maindishes";
    SelectsPlain("maindishes", 7);
  }

  /** The fast food category page is public. */
  lemma FastFoodPublic()
    ensures IsPublic("/fastfood")
  {
    assert "/fastfood" == "/" + "fastfood";
    SelectsPlain("fastfood", 8);
  }

  /** The dessert category page is public. */
  lemma DessertPublic()
    ensures IsPublic("/dessert")
  {
    assert "/dessert" == "/" + "dessert";
    SelectsPlain("dessert", 9);
  }

  /** A concrete chef profile path selects the public parameterised route. */
  lemma ChefProfilePublic(id: string)
    requires id != "" && '/' !in id
    ensures IsPublic("/chef-profile/" + id)
  {
    var p := "/chef-profile/" + id;
    assert p == "/" + "chef-profile" + "/" + id;
    TwoSegments("chef-profile", id);
    Selects(p, 10);
  }
}
