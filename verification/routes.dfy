/** Route selection at the edge and the path join at the connector.
    internal/edge/edge.go, internal/connector/proxy.go */
module Routes {

  /** What selection looks at. The empty string means that the field is not set. */
  datatype Route = Route(name: string, host: string, prefix: string, exact: string)

  datatype Match = NoMatch | Match(route: Route, suffix: string)

  function Weight(r: Route): nat { |r.prefix| + |r.exact| }

  // The order of the routes.

  /** Where x goes in a sorted list: behind everything that is at least as heavy. */
  function Place(s: seq<Route>, x: Route): seq<Route> {
    if s == [] then [x]
    else if Weight(s[|s| - 1]) >= Weight(x) then s + [x]
    else Place(s[..|s| - 1], x) + [s[|s| - 1]]
  }

  function Sorted(s: seq<Route>): seq<Route> {
    if s == [] then [] else Place(Sorted(s[..|s| - 1]), s[|s| - 1])
  }

  predicate Descending(s: seq<Route>) {
    forall i, j :: 0 <= i < j < |s| ==> Weight(s[i]) >= Weight(s[j])
  }

  /** The routes of one weight, in their order. */
  function OfWeight(s: seq<Route>, w: nat): seq<Route> {
    if s == [] then []
    else OfWeight(s[..|s| - 1], w) + (if Weight(s[|s| - 1]) == w then [s[|s| - 1]] else [])
  }

  lemma {:induction false} PlaceDescends(s: seq<Route>, x: Route)
    requires Descending(s)
    ensures Descending(Place(s, x))
    ensures forall r :: r in Place(s, x) <==> r == x || r in s
  {
    if s != [] && Weight(s[|s| - 1]) < Weight(x) {
      var init, last := s[..|s| - 1], s[|s| - 1];
      PlaceDescends(init, x);
      assert s == init + [last];
      forall i | 0 <= i < |Place(init, x)|
        ensures Weight(Place(init, x)[i]) >= Weight(last)
      {
        assert Place(init, x)[i] in Place(init, x);
      }
    }
  }

  lemma {:induction false} PlaceOfWeight(s: seq<Route>, x: Route, w: nat)
    requires Descending(s)
    ensures OfWeight(Place(s, x), w) == OfWeight(s, w) + (if Weight(x) == w then [x] else [])
  {
    if s == [] {
      assert [x][..0] == [];
    } else {
      var init, last := s[..|s| - 1], s[|s| - 1];
      if Weight(last) >= Weight(x) {
        assert (s + [x])[..|s|] == s;
      } else {
        PlaceOfWeight(init, x, w);
        var p := Place(init, x);
        assert (p + [last])[..|p|] == p;
        if Weight(x) == w {
          NoneHeavier(init, x, last, w);
        }
      }
    }
  }

  /** Below a lighter last element, x is put in front of it without passing an equal. */
  lemma NoneHeavier(init: seq<Route>, x: Route, last: Route, w: nat)
    requires Weight(x) == w && Weight(last) < w
    ensures (OfWeight(init, w) + [x]) + (if Weight(last) == w then [last] else [])
         == (OfWeight(init, w) + (if Weight(last) == w then [last] else [])) + [x]
  {
  }

  /** The result is sorted, and within one weight the given order is kept: this is
      what a stable sort is. */
  lemma {:induction false} SortedIsStable(s: seq<Route>)
    ensures Descending(Sorted(s))
    ensures forall w: nat :: OfWeight(Sorted(s), w) == OfWeight(s, w)
  {
    if s != [] {
      var init, last := s[..|s| - 1], s[|s| - 1];
      SortedIsStable(init);
      PlaceDescends(Sorted(init), last);
      forall w: nat
        ensures OfWeight(Sorted(s), w) == OfWeight(s, w)
      {
        PlaceOfWeight(Sorted(init), last, w);
      }
    }
  }

  lemma SortedDescends(s: seq<Route>)
    ensures Descending(Sorted(s))
  {
    SortedIsStable(s);
  }

  lemma SortedStep(s: seq<Route>, n: nat)
    requires n < |s|
    ensures Sorted(s[..n + 1]) == Place(Sorted(s[..n]), s[n])
  {
    assert s[..n + 1][..n] == s[..n];
  }

  /** sortRoutes: the slice is sorted in place. */
  method SortRoutes(a: array<Route>)
    modifies a
    ensures a[..] == Sorted(old(a[..]))
  {
    ghost var was := a[..];
    for n := 0 to a.Length
      invariant a[..n] == Sorted(was[..n]) && a[n..] == was[n..]
    {
      ghost var before := a[..];
      assert before[..n] == a[..n] && before[n..] == a[n..];
      var k := Insert(a, n);
      Inserted(was, before, a[..], n, k);
      assert a[..n + 1] == a[..][..n + 1] && a[n + 1..] == a[..][n + 1..];
    }
    assert a[..] == a[..a.Length] && was[..a.Length] == was;
  }

  /** Move element n down to its place among the first n: here k. */
  method Insert(a: array<Route>, n: nat) returns (k: nat)
    requires n < a.Length
    modifies a
    ensures k <= n && a[k] == old(a[n])
    ensures k > 0 ==> Weight(old(a[k - 1])) >= Weight(a[k])
    ensures forall i :: 0 <= i < k ==> a[i] == old(a[i])
    ensures forall i :: k < i <= n ==> a[i] == old(a[i - 1])
    ensures forall i :: k <= i < n ==> Weight(old(a[i])) < Weight(a[k])
    ensures forall i :: n < i < a.Length ==> a[i] == old(a[i])
  {
    var x := a[n];
    k := n;
    while k > 0 && Weight(a[k - 1]) < Weight(x)
      invariant k <= n
      invariant forall i :: 0 <= i < k ==> a[i] == old(a[i])
      invariant forall i :: k < i <= n ==> a[i] == old(a[i - 1])
      invariant forall i :: k <= i < n ==> Weight(old(a[i])) < Weight(x)
      invariant forall i :: n < i < a.Length ==> a[i] == old(a[i])
    {
      a[k] := a[k - 1];
      k := k - 1;
    }
    a[k] := x;
  }

  /** One more element in its place: one more element of the list sorted. */
  lemma Inserted(was: seq<Route>, before: seq<Route>, after: seq<Route>, n: nat, k: nat)
    requires |was| == |before| == |after| && k <= n < |was|
    requires before[..n] == Sorted(was[..n]) && before[n..] == was[n..]
    requires after[k] == before[n] && (k > 0 ==> Weight(before[k - 1]) >= Weight(before[n]))
    requires forall i :: 0 <= i < k ==> after[i] == before[i]
    requires forall i :: k < i <= n ==> after[i] == before[i - 1]
    requires forall i :: k <= i < n ==> Weight(before[i]) < Weight(before[n])
    requires forall i :: n < i < |was| ==> after[i] == before[i]
    ensures after[..n + 1] == Sorted(was[..n + 1]) && after[n + 1..] == was[n + 1..]
  {
    SortedStep(was, n);
    Spliced(before, after, n, k);
    assert before[n] == before[n..][0] == was[n];
    assert before[n + 1..] == before[n..][1..] && was[n + 1..] == was[n..][1..];
    PlacedAt(before, n, k);
  }

  lemma PlacedAt(before: seq<Route>, n: nat, k: nat)
    requires k <= n < |before|
    requires k > 0 ==> Weight(before[k - 1]) >= Weight(before[n])
    requires forall i :: k <= i < n ==> Weight(before[i]) < Weight(before[n])
    ensures Place(before[..n], before[n]) == before[..k] + [before[n]] + before[k..n]
  {
    PlaceAt(before[..n], k, before[n]);
    assert before[..n][..k] == before[..k] && before[..n][k..] == before[k..n];
  }

  lemma Spliced(before: seq<Route>, after: seq<Route>, n: nat, k: nat)
    requires |before| == |after| && k <= n < |before|
    requires after[k] == before[n]
    requires forall i :: 0 <= i < k ==> after[i] == before[i]
    requires forall i :: k < i <= n ==> after[i] == before[i - 1]
    requires forall i :: n < i < |before| ==> after[i] == before[i]
    ensures after[..n + 1] == before[..k] + [before[n]] + before[k..n]
    ensures after[n + 1..] == before[n + 1..]
  {
  }

  /** The place of x: behind the last element that is at least as heavy. */
  lemma {:induction false} PlaceAt(s: seq<Route>, k: nat, x: Route)
    requires k <= |s| && (k > 0 ==> Weight(s[k - 1]) >= Weight(x))
    requires forall i :: k <= i < |s| ==> Weight(s[i]) < Weight(x)
    ensures Place(s, x) == s[..k] + [x] + s[k..]
  {
    if k == |s| {
      assert s[..k] == s;
    } else {
      var init := s[..|s| - 1];
      PlaceAt(init, k, x);
      assert init[..k] == s[..k] && init[k..] + [s[|s| - 1]] == s[k..];
    }
  }

  // Paths.

  predicate EndsWithSlash(p: string) { p != "" && p[|p| - 1] == '/' }

  predicate PathHasPrefix(path: string, prefix: string) {
    || path == prefix
    || (prefix <= path && (EndsWithSlash(prefix) || path[|prefix|..][..1] == "/"))
  }

  lemma PrefixReflexive(p: string)
    ensures PathHasPrefix(p, p)
  {
  }

  lemma PrefixTransitive(p: string, q: string, r: string)
    requires PathHasPrefix(q, p) && PathHasPrefix(r, q)
    ensures PathHasPrefix(r, p)
  {
    if q != p && r != q && !EndsWithSlash(p) {
      assert q[|p|..][..1] == "/" ==> q[|p|] == '/';
      assert q[|p|..][..1][0] == '/';
      assert r[|p|] == '/';
      assert r[|p|..][..1] == [r[|p|]];
    }
  }

  /** The prefixes that match one path form a chain. */
  lemma PrefixesFormChain(path: string, p: string, q: string)
    requires PathHasPrefix(path, p) && PathHasPrefix(path, q)
    ensures PathHasPrefix(p, q) || PathHasPrefix(q, p)
  {
    if |p| <= |q| {
      ShorterIsPrefix(path, p, q);
    } else {
      ShorterIsPrefix(path, q, p);
    }
  }

  lemma ShorterIsPrefix(path: string, p: string, q: string)
    requires PathHasPrefix(path, p) && PathHasPrefix(path, q) && |p| <= |q|
    ensures PathHasPrefix(q, p)
  {
    assert p <= path && q <= path;
    assert p == path[..|p|] == q[..|p|];
    if p != q && !EndsWithSlash(p) {
      assert |p| < |q|;
      assert path[|p|..][..1][0] == '/';
      assert q[|p|] == '/';
      assert q[|p|..][..1] == [q[|p|]];
    }
  }

  function WithQuery(path: string, query: string): string {
    if query == "" then path else path + "?" + query
  }

  // The match.

  /** A request, with the normalisation of host names as a parameter. */
  datatype Request = Request(host: string, path: string, query: string)

  predicate HostMatches(norm: string -> string, routeHost: string, requestHost: string) {
    routeHost == "" || norm(routeHost) == norm(requestHost)
  }

  predicate Matches(norm: string -> string, r: Route, req: Request) {
    && HostMatches(norm, r.host, req.host)
    && ((r.exact != "" && req.path == r.exact) || (r.prefix != "" && PathHasPrefix(req.path, r.prefix)))
  }

  /** The path forwarded for a request that r matches. */
  function Suffix(r: Route, req: Request): string
    requires (r.exact != "" && req.path == r.exact) || r.prefix <= req.path
  {
    if r.exact != "" && req.path == r.exact then WithQuery("/", req.query)
    else
      var rest := req.path[|r.prefix|..];
      WithQuery(if rest == "" then "/" else rest, req.query)
  }

  /** matchRoute: the first route that matches. */
  method MatchRoute(norm: string -> string, routes: seq<Route>, req: Request) returns (m: Match)
    ensures m.NoMatch? ==> forall i :: 0 <= i < |routes| ==> !Matches(norm, routes[i], req)
    ensures m.NoMatch? ==> forall r <- routes ::
      r.host == "" || norm(r.host) == norm(req.host) ==>
        !(r.exact != "" && req.path == r.exact) && !(r.prefix != "" && PathHasPrefix(req.path, r.prefix))
    ensures m.Match? ==> m.route.host == "" || norm(m.route.host) == norm(req.host)
    ensures m.Match? ==> exists k: nat :: IsFirst(norm, routes, req, k) && m.route == routes[k]
    ensures m.Match? ==> Matches(norm, m.route, req) && m.suffix == Suffix(m.route, req)
  {
    for i := 0 to |routes|
      invariant forall j :: 0 <= j < i ==> !Matches(norm, routes[j], req)
    {
      var r := routes[i];
      if HostMatches(norm, r.host, req.host) {
        if r.exact != "" && req.path == r.exact {
          assert IsFirst(norm, routes, req, i);
          return Match(r, WithQuery("/", req.query));
        }
        if r.prefix != "" && PathHasPrefix(req.path, r.prefix) {
          assert IsFirst(norm, routes, req, i);
          var suffix := req.path[|r.prefix|..];
          if suffix == "" {
            suffix := "/";
          }
          return Match(r, WithQuery(suffix, req.query));
        }
      }
    }
    m := NoMatch;
  }

  predicate IsFirst(norm: string -> string, routes: seq<Route>, req: Request, k: nat) {
    && k < |routes| && Matches(norm, routes[k], req)
    && forall j :: 0 <= j < k ==> !Matches(norm, routes[j], req)
  }

  /** The specification, on the routes in the order of the configuration: the
      heaviest matching route, and the earliest of those. */
  predicate IsBest(norm: string -> string, config: seq<Route>, req: Request, i: nat) {
    && i < |config| && Matches(norm, config[i], req)
    && (forall j :: 0 <= j < |config| && Matches(norm, config[j], req) ==>
          Weight(config[j]) < Weight(config[i]) || (Weight(config[j]) == Weight(config[i]) && i <= j))
  }

  /** The first match of one weight is the same before and after sorting. */
  lemma {:induction false} FirstOfWeight(norm: string -> string, s: seq<Route>, req: Request, k: nat)
    requires k < |s| && Matches(norm, s[k], req)
    requires forall j :: 0 <= j < k && Weight(s[j]) == Weight(s[k]) ==> !Matches(norm, s[j], req)
    ensures exists n: nat :: IsFirst(norm, OfWeight(s, Weight(s[k])), req, n) && OfWeight(s, Weight(s[k]))[n] == s[k]
  {
    var w := Weight(s[k]);
    if k == |s| - 1 {
      var before := OfWeight(s[..k], w);
      NoneInPrefix(norm, s[..k], req, w);
      assert OfWeight(s, w) == before + [s[k]];
      assert IsFirst(norm, OfWeight(s, w), req, |before|);
    } else {
      var init := s[..|s| - 1];
      FirstOfWeight(norm, init, req, k);
      var n: nat :| IsFirst(norm, OfWeight(init, w), req, n) && OfWeight(init, w)[n] == s[k];
      assert OfWeight(init, w) <= OfWeight(s, w);
      assert IsFirst(norm, OfWeight(s, w), req, n);
    }
  }

  lemma {:induction false} NoneInPrefix(norm: string -> string, s: seq<Route>, req: Request, w: nat)
    requires forall j :: 0 <= j < |s| && Weight(s[j]) == w ==> !Matches(norm, s[j], req)
    ensures forall j :: 0 <= j < |OfWeight(s, w)| ==> !Matches(norm, OfWeight(s, w)[j], req)
  {
    if s != [] {
      NoneInPrefix(norm, s[..|s| - 1], req, w);
    }
  }

  /** Anything that matches is found in its weight class. */
  lemma {:induction false} InOfWeight(s: seq<Route>, i: nat)
    requires i < |s|
    ensures s[i] in OfWeight(s, Weight(s[i]))
  {
    if i < |s| - 1 {
      InOfWeight(s[..|s| - 1], i);
    }
  }

  lemma {:induction false} OfWeightIn(s: seq<Route>, w: nat, r: Route)
    requires r in OfWeight(s, w)
    ensures r in s && Weight(r) == w
  {
    if s != [] && r in OfWeight(s[..|s| - 1], w) {
      OfWeightIn(s[..|s| - 1], w, r);
    }
  }

  /** Selection: the first match after sorting is the best match of the
      configuration, for every list of routes and every request. */
  lemma FirstAfterSortIsBest(norm: string -> string, config: seq<Route>, req: Request, k: nat)
    requires IsFirst(norm, Sorted(config), req, k)
    ensures exists i: nat :: IsBest(norm, config, req, i) && config[i] == Sorted(config)[k]
  {
    var t := Sorted(config);
    var w := Weight(t[k]);
    SameElements(config, t[k]);
    var some :| 0 <= some < |config| && config[some] == t[k];
    var i := Earliest(norm, config, req, some);
    NoHeavierMatch(norm, config, req, k);
    SameFirst(norm, config, req, k, i);
    assert IsBest(norm, config, req, i);
  }

  /** A request is served only by routes of its own host, or of none: the route selected
      is the heaviest of those whose pattern fits the path, and the earliest in the
      configuration of the heaviest. */
  lemma SelectedForHost(norm: string -> string, config: seq<Route>, req: Request, k: nat)
    requires IsFirst(norm, Sorted(config), req, k)
    ensures var won := Sorted(config)[k];
      && (won.host == "" || norm(won.host) == norm(req.host))
      && (exists i: nat :: i < |config| && config[i] == won && forall j :: 0 <= j < |config| ==>
            (config[j].host == "" || norm(config[j].host) == norm(req.host)) ==> Fits(config[j], req.path) ==>
              Weight(config[j]) < Weight(won) || (Weight(config[j]) == Weight(won) && i <= j))
  {
    FirstAfterSortIsBest(norm, config, req, k);
    var i: nat :| IsBest(norm, config, req, i) && config[i] == Sorted(config)[k];
    forall j | 0 <= j < |config|
      ensures config[j].host == "" || norm(config[j].host) == norm(req.host) ==>
        Fits(config[j], req.path) ==> Matches(norm, config[j], req)
    {
    }
  }

  /** The pattern of the route fits the path. */
  predicate Fits(r: Route, path: string) {
    (r.exact != "" && path == r.exact) || (r.prefix != "" && PathHasPrefix(path, r.prefix))
  }

  lemma SameElements(s: seq<Route>, r: Route)
    ensures r in s <==> r in Sorted(s)
  {
    SortedIsStable(s);
    assert OfWeight(Sorted(s), Weight(r)) == OfWeight(s, Weight(r));
    if r in s {
      var i :| 0 <= i < |s| && s[i] == r;
      InOfWeight(s, i);
      OfWeightIn(Sorted(s), Weight(r), r);
    }
    if r in Sorted(s) {
      var i :| 0 <= i < |Sorted(s)| && Sorted(s)[i] == r;
      InOfWeight(Sorted(s), i);
      OfWeightIn(s, Weight(r), r);
    }
  }

  lemma FirstIsHeaviest(norm: string -> string, t: seq<Route>, req: Request, k: nat, r: Route)
    requires Descending(t) && IsFirst(norm, t, req, k)
    requires r in t && Matches(norm, r, req)
    ensures Weight(r) <= Weight(t[k])
  {
    var m :| 0 <= m < |t| && t[m] == r;
  }

  lemma NoHeavierMatch(norm: string -> string, config: seq<Route>, req: Request, k: nat)
    requires IsFirst(norm, Sorted(config), req, k)
    ensures forall j :: 0 <= j < |config| && Matches(norm, config[j], req) ==>
      Weight(config[j]) <= Weight(Sorted(config)[k])
  {
    SortedDescends(config);
    forall j | 0 <= j < |config| && Matches(norm, config[j], req)
      ensures Weight(config[j]) <= Weight(Sorted(config)[k])
    {
      SameElements(config, config[j]);
      FirstIsHeaviest(norm, Sorted(config), req, k, config[j]);
    }
  }

  lemma SameFirst(norm: string -> string, config: seq<Route>, req: Request, k: nat, i: nat)
    requires IsFirst(norm, Sorted(config), req, k)
    requires i < |config| && Matches(norm, config[i], req) && Weight(config[i]) == Weight(Sorted(config)[k])
    requires forall j :: 0 <= j < i && Weight(config[j]) == Weight(config[i]) ==> !Matches(norm, config[j], req)
    ensures config[i] == Sorted(config)[k]
  {
    SortedIsStable(config);
    var w := Weight(config[i]);
    assert OfWeight(Sorted(config), w) == OfWeight(config, w);
    FirstOfWeight(norm, config, req, i);
    FirstOfWeight(norm, Sorted(config), req, k);
    OneFirst(norm, OfWeight(config, w), req);
  }

  lemma OneFirst(norm: string -> string, s: seq<Route>, req: Request)
    ensures forall m: nat, n: nat :: IsFirst(norm, s, req, m) && IsFirst(norm, s, req, n) ==> m == n
  {
  }

  lemma Earliest(norm: string -> string, s: seq<Route>, req: Request, some: nat) returns (i: nat)
    requires some < |s| && Matches(norm, s[some], req)
    ensures i < |s| && Weight(s[i]) == Weight(s[some]) && Matches(norm, s[i], req)
    ensures forall j :: 0 <= j < i && Weight(s[j]) == Weight(s[some]) ==> !Matches(norm, s[j], req)
  {
    i := 0;
    while i < some && !(Weight(s[i]) == Weight(s[some]) && Matches(norm, s[i], req))
      invariant i <= some
      invariant forall j :: 0 <= j < i ==> !(Weight(s[j]) == Weight(s[some]) && Matches(norm, s[j], req))
    {
      i := i + 1;
    }
  }

  /** And a match is found whenever there is one. */
  lemma SortingLosesNothing(norm: string -> string, config: seq<Route>, req: Request)
    requires forall k :: 0 <= k < |Sorted(config)| ==> !Matches(norm, Sorted(config)[k], req)
    ensures forall i :: 0 <= i < |config| ==> !Matches(norm, config[i], req)
  {
    forall i | 0 <= i < |config|
      ensures !Matches(norm, config[i], req)
    {
      SameElements(config, config[i]);
    }
  }

  // Longest match.

  /** The length of the pattern that a matching route matches with. */
  function PatternLength(r: Route, path: string): nat {
    if r.exact != "" && path == r.exact then |r.exact| else |r.prefix|
  }

  predicate IsLongest(norm: string -> string, config: seq<Route>, req: Request, i: nat) {
    && i < |config| && Matches(norm, config[i], req)
    && (forall j :: 0 <= j < |config| && Matches(norm, config[j], req) ==>
          var here, there := PatternLength(config[i], req.path), PatternLength(config[j], req.path);
          there < here || (there == here && i <= j))
  }

  predicate SetsOne(r: Route) { r.prefix == "" || r.exact == "" }

  /** If the route selected does not set both a prefix and a path, it has, among all
      that match, a pattern of maximal length, and is the earliest of those. */
  lemma LongestMatch(norm: string -> string, config: seq<Route>, req: Request, k: nat)
    requires IsFirst(norm, Sorted(config), req, k) && SetsOne(Sorted(config)[k])
    ensures exists i: nat :: IsLongest(norm, config, req, i) && config[i] == Sorted(config)[k]
  {
    FirstAfterSortIsBest(norm, config, req, k);
    var i: nat :| IsBest(norm, config, req, i) && config[i] == Sorted(config)[k];
    assert IsLongest(norm, config, req, i);
  }

  /** Route r, when it is selected over a route o that also matches, has a pattern
      at least as long as o's. */
  ghost predicate NeverShadows(norm: string -> string, r: Route) {
    forall o: Route, req: Request ::
      Matches(norm, o, req) && IsBest(norm, [r, o], req, 0) ==>
        PatternLength(o, req.path) <= PatternLength(r, req.path)
  }

  /** For a route that sets both a prefix and a path, here is a route and a request
      for which the longer pattern loses: the sum of its two lengths is what counts. */
  lemma BothShadow(norm: string -> string, r: Route) returns (o: Route, req: Request)
    requires !SetsOne(r)
    ensures IsBest(norm, [r, o], req, 0) && Matches(norm, o, req)
    ensures PatternLength(o, req.path) > PatternLength(r, req.path)
  {
    var path := if r.exact == r.prefix + "/" then r.prefix + "//" else r.prefix + "/";
    assert path[|r.prefix|..][..1] == "/";
    assert r.prefix <= path;
    req := Request(r.host, path, "");
    o := Route("", "", "", path);
    assert [r, o][0] == r && [r, o][1] == o;
    assert path != r.exact;
  }

  /** Longest match holds of a route, against every other route and every request, if
      and only if the route does not set both a prefix and a path. */
  lemma LongestMatchExactly(norm: string -> string, r: Route)
    ensures NeverShadows(norm, r) <==> SetsOne(r)
  {
    if SetsOne(r) {
      forall o: Route, req: Request | Matches(norm, o, req) && IsBest(norm, [r, o], req, 0)
        ensures PatternLength(o, req.path) <= PatternLength(r, req.path)
      {
        assert [r, o][0] == r && [r, o][1] == o;
      }
    } else {
      var o, req := BothShadow(norm, r);
    }
  }

  // The rewritten path.

  predicate ExactHit(r: Route, path: string) { r.exact != "" && path == r.exact }

  /** The rest of the path does not begin where the prefix ends in its own slash. */
  predicate KeepsSlash(r: Route, path: string)
    requires ExactHit(r, path) || r.prefix <= path
  {
    ExactHit(r, path) || path == r.prefix || !EndsWithSlash(r.prefix) || path[|r.prefix|] == '/'
  }

  /** The suffix forwarded starts with a slash, as the envelope demands, unless the
      prefix ends in a slash and what follows it does not begin with one. */
  lemma SuffixIsPath(r: Route, req: Request)
    requires ExactHit(r, req.path) || PathHasPrefix(req.path, r.prefix)
    ensures var s := Suffix(r, req);
      (s != "" && s[0] == '/') <==> KeepsSlash(r, req.path)
  {
    if !ExactHit(r, req.path) {
      var rest := req.path[|r.prefix|..];
      if req.path != r.prefix && !EndsWithSlash(r.prefix) {
        assert rest[..1][0] == '/';
      }
    }
  }

  function TrimRight(s: string): string {
    if EndsWithSlash(s) then TrimRight(s[..|s| - 1]) else s
  }

  /** What is cut off is slashes, and all of them. */
  lemma {:induction false} TrimRightIsExact(s: string)
    ensures TrimRight(s) <= s && !EndsWithSlash(TrimRight(s))
    ensures forall i :: |TrimRight(s)| <= i < |s| ==> s[i] == '/'
  {
    if EndsWithSlash(s) {
      TrimRightIsExact(s[..|s| - 1]);
    }
  }

  datatype Target = NoTarget | Target(path: string, query: string)

  /** What a URL parser makes of a suffix: path up to the first question mark, query
      behind it. Suffixes with escapes, fragments or control characters are outside
      the model. */
  function SplitQuery(s: string): (string, string) {
    if s == "" then ("", "")
    else if s[0] == '?' then ("", s[1..])
    else
      var rest := SplitQuery(s[1..]);
      ([s[0]] + rest.0, rest.1)
  }

  /** targetURL: the target's base path joined with the suffix. */
  function TargetUrl(base: string, suffix: string): Target {
    if suffix == "" || suffix[0] != '/' then NoTarget
    else
      var split := SplitQuery(suffix);
      var trimmed := TrimRight(base);
      var path := if split.0 == "" then "/" else split.0;
      Target(if trimmed == "" then path else if path == "/" then trimmed + "/" else trimmed + path, split.1)
  }

  lemma {:induction false} SplitUndoesWithQuery(path: string, query: string)
    requires '?' !in path
    ensures SplitQuery(WithQuery(path, query)) == (path, query)
  {
    if path == "" {
      if query != "" {
        assert WithQuery(path, query) == "?" + query;
        assert ("?" + query)[1..] == query;
      }
    } else {
      assert forall c :: c in path[1..] ==> c in path;
      SplitUndoesWithQuery(path[1..], query);
      assert WithQuery(path, query)[1..] == WithQuery(path[1..], query);
      assert [path[0]] + path[1..] == path;
    }
  }

  /** The path of the backend's own that a request is forwarded to. */
  function Forwarded(r: Route, path: string): string
    requires ExactHit(r, path) || r.prefix <= path
  {
    if ExactHit(r, path) || path == r.prefix then "/" else path[|r.prefix|..]
  }

  /** End to end: the backend sees its own base path followed by what came after the
      matched prefix, and the query unchanged; and it sees nothing if and only if the
      suffix is not a path. */
  lemma PathRewrite(r: Route, req: Request, base: string)
    requires ExactHit(r, req.path) || PathHasPrefix(req.path, r.prefix)
    requires '?' !in req.path
    ensures TargetUrl(base, Suffix(r, req)) ==
      if KeepsSlash(r, req.path) then Target(TrimRight(base) + Forwarded(r, req.path), req.query) else NoTarget
  {
    SuffixIsPath(r, req);
    if KeepsSlash(r, req.path) {
      var path := Forwarded(r, req.path);
      assert Suffix(r, req) == WithQuery(path, req.query);
      assert forall c :: c in path && path != "/" ==> c in req.path;
      SplitUndoesWithQuery(path, req.query);
      assert TrimRight(base) == "" ==> TrimRight(base) + path == path;
    }
  }

  /** A prefix that ends in a slash can forward a suffix that nobody accepts. */
  lemma TrailingSlashForwardsNoPath()
    ensures var r, req := Route("api", "", "/api/", ""), Request("", "/api/x", "");
      PathHasPrefix(req.path, r.prefix) && Suffix(r, req) == "x" && TargetUrl("", Suffix(r, req)).NoTarget?
  {
  }
}
