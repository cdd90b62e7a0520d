/**
 Where an upstream is mounted (routeForServer of internal/proxy/http.go, over path.Join), and why
 the routes of different upstreams never interfere in the router.
 */
module Routes {
  import opened Prelude
  import opened Router

  // ---- path.Join on a rooted path ----

  /** The elements of a path between its slashes. */
  function Split(p: string): (r: seq<string>)
    ensures |r| > 0
  {
    if p == [] then [[]]
    else
      var rest := Split(p[1..]);
      if p[0] == '/' then [[]] + rest else [[p[0]] + rest[0]] + rest[1..]
  }

  /** The rules of path.Clean for a rooted path: drop empty elements and ".", let ".." take back an element. */
  function Resolve(elems: seq<string>): seq<string> {
    if elems == [] then []
    else
      var before := Resolve(elems[..|elems| - 1]);
      var last := elems[|elems| - 1];
      if last == "" || last == "." then before
      else if last == ".." then (if before == [] then [] else before[..|before| - 1])
      else before + [last]
  }

  /** Elements each followed by a slash. */
  function WithSlashes(elems: seq<string>): string {
    if elems == [] then "" else WithSlashes(elems[..|elems| - 1]) + elems[|elems| - 1] + "/"
  }

  function CleanRooted(p: string): string {
    var elems := Resolve(Split(p));
    if elems == [] then "/"
    else "/" + WithSlashes(elems[..|elems| - 1]) + elems[|elems| - 1]
  }

  /** path.Join("/", basePath, name): empty elements are skipped. */
  function Join(basePath: string, name: string): string {
    CleanRooted((if basePath == "" then "/" else "//" + basePath) + (if name == "" then "" else "/" + name))
  }

  function RouteForServer(basePath: string, name: string, streamable: bool): string {
    var route := Join(basePath, name);
    if streamable then route + "/mcp" else route + "/"
  }

  // ---- simple names ----

  /** A single path segment. */
  predicate Simple(name: string) {
    name != "" && name != "." && name != ".." && '/' !in name
  }

  lemma {:induction false} SplitName(p: string, name: string)
    requires '/' !in name
    ensures Split(p + "/" + name) == Split(p) + [name]
  {
    var t := p + "/" + name;
    if p == [] {
      SplitSegment(name);
      assert t[1..] == name;
    } else {
      assert t[1..] == p[1..] + "/" + name;
      SplitName(p[1..], name);
    }
  }

  lemma {:induction false} SplitSegment(name: string)
    requires '/' !in name
    ensures Split(name) == [name]
  {
    if name != [] {
      assert name[0] in name && name == [name[0]] + name[1..];
      SplitSegment(name[1..]);
    }
  }

  /** What every route under one base path begins with. */
  function Mount(basePath: string): string {
    "/" + WithSlashes(Resolve(Split(if basePath == "" then "/" else "//" + basePath)))
  }

  function Tail(streamable: bool): string {
    if streamable then "/mcp" else "/"
  }

  /** The route of a simple name is the base's mount point, the name, and the transport's tail. */
  lemma RouteShape(basePath: string, name: string, streamable: bool)
    requires Simple(name)
    ensures RouteForServer(basePath, name, streamable) == Mount(basePath) + name + Tail(streamable)
  {
    var root := if basePath == "" then "/" else "//" + basePath;
    SplitName(root, name);
    assert root + ("/" + name) == root + "/" + name;
    var elems := Split(root) + [name];
    assert elems[..|elems| - 1] == Split(root);
    assert Resolve(elems) == Resolve(Split(root)) + [name];
    var kept := Resolve(elems);
    assert kept[..|kept| - 1] == Resolve(Split(root));
  }

  // ---- what the mount point is ----

  /** Empty elements and "." count for nothing, ".." takes one back, anything else is added. */
  lemma ResolveLaws(elems: seq<string>, name: string)
    ensures Resolve(elems + [""]) == Resolve(elems) && Resolve(elems + ["."]) == Resolve(elems)
    ensures Resolve(elems) == [] ==> Resolve(elems + [".."]) == []
    ensures Resolve(elems) != [] ==> Resolve(elems + [".."]) == Resolve(elems)[..|Resolve(elems)| - 1]
    ensures Simple(name) ==> Resolve(elems + [name]) == Resolve(elems) + [name]
    ensures Resolve([]) == []
  {
    forall e ensures (elems + [e])[..|elems + [e]| - 1] == elems {
    }
    assert Simple(name) ==> (elems + [name])[|elems|] == name;
    assert (elems + [""])[|elems|] == "" && (elems + ["."])[|elems|] == "." && (elems + [".."])[|elems|] == "..";
  }

  /** No element of a path holds a slash. */
  lemma {:induction false} SplitElements(p: string)
    ensures forall e | e in Split(p) :: '/' !in e
  {
    if p != [] {
      var rest := Split(p[1..]);
      SplitElements(p[1..]);
      assert rest[0] in rest;
      forall e | e in Split(p) ensures '/' !in e {
        assert e in rest || e == [] || e == [p[0]] + rest[0];
      }
    }
  }

  /** What is kept of a path are simple names. */
  lemma {:induction false} ResolvedAreSimple(elems: seq<string>)
    requires forall e | e in elems :: '/' !in e
    ensures forall e | e in Resolve(elems) :: Simple(e)
  {
    if elems != [] {
      var before, last := elems[..|elems| - 1], elems[|elems| - 1];
      assert last in elems && forall e | e in before :: e in elems;
      ResolvedAreSimple(before);
    }
  }

  /** Leading slashes change nothing. */
  lemma {:induction false} LeadingEmpty(elems: seq<string>)
    ensures Resolve([""] + elems) == Resolve(elems)
  {
    var all := [""] + elems;
    if elems == [] {
      assert all[..0] == [];
    } else {
      assert all[..|all| - 1] == [""] + elems[..|elems| - 1] && all[|all| - 1] == elems[|elems| - 1];
      LeadingEmpty(elems[..|elems| - 1]);
    }
  }

  lemma SplitSlash(p: string)
    ensures Split("/" + p) == [""] + Split(p)
  {
    assert ("/" + p)[1..] == p;
  }

  /** The directories the base path stands for. */
  function Directories(basePath: string): seq<string> {
    Resolve(Split(basePath))
  }

  lemma RootResolves(basePath: string)
    ensures Resolve(Split(if basePath == "" then "/" else "//" + basePath)) == Directories(basePath)
  {
    SplitSlash("");
    assert "/" + "" == "/";
    SplitSlash(basePath);
    SplitSlash("/" + basePath);
    assert "/" + ("/" + basePath) == "//" + basePath;
    LeadingEmpty(Split(basePath));
    LeadingEmpty(Split("/" + basePath));
  }

  /** Read from the front, a mount point is made of the directories. */
  lemma {:induction false} SlashesSplit(elems: seq<string>, name: string)
    requires (forall e | e in elems :: '/' !in e) && '/' !in name
    ensures Split("/" + WithSlashes(elems) + name) == [""] + elems + [name]
  {
    if elems == [] {
      assert "/" + "" + name == "" + "/" + name;
      SplitName("", name);
    } else {
      var before, last := elems[..|elems| - 1], elems[|elems| - 1];
      assert last in elems && forall e | e in before :: e in elems;
      SlashesSplit(before, last);
      assert "/" + WithSlashes(elems) + name == ("/" + WithSlashes(before) + last) + "/" + name;
      SplitName("/" + WithSlashes(before) + last, name);
      assert elems == before + [last];
    }
  }

  /** For any base path: the elements of a route are the directories of the base, the name, and the tail. */
  lemma RouteElements(basePath: string, name: string)
    requires Simple(name)
    ensures Split(RouteForServer(basePath, name, true)) == [""] + Directories(basePath) + [name, "mcp"]
    ensures Split(RouteForServer(basePath, name, false)) == [""] + Directories(basePath) + [name, ""]
    ensures forall d | d in Directories(basePath) :: Simple(d)
  {
    RootResolves(basePath);
    SplitElements(basePath);
    ResolvedAreSimple(Split(basePath));
    RouteShape(basePath, name, true);
    RouteShape(basePath, name, false);
    var dirs := Directories(basePath);
    SlashesSplit(dirs, name);
    var front := "/" + WithSlashes(dirs) + name;
    assert front + "/mcp" == front + "/" + "mcp" && front + "/" == front + "/" + "";
    SplitName(front, "mcp");
    SplitName(front, "");
    assert [""] + dirs + [name] + ["mcp"] == [""] + dirs + [name, "mcp"];
    assert [""] + dirs + [name] + [""] == [""] + dirs + [name, ""];
  }

  /** Nothing, or a base path followed by a slash and a simple segment. */
  predicate IsBase(basePath: string) {
    basePath == ""
    || exists i | 0 <= i < |basePath| :: basePath[i] == '/' && Simple(basePath[i + 1..]) && IsBase(basePath[..i])
  }

  lemma NextDirectory(before: string, last: string)
    requires Simple(last)
    ensures Directories(before + "/" + last) == Directories(before) + [last]
  {
    SplitName(before, last);
    ResolveLaws(Split(before), last);
  }

  lemma SlashesNext(dirs: seq<string>, last: string)
    ensures WithSlashes(dirs + [last]) == WithSlashes(dirs) + last + "/"
  {
    assert (dirs + [last])[..|dirs|] == dirs;
  }

  lemma NoDirectory()
    ensures Directories("") == []
  {
    assert Split("") == [""] && [""][..0] == [];
    assert Resolve([""]) == Resolve([]);
  }

  lemma LastSegment(basePath: string) returns (before: string, last: string)
    requires IsBase(basePath) && basePath != ""
    ensures basePath == before + "/" + last && Simple(last) && IsBase(before) && |before| < |basePath|
  {
    var i :| 0 <= i < |basePath| && basePath[i] == '/' && Simple(basePath[i + 1..]) && IsBase(basePath[..i]);
    before, last := basePath[..i], basePath[i + 1..];
  }

  lemma {:induction false} BaseIsItsMount(basePath: string)
    requires IsBase(basePath)
    ensures "/" + WithSlashes(Directories(basePath)) == basePath + "/"
    decreases |basePath|
  {
    if basePath == "" {
      NoDirectory();
    } else {
      var before, last := LastSegment(basePath);
      BaseIsItsMount(before);
      NextDirectory(before, last);
      SlashesNext(Directories(before), last);
      OneMore(WithSlashes(Directories(before)), before, last);
    }
  }

  lemma OneMore(w: string, before: string, last: string)
    requires "/" + w == before + "/"
    ensures "/" + (w + last + "/") == before + "/" + last + "/"
  {
    assert "/" + (w + last + "/") == ("/" + w) + last + "/";
  }

  /** Under a base path written out cleanly, and under none, the route is base, name and tail. */
  lemma RouteUnderBase(basePath: string, name: string)
    requires IsBase(basePath) && Simple(name)
    ensures RouteForServer(basePath, name, true) == basePath + "/" + name + "/mcp"
    ensures RouteForServer(basePath, name, false) == basePath + "/" + name + "/"
  {
    RootResolves(basePath);
    BaseIsItsMount(basePath);
    RouteShape(basePath, name, true);
    RouteShape(basePath, name, false);
  }

  // ---- routes do not meet ----

  lemma SegmentEnds(m: string, name: string, tail: string, p: string)
    requires '/' !in name && tail != "" && tail[0] == '/' && m + name + tail <= p
    ensures |m| + |name| < |p| && p[|m| + |name|] == '/'
    ensures forall i | |m| <= i < |m| + |name| :: p[i] != '/'
    ensures name == p[|m|..|m| + |name|]
  {
    var t := m + name + tail;
    assert t == p[..|t|];
    assert forall i | |m| <= i < |m| + |name| :: p[i] == t[i] == name[i - |m|] && name[i - |m|] in name;
  }

  /** No path lies under the routes of two names. */
  lemma RoutesAreApart(basePath: string, n1: string, n2: string, streamable: bool, p: string)
    requires Simple(n1) && Simple(n2)
    requires RouteForServer(basePath, n1, streamable) <= p && RouteForServer(basePath, n2, streamable) <= p
    ensures n1 == n2
  {
    RouteShape(basePath, n1, streamable);
    RouteShape(basePath, n2, streamable);
    SegmentEnds(Mount(basePath), n1, Tail(streamable), p);
    SegmentEnds(Mount(basePath), n2, Tail(streamable), p);
  }

  /** The route determines the name. */
  lemma RouteIsInjective(basePath: string, n1: string, n2: string, streamable: bool)
    requires Simple(n1) && Simple(n2)
    requires RouteForServer(basePath, n1, streamable) == RouteForServer(basePath, n2, streamable)
    ensures n1 == n2
  {
    RoutesAreApart(basePath, n1, n2, streamable, RouteForServer(basePath, n1, streamable));
  }

  const PROBES: set<string> := {"/healthz", "/readyz"}

  /** The probes are neither routes nor under one. */
  lemma ProbesAreApart(basePath: string, name: string, streamable: bool, probe: string)
    requires Simple(name) && probe in PROBES
    ensures !(RouteForServer(basePath, name, streamable) <= probe) && !IsSubtree(probe)
  {
    RouteShape(basePath, name, streamable);
    ProbeShape(probe);
    if Mount(basePath) + name + Tail(streamable) <= probe {
      SegmentEnds(Mount(basePath), name, Tail(streamable), probe);
    }
  }

  lemma ProbeShape(probe: string)
    requires probe in PROBES
    ensures probe != "" && forall i | 1 <= i < |probe| :: probe[i] != '/'
  {
    if probe == "/healthz" {
      assert probe[1] == 'h' && probe[2] == 'e' && probe[3] == 'a' && probe[4] == 'l' && probe[5] == 't'
        && probe[6] == 'h' && probe[7] == 'z';
    } else {
      assert probe == "/readyz";
      assert probe[1] == 'r' && probe[2] == 'e' && probe[3] == 'a' && probe[4] == 'd' && probe[5] == 'y'
        && probe[6] == 'z';
    }
  }

  /** Only a subtree route of the SSE transport ends in a slash. */
  lemma RouteKind(basePath: string, name: string, streamable: bool)
    requires Simple(name)
    ensures IsSubtree(RouteForServer(basePath, name, streamable)) <==> !streamable
    ensures RouteForServer(basePath, name, streamable) != ""
  {
    RouteShape(basePath, name, streamable);
  }

  /** The requests a route is for: the endpoint itself, or everything beneath the subtree. */
  predicate Under(route: string, streamable: bool, p: string) {
    if streamable then p == route else route <= p
  }

  /** The endpoint itself is under a streamable route and nothing else is; every continuation is under an SSE one. */
  lemma UnderMeaning(route: string, rest: string)
    ensures Under(route, true, route + rest) <==> rest == ""
    ensures Under(route, false, route + rest)
  {
    assert rest == "" ==> route + rest == route;
    assert |route + rest| == |route| + |rest|;
  }

  /** Every pattern of the table is a probe or the route of some simple name. */
  ghost predicate OnlyRoutes(routes: Table, basePath: string, streamable: bool) {
    forall p | p in routes :: p in PROBES || exists n :: Simple(n) && p == RouteForServer(basePath, n, streamable)
  }

  /** In such a table every path under a mounted route resolves to that route's handler, whatever else is mounted. */
  lemma RouteDecides(routes: Table, basePath: string, streamable: bool, name: string, p: string)
    requires OnlyRoutes(routes, basePath, streamable) && Simple(name)
    requires RouteForServer(basePath, name, streamable) in routes
    requires Under(RouteForServer(basePath, name, streamable), streamable, p)
    ensures Answers(routes, p, Some(routes[RouteForServer(basePath, name, streamable)]))
  {
    var route := RouteForServer(basePath, name, streamable);
    RouteKind(basePath, name, streamable);
    if !streamable {
      if p in routes && !IsSubtree(p) {
        if p in PROBES {
          ProbesAreApart(basePath, name, streamable, p);
        } else {
          var n :| Simple(n) && p == RouteForServer(basePath, n, streamable);
          RouteKind(basePath, n, streamable);
        }
      }
      forall q | q in Candidates(routes, p) ensures q == route {
        if q in PROBES {
          ProbesAreApart(basePath, name, streamable, q);
        } else {
          var n :| Simple(n) && q == RouteForServer(basePath, n, streamable);
          RoutesAreApart(basePath, n, name, streamable, p);
        }
      }
      assert Candidates(routes, p) == {route};
    }
  }
}
