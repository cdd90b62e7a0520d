/**
 The mutable HTTP router of internal/proxy/router.go: a map of exact patterns and a list of
 subtree prefixes kept longest first, refining a plain map from pattern to handler.
 */
module Router {
  import opened Prelude

  /** The identity of a registered handler. */
  type Handler = nat

  type Table = map<string, Handler>

  datatype SubtreeRoute = SubtreeRoute(prefix: string, h: Handler)

  /** A pattern ending in "/" names a subtree. */
  predicate IsSubtree(pattern: string) {
    |pattern| > 0 && pattern[|pattern| - 1] == '/'
  }

  // ---- what a table of registrations means ----

  /** The subtree patterns of the table that a path lies under. */
  function Candidates(routes: Table, path: string): set<string> {
    set p | p in routes && IsSubtree(p) && p <= path
  }

  /** The exact registration of the path, else the one under the longest prefix, else nothing. */
  ghost predicate Answers(routes: Table, path: string, r: Option<Handler>) {
    if path in routes && !IsSubtree(path) then r == Some(routes[path])
    else if Candidates(routes, path) == {} then r == None
    else exists p | p in Candidates(routes, path) ::
        (forall q | q in Candidates(routes, path) :: |q| <= |p|) && r == Some(routes[p])
  }

  /** Two prefixes of one path that are equally long are the same string, so the answer is unique. */
  lemma AnswersAreUnique(routes: Table, path: string, r1: Option<Handler>, r2: Option<Handler>)
    requires Answers(routes, path, r1) && Answers(routes, path, r2)
    ensures r1 == r2
  {
    if !(path in routes && !IsSubtree(path)) && Candidates(routes, path) != {} {
      var p :| p in Candidates(routes, path) && (forall q | q in Candidates(routes, path) :: |q| <= |p|)
        && r1 == Some(routes[p]);
      var q :| q in Candidates(routes, path) && (forall o | o in Candidates(routes, path) :: |o| <= |q|)
        && r2 == Some(routes[q]);
      assert p == path[..|p|] && q == path[..|q|];
    }
  }

  // ---- the representation ----

  /** The subtree registrations of a table, each once. */
  function SubtreeBag(routes: Table): multiset<SubtreeRoute> {
    multiset(set p | p in routes && IsSubtree(p) :: SubtreeRoute(p, routes[p]))
  }

  function ExactPart(routes: Table): Table {
    map p | p in routes && !IsSubtree(p) :: routes[p]
  }

  predicate LongestFirst(s: seq<SubtreeRoute>) {
    forall i, j | 0 <= i < j < |s| :: |s[i].prefix| >= |s[j].prefix|
  }

  /** `s` lists the subtree registrations of `routes`, longest first. */
  ghost predicate Represents(s: seq<SubtreeRoute>, routes: Table) {
    LongestFirst(s) && multiset(s) == SubtreeBag(routes)
  }

  lemma Member(s: seq<SubtreeRoute>, routes: Table, r: SubtreeRoute)
    requires multiset(s) == SubtreeBag(routes)
    ensures r in s <==> r.prefix in routes && IsSubtree(r.prefix) && r.h == routes[r.prefix]
  {
    assert r in s <==> r in multiset(s);
  }

  /** The list holds every prefix once. */
  lemma PrefixesAreUnique(s: seq<SubtreeRoute>, routes: Table, i: nat, j: nat)
    requires multiset(s) == SubtreeBag(routes) && i < j < |s|
    ensures s[i].prefix != s[j].prefix
  {
    Member(s, routes, s[i]);
    Member(s, routes, s[j]);
    assert s == s[..j] + [s[j]] + s[j + 1..];
    assert multiset(s)[s[j]] == multiset(s[..j])[s[j]] + 1 + multiset(s[j + 1..])[s[j]];
    assert s[..j][i] == s[i] && s[j] !in s[..j];
  }

  /** The handler of the first entry whose prefix the path has. */
  function FirstMatch(s: seq<SubtreeRoute>, path: string): Option<Handler> {
    if s == [] then None
    else if s[0].prefix <= path then Some(s[0].h)
    else FirstMatch(s[1..], path)
  }

  lemma {:induction false} FirstMatchIsFirst(s: seq<SubtreeRoute>, path: string, i: nat)
    requires i <= |s| && forall k | 0 <= k < i :: !(s[k].prefix <= path)
    ensures i < |s| && s[i].prefix <= path ==> FirstMatch(s, path) == Some(s[i].h)
    ensures i == |s| ==> FirstMatch(s, path) == None
  {
    if i > 0 {
      FirstMatchIsFirst(s[1..], path, i - 1);
    }
  }

  /** The first match in a list kept longest first is the longest match in the table. */
  lemma FirstIsLongest(s: seq<SubtreeRoute>, routes: Table, path: string, i: nat)
    requires Represents(s, routes) && !(path in routes && !IsSubtree(path))
    requires i <= |s| && forall k | 0 <= k < i :: !(s[k].prefix <= path)
    ensures i < |s| && s[i].prefix <= path ==> Answers(routes, path, Some(s[i].h))
    ensures i == |s| ==> Answers(routes, path, None)
  {
    forall p | p in Candidates(routes, path)
      ensures exists k | i <= k < |s| :: s[k].prefix == p
    {
      Member(s, routes, SubtreeRoute(p, routes[p]));
      var k :| 0 <= k < |s| && s[k] == SubtreeRoute(p, routes[p]);
    }
    if i < |s| && s[i].prefix <= path {
      Member(s, routes, s[i]);
      assert s[i].prefix in Candidates(routes, path);
    }
  }

  /** The sort is not stable, and that cannot matter: all sorted lists of the same routes match alike. */
  lemma SortOrderCannotMatter(s1: seq<SubtreeRoute>, s2: seq<SubtreeRoute>, routes: Table, path: string)
    requires Represents(s1, routes) && Represents(s2, routes)
    ensures FirstMatch(s1, path) == FirstMatch(s2, path)
  {
    var subtrees := map p | p in routes && IsSubtree(p) :: routes[p];
    assert SubtreeBag(subtrees) == SubtreeBag(routes);
    MatchAnswers(s1, subtrees, path);
    MatchAnswers(s2, subtrees, path);
    AnswersAreUnique(subtrees, path, FirstMatch(s1, path), FirstMatch(s2, path));
  }

  function FirstIndex(s: seq<SubtreeRoute>, path: string): (i: nat)
    ensures i <= |s| && (forall k | 0 <= k < i :: !(s[k].prefix <= path)) && (i < |s| ==> s[i].prefix <= path)
  {
    if s == [] || s[0].prefix <= path then 0 else
      var k := FirstIndex(s[1..], path);
      assert forall i | 1 <= i <= k :: s[i] == s[1..][i - 1];
      1 + k
  }

  lemma MatchAnswers(s: seq<SubtreeRoute>, routes: Table, path: string)
    requires Represents(s, routes) && !(path in routes && !IsSubtree(path))
    ensures Answers(routes, path, FirstMatch(s, path))
  {
    var i := FirstIndex(s, path);
    FirstMatchIsFirst(s, path, i);
    FirstIsLongest(s, routes, path, i);
  }

  // ---- how one registration changes the representation ----

  lemma BagAdd(routes: Table, p: string, h: Handler)
    requires IsSubtree(p) && p !in routes
    ensures SubtreeBag(routes[p := h]) == SubtreeBag(routes) + multiset{SubtreeRoute(p, h)}
  {
    var before := set q | q in routes && IsSubtree(q) :: SubtreeRoute(q, routes[q]);
    var after := set q | q in routes[p := h] && IsSubtree(q) :: SubtreeRoute(q, routes[p := h][q]);
    assert after == before + {SubtreeRoute(p, h)};
  }

  lemma BagRemove(routes: Table, p: string)
    requires IsSubtree(p) && p in routes
    ensures SubtreeBag(routes) == SubtreeBag(routes - {p}) + multiset{SubtreeRoute(p, routes[p])}
  {
    BagAdd(routes - {p}, p, routes[p]);
    assert (routes - {p})[p := routes[p]] == routes;
  }

  lemma BagSplit(s: seq<SubtreeRoute>, i: nat)
    requires i < |s|
    ensures multiset(s) == multiset(s[..i] + s[i + 1..]) + multiset{s[i]}
  {
    assert s == s[..i] + [s[i]] + s[i + 1..];
  }

  lemma RemoveAt(s: seq<SubtreeRoute>, routes: Table, i: nat)
    requires Represents(s, routes) && i < |s|
    ensures Represents(s[..i] + s[i + 1..], routes - {s[i].prefix})
  {
    Member(s, routes, s[i]);
    assert s[i] == SubtreeRoute(s[i].prefix, routes[s[i].prefix]);
    BagRemove(routes, s[i].prefix);
    BagSplit(s, i);
    var t := s[..i] + s[i + 1..];
    forall r ensures multiset(t)[r] == SubtreeBag(routes - {s[i].prefix})[r] {
      assert multiset(s)[r] == SubtreeBag(routes)[r];
    }
  }

  lemma ReplaceAt(s: seq<SubtreeRoute>, routes: Table, i: nat, h: Handler)
    requires Represents(s, routes) && i < |s|
    ensures Represents(s[i := SubtreeRoute(s[i].prefix, h)], routes[s[i].prefix := h])
  {
    var p := s[i].prefix;
    var t := s[i := SubtreeRoute(p, h)];
    RemoveAt(s, routes, i);
    Member(s, routes, s[i]);
    BagSplit(t, i);
    assert t[..i] + t[i + 1..] == s[..i] + s[i + 1..];
    BagAdd(routes - {p}, p, h);
    assert (routes - {p})[p := h] == routes[p := h];
  }

  /** Library sort by decreasing prefix length; like the library's, it promises no stability. */
  method SortByLength(s: seq<SubtreeRoute>) returns (r: seq<SubtreeRoute>)
    ensures LongestFirst(r) && multiset(r) == multiset(s)
  {
    r := [];
    var n := 0;
    while n < |s|
      invariant 0 <= n <= |s| && LongestFirst(r) && multiset(r) == multiset(s[..n])
    {
      var i := InsertionPoint(r, s[n]);
      Insert(r, i, s[n]);
      assert s[..n + 1] == s[..n] + [s[n]];
      r := r[..i] + [s[n]] + r[i..];
      n := n + 1;
    }
    assert s[..n] == s;
  }

  method InsertionPoint(r: seq<SubtreeRoute>, x: SubtreeRoute) returns (i: nat)
    ensures i <= |r| && forall k | 0 <= k < i :: |r[k].prefix| >= |x.prefix|
    ensures i < |r| ==> |r[i].prefix| < |x.prefix|
  {
    i := 0;
    while i < |r| && |r[i].prefix| >= |x.prefix|
      invariant i <= |r| && forall k | 0 <= k < i :: |r[k].prefix| >= |x.prefix|
    {
      i := i + 1;
    }
  }

  lemma Insert(r: seq<SubtreeRoute>, i: nat, x: SubtreeRoute)
    requires LongestFirst(r) && i <= |r|
    requires (forall k | 0 <= k < i :: |r[k].prefix| >= |x.prefix|) && (i < |r| ==> |r[i].prefix| < |x.prefix|)
    ensures LongestFirst(r[..i] + [x] + r[i..]) && multiset(r[..i] + [x] + r[i..]) == multiset(r) + multiset{x}
  {
    InsertBag(r, i, x);
    var t := r[..i] + [x] + r[i..];
    forall j, k | 0 <= j < k < |t| ensures |t[j].prefix| >= |t[k].prefix| {
      var a := if j < i then r[j] else if j == i then x else r[j - 1];
      var b := if k < i then r[k] else if k == i then x else r[k - 1];
      assert t[j] == a && t[k] == b;
    }
  }

  lemma InsertBag(r: seq<SubtreeRoute>, i: nat, x: SubtreeRoute)
    requires i <= |r|
    ensures multiset(r[..i] + [x] + r[i..]) == multiset(r) + multiset{x}
  {
    assert r == r[..i] + r[i..];
  }

  class Mux {
    var exact: Table
    var subtree: seq<SubtreeRoute>
    // The latest registration of every pattern.
    ghost var routes: Table

    ghost predicate Valid()
      reads this
    {
      exact == ExactPart(routes) && Represents(subtree, routes)
    }

    constructor ()
      ensures Valid() && routes == map[]
    {
      exact, subtree, routes := map[], [], map[];
    }

    /** Resolves a path: exact wins, else the longest subtree prefix. */
    method Match(path: string) returns (r: Option<Handler>)
      requires Valid()
      ensures Answers(routes, path, r)
    {
      if path in exact {
        return Some(exact[path]);
      }
      var i := 0;
      while i < |subtree|
        invariant 0 <= i <= |subtree|
        invariant forall k | 0 <= k < i :: !(subtree[k].prefix <= path)
      {
        if subtree[i].prefix <= path {
          FirstIsLongest(subtree, routes, path, i);
          return Some(subtree[i].h);
        }
        i := i + 1;
      }
      FirstIsLongest(subtree, routes, path, i);
      return None;
    }

    /** The search both mutations start with: the entry of the pattern, or the length of the list. */
    method IndexOf(pattern: string) returns (i: nat)
      ensures i <= |subtree| && (i < |subtree| ==> subtree[i].prefix == pattern)
      ensures i == |subtree| ==> forall k | 0 <= k < |subtree| :: subtree[k].prefix != pattern
    {
      i := 0;
      while i < |subtree| && subtree[i].prefix != pattern
        invariant i <= |subtree| && forall k | 0 <= k < i :: subtree[k].prefix != pattern
      {
        i := i + 1;
      }
    }

    /** Registers or replaces one pattern and changes no other. */
    method Handle(pattern: string, h: Handler)
      requires Valid()
      modifies this
      ensures Valid() && routes == old(routes)[pattern := h]
    {
      if IsSubtree(pattern) {
        var i := IndexOf(pattern);
        if i < |subtree| {
          ReplaceAt(subtree, routes, i, h);
          subtree := subtree[i := SubtreeRoute(pattern, h)];
        } else {
          Append(subtree, routes, pattern, h);
          subtree := SortByLength(subtree + [SubtreeRoute(pattern, h)]);
        }
      } else {
        SameBag(routes, routes[pattern := h], pattern);
        exact := exact[pattern := h];
      }
      routes := routes[pattern := h];
    }

    /** Unmounts one pattern, if registered, and changes no other. */
    method Remove(pattern: string)
      requires Valid()
      modifies this
      ensures Valid() && routes == old(routes) - {pattern}
    {
      if IsSubtree(pattern) {
        var i := IndexOf(pattern);
        if i < |subtree| {
          RemoveAt(subtree, routes, i);
          subtree := subtree[..i] + subtree[i + 1..];
        } else {
          NotListed(subtree, routes, pattern);
        }
      } else {
        SameBag(routes, routes - {pattern}, pattern);
        exact := exact - {pattern};
      }
      routes := routes - {pattern};
    }
  }

  lemma NotListed(s: seq<SubtreeRoute>, routes: Table, p: string)
    requires Represents(s, routes) && IsSubtree(p) && forall k | 0 <= k < |s| :: s[k].prefix != p
    ensures p !in routes && routes - {p} == routes
  {
    if p in routes {
      Member(s, routes, SubtreeRoute(p, routes[p]));
    }
  }

  lemma Append(s: seq<SubtreeRoute>, routes: Table, p: string, h: Handler)
    requires Represents(s, routes) && IsSubtree(p) && forall k | 0 <= k < |s| :: s[k].prefix != p
    ensures multiset(s + [SubtreeRoute(p, h)]) == SubtreeBag(routes[p := h])
    ensures ExactPart(routes[p := h]) == ExactPart(routes)
  {
    NotListed(s, routes, p);
    BagAdd(routes, p, h);
  }

  /** An exact pattern is not among the subtree registrations. */
  lemma SameBag(r1: Table, r2: Table, pattern: string)
    requires !IsSubtree(pattern) && r1 - {pattern} == r2 - {pattern}
    ensures SubtreeBag(r1) == SubtreeBag(r2)
  {
    forall p | p in r1 || p in r2
      ensures p != pattern ==> (p in r1 <==> p in r2) && (p in r1 ==> r1[p] == r2[p])
    {
      assert p in r1 - {pattern} <==> p in r2 - {pattern};
      if p != pattern && p in r1 { assert (r1 - {pattern})[p] == (r2 - {pattern})[p]; }
    }
    assert (set p | p in r1 && IsSubtree(p) :: SubtreeRoute(p, r1[p]))
      == (set p | p in r2 && IsSubtree(p) :: SubtreeRoute(p, r2[p]));
  }
}
