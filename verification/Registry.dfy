/**
 The capability mirror of internal/proxy/registry.go: a remote listing is copied onto the proxy's
 server, and what was copied last time and is gone now is removed.
 */
module Registry {
  import opened Prelude
  import Filter

  /** What the listing iterator yields. */
  datatype Event = Item(name: string) | Error

  type Listing = seq<Event>

  /** The names on the proxy's server, and the names remembered from the last complete listing. */
  datatype Mirrored = Mirrored(server: set<string>, names: seq<string>)

  /** Which names of one kind of capability the filter lets through. */
  type Gate = string -> bool

  predicate Complete(l: Listing) {
    Error !in l
  }

  /** The position of the first error, or the length of the listing. */
  function FirstError(l: Listing): (k: nat)
    ensures k <= |l| && (forall i | 0 <= i < k :: l[i] != Error) && (k < |l| ==> l[k] == Error)
  {
    if l == [] || l[|l| - 1] == Error then (if l == [] then 0 else FirstError(l[..|l| - 1]))
    else
      var k := FirstError(l[..|l| - 1]);
      if k == |l| - 1 then |l| else k
  }

  /** The names among the first `n` events that pass the filter. */
  function Passing(l: Listing, n: nat, g: Gate): seq<string>
    requires n <= |l|
  {
    if n == 0 then []
    else Passing(l, n - 1, g) + (if l[n - 1].Item? && g(l[n - 1].name) then [l[n - 1].name] else [])
  }

  /** The names that pass the filter, up to the first error. */
  function Accepted(l: Listing, g: Gate): seq<string> {
    Passing(l, FirstError(l), g)
  }

  /** The filter passes the name, and it is listed before any error. */
  predicate ListedBefore(l: Listing, g: Gate, x: string) {
    g(x) && exists i | 0 <= i < |l| :: l[i] == Item(x) && Error !in l[..i]
  }

  lemma BeforeError(l: Listing, i: nat)
    requires i < |l| && l[i] != Error
    ensures Error !in l[..i] <==> i < FirstError(l)
  {
    var k := FirstError(l);
    if i < k {
      assert forall j | 0 <= j < i :: l[..i][j] == l[j];
    } else if k < |l| {
      assert k < i && l[..i][k] == Error;
    }
  }

  /** Of the first `n` events, `at` are the positions of the items that pass the filter, and `names` are theirs. */
  predicate Positions(l: Listing, n: nat, g: Gate, at: seq<nat>, names: seq<string>)
    requires n <= |l|
  {
    && |at| == |names| && (forall k | 0 <= k < |at| :: at[k] < n && l[at[k]] == Item(names[k]))
    && (forall j, k | 0 <= j < k < |at| :: at[j] < at[k])
    && forall i | 0 <= i < n :: i in at <==> l[i].Item? && g(l[i].name)
  }

  lemma PositionsNext(l: Listing, n: nat, g: Gate, at: seq<nat>, names: seq<string>)
    requires n < |l| && Positions(l, n, g, at, names)
    ensures if l[n].Item? && g(l[n].name) then Positions(l, n + 1, g, at + [n], names + [l[n].name])
            else Positions(l, n + 1, g, at, names)
  {
    assert n !in at;
    var more := at + [n];
    assert forall i :: i in more <==> i in at || i == n;
  }

  /** What passes comes in the order of the listing, with nothing left out. */
  lemma {:induction false} PassingInOrder(l: Listing, n: nat, g: Gate) returns (at: seq<nat>)
    requires n <= |l|
    ensures Positions(l, n, g, at, Passing(l, n, g))
  {
    if n == 0 {
      at := [];
    } else {
      var m := n - 1;
      var before := PassingInOrder(l, m, g);
      PositionsNext(l, m, g, before, Passing(l, m, g));
      PassingNext(l, m, g);
      at := if l[m].Item? && g(l[m].name) then before + [m] else before;
    }
  }

  lemma PassingNext(l: Listing, n: nat, g: Gate)
    requires n < |l|
    ensures Passing(l, n + 1, g)
            == if l[n].Item? && g(l[n].name) then Passing(l, n, g) + [l[n].name] else Passing(l, n, g)
  {
    assert Passing(l, n, g) + [] == Passing(l, n, g);
  }

  /** Exactly the items that pass the filter and are listed before any error are accepted. */
  lemma AcceptedIff(l: Listing, g: Gate, x: string)
    ensures x in Accepted(l, g) <==> ListedBefore(l, g, x)
  {
    var n := FirstError(l);
    var at := PassingInOrder(l, n, g);
    if x in Accepted(l, g) {
      var k :| 0 <= k < |at| && Accepted(l, g)[k] == x;
      assert at[k] in at;
      BeforeError(l, at[k]);
    }
    if i :| 0 <= i < |l| && l[i] == Item(x) && Error !in l[..i] && g(x) {
      BeforeError(l, i);
      assert i in at;
      var k :| 0 <= k < |at| && at[k] == i;
      assert Accepted(l, g)[k] == x;
    }
  }

  lemma CompleteListsAll(l: Listing, g: Gate)
    requires Complete(l)
    ensures forall x :: ListedBefore(l, g, x) <==> Item(x) in l && g(x)
  {
    forall i | 0 <= i < |l| ensures Error !in l[..i] {
      assert forall j | 0 <= j < i :: l[..i][j] in l;
    }
  }

  function Elements(s: seq<string>): set<string> {
    set x | x in s
  }

  lemma ElementsOfConcat(a: seq<string>, b: seq<string>)
    ensures Elements(a + b) == Elements(a) + Elements(b)
  {
  }

  function Missing(before: seq<string>, current: seq<string>): seq<string> {
    if before == [] then []
    else (if before[0] in current then [] else [before[0]]) + Missing(before[1..], current)
  }

  lemma {:induction false} MissingElements(before: seq<string>, current: seq<string>)
    ensures Elements(Missing(before, current)) == Elements(before) - Elements(current)
  {
    if before != [] {
      MissingElements(before[1..], current);
      var head := if before[0] in current then [] else [before[0]];
      ElementsOfConcat([before[0]], before[1..]);
      ElementsOfConcat(head, Missing(before[1..], current));
      assert before == [before[0]] + before[1..];
    }
  }

  /** The effect of one listing: an error keeps what was added so far and changes nothing else. */
  function Synced(m: Mirrored, l: Listing, g: Gate): Mirrored {
    var names := Accepted(l, g);
    if Complete(l) then
      Mirrored(m.server + Elements(names) - (Elements(m.names) - Elements(names)), names)
    else Mirrored(m.server + Elements(names), m.names)
  }

  method ComputeMissing(before: seq<string>, current: seq<string>) returns (gone: seq<string>)
    ensures gone == Missing(before, current)
  {
    var keep: set<string> := {};
    var i := 0;
    while i < |current|
      invariant 0 <= i <= |current| && keep == Elements(current[..i])
    {
      keep := keep + {current[i]};
      i := i + 1;
    }
    assert current[..i] == current;
    gone := [];
    i := 0;
    while i < |before|
      invariant 0 <= i <= |before| && gone + Missing(before[i..], current) == Missing(before, current)
    {
      if before[i] !in keep {
        gone := gone + [before[i]];
      }
      assert before[i..][1..] == before[i + 1..];
      i := i + 1;
    }
  }

  /** One kind of capability of one upstream. */
  class Mirror {
    const filter: Filter.FilterFn
    ghost const rule: Option<Filter.Rule>
    ghost const fits: string -> bool
    ghost const gate: Gate
    var server: set<string>
    var names: seq<string>

    function View(): Mirrored
      reads this
    {
      Mirrored(server, names)
    }

    ghost predicate Valid() {
      Filter.Compiled(filter, rule, fits) && forall name :: gate(name) == Filter.Exposes(rule, fits, name)
    }

    constructor (rule: Option<Filter.Rule>, fits: string -> bool)
      ensures Valid() && this.rule == rule && this.fits == fits && View() == Mirrored({}, [])
    {
      server, names := {}, [];
      this.rule, this.fits := rule, fits;
      gate := name => Filter.Exposes(rule, fits, name);
      var f := Filter.CompileRule(rule, fits);
      filter := f;
    }

    method Passes(name: string) returns (ok: bool)
      requires Valid()
      ensures ok == gate(name)
    {
      ok := Filter.Allows(filter, name, rule, fits);
    }

    /** One synchronisation pass. */
    method Register(l: Listing)
      requires Valid()
      modifies this
      ensures View() == Synced(old(View()), l, gate)
      ensures Complete(l) ==> forall x :: (x in names <==> Item(x) in l && gate(x)) && (x in names ==> x in server)
      ensures !Complete(l) ==> names == old(names)
      ensures forall x :: x in server ==> x in old(server) || (gate(x) && Item(x) in l)
    {
      forall x ensures x in Accepted(l, gate) <==> ListedBefore(l, gate, x) {
        AcceptedIff(l, gate, x);
      }
      if Complete(l) { CompleteListsAll(l, gate); }
      var found, complete := AddListed(l);
      if !complete {
        return;
      }
      var stale := ComputeMissing(names, found);
      MissingElements(names, found);
      server := server - Elements(stale);
      names := found;
    }

    /** The loop over the listing: each item that passes is registered at once, an error ends the pass. */
    method AddListed(l: Listing) returns (found: seq<string>, complete: bool)
      requires Valid()
      modifies this`server
      ensures found == Accepted(l, gate) && complete == Complete(l)
      ensures server == old(server) + Elements(found)
    {
      found := [];
      var i := 0;
      while i < |l|
        invariant 0 <= i <= |l| && forall k | 0 <= k < i :: l[k] != Error
        invariant found == Passing(l, i, gate) && server == old(server) + Elements(found)
      {
        if l[i] == Error {
          return found, false;
        }
        PassingNext(l, i, gate);
        var ok := Passes(l[i].name);
        if ok {
          server := server + {l[i].name};
          ElementsOfConcat(found, [l[i].name]);
          found := found + [l[i].name];
        }
        i := i + 1;
      }
      complete := true;
    }
  }

  /** The four mirrors of one upstream; resources and resource templates share a rule. */
  class Capabilities {
    const tools: Mirror
    const prompts: Mirror
    const resources: Mirror
    const templates: Mirror

    ghost predicate Valid() {
      && tools.Valid() && prompts.Valid() && resources.Valid() && templates.Valid()
      && tools != prompts && tools != resources && tools != templates
      && prompts != resources && prompts != templates && resources != templates
      && resources.rule == templates.rule && resources.fits == templates.fits
    }

    constructor (toolRule: Option<Filter.Rule>, promptRule: Option<Filter.Rule>, resourceRule: Option<Filter.Rule>,
                 fits: string -> bool)
      ensures Valid() && fresh(tools) && fresh(prompts) && fresh(resources) && fresh(templates)
      ensures tools.rule == toolRule && prompts.rule == promptRule && resources.rule == resourceRule
      ensures tools.fits == prompts.fits == resources.fits == fits
    {
      tools := new Mirror(toolRule, fits);
      prompts := new Mirror(promptRule, fits);
      resources := new Mirror(resourceRule, fits);
      templates := new Mirror(resourceRule, fits);
    }

    /** Nothing happens without a template session; otherwise each kind is synchronised on its own. */
    method RegisterCapabilities(connected: bool, t: Listing, p: Listing, r: Listing, rt: Listing)
      requires Valid()
      modifies tools, prompts, resources, templates
      ensures tools.View() == if connected then Synced(old(tools.View()), t, tools.gate) else old(tools.View())
      ensures prompts.View() == if connected then Synced(old(prompts.View()), p, prompts.gate) else old(prompts.View())
      ensures resources.View()
              == if connected then Synced(old(resources.View()), r, resources.gate) else old(resources.View())
      ensures templates.View()
              == if connected then Synced(old(templates.View()), rt, templates.gate) else old(templates.View())
    {
      if !connected {
        return;
      }
      tools.Register(t);
      prompts.Register(p);
      resources.Register(r);
      templates.Register(rt);
    }
  }

  // ---- runs ----

  function Run(ls: seq<Listing>, g: Gate): Mirrored {
    if ls == [] then Mirrored({}, []) else Synced(Run(ls[..|ls| - 1], g), ls[|ls| - 1], g)
  }

  /** The filtered names of the last complete listing. */
  function LastComplete(ls: seq<Listing>, g: Gate): seq<string> {
    if ls == [] then []
    else if Complete(ls[|ls| - 1]) then Accepted(ls[|ls| - 1], g)
    else LastComplete(ls[..|ls| - 1], g)
  }

  /** The listing completed, or failed before its first item. */
  predicate Clean(l: Listing) {
    Complete(l) || (l != [] && l[0] == Error)
  }

  lemma {:induction false} NamesAreLastComplete(ls: seq<Listing>, g: Gate)
    ensures Run(ls, g).names == LastComplete(ls, g)
  {
    if ls != [] {
      NamesAreLastComplete(ls[..|ls| - 1], g);
    }
  }

  /** The server holds exactly the remembered names. */
  predicate Exact(m: Mirrored) {
    m.server == Elements(m.names)
  }

  /** After clean listings the server holds exactly the remembered names: the filtered last complete listing. */
  lemma {:induction false} CleanRunsAgree(ls: seq<Listing>, g: Gate)
    requires forall l | l in ls :: Clean(l)
    ensures Exact(Run(ls, g))
    ensures Run(ls, g).names == LastComplete(ls, g)
  {
    NamesAreLastComplete(ls, g);
    if ls != [] {
      var before, l := Run(ls[..|ls| - 1], g), ls[|ls| - 1];
      assert forall k | k in ls[..|ls| - 1] :: k in ls;
      CleanRunsAgree(ls[..|ls| - 1], g);
      assert l in ls && Clean(l);
      if Complete(l) {
        var n := Elements(Accepted(l, g));
        assert before.server + n - (before.server - n) == n;
      } else {
        assert Accepted(l, g) == [];
      }
    }
  }

  lemma {:induction false} PassingPass(l: Listing, n: nat, g: Gate)
    requires n <= |l|
    ensures forall x | x in Passing(l, n, g) :: g(x) && Item(x) in l
  {
    if n > 0 {
      PassingPass(l, n - 1, g);
    }
  }

  /** Whatever fails and when: everything on the server passes the filter and all remembered names are on it. */
  lemma {:induction false} OnlyFilteredIsRegistered(ls: seq<Listing>, g: Gate)
    ensures forall x | x in Run(ls, g).server :: g(x)
    ensures Elements(Run(ls, g).names) <= Run(ls, g).server
  {
    if ls != [] {
      OnlyFilteredIsRegistered(ls[..|ls| - 1], g);
      PassingPass(ls[|ls| - 1], FirstError(ls[|ls| - 1]), g);
    }
  }

  /** A listing that fails removes nothing and forgets nothing. */
  lemma FailedPassRemovesNothing(m: Mirrored, l: Listing, g: Gate)
    requires !Complete(l)
    ensures m.server <= Synced(m, l, g).server && Synced(m, l, g).names == m.names
  {
  }

  /** On the server but not remembered: left there by a listing that failed part-way. */
  function Strays(m: Mirrored): set<string> {
    m.server - Elements(m.names)
  }

  /** A complete listing makes the mirror exact exactly when it names every stray that is on the server. */
  lemma ExactAgainIff(ls: seq<Listing>, l: Listing, g: Gate)
    requires Complete(l)
    ensures var m := Run(ls, g);
            var n := Synced(m, l, g);
            (Exact(n) <==> Strays(m) <= Elements(Accepted(l, g)))
            && Strays(n) == Strays(m) - Elements(Accepted(l, g))
  {
    OnlyFilteredIsRegistered(ls, g);
    var m := Run(ls, g);
    var n := Synced(m, l, g);
    assert Strays(n) == Strays(m) - Elements(Accepted(l, g));
    if Exact(n) {
      assert Strays(n) == {};
      forall x | x in Strays(m) ensures x in Elements(Accepted(l, g)) {
        assert x !in Strays(n);
      }
    } else {
      assert Elements(n.names) <= n.server;
      var x :| x in n.server && x !in Elements(n.names);
      assert x in Strays(n);
    }
  }

  /**
   A failing listing leaves the mirror exact exactly when it was, and what was accepted before the
   failure is remembered already.
  */
  lemma FailedPassExactIff(ls: seq<Listing>, l: Listing, g: Gate)
    requires !Complete(l)
    ensures var m := Run(ls, g);
            Exact(Synced(m, l, g)) <==> Exact(m) && Elements(Accepted(l, g)) <= Elements(m.names)
  {
    OnlyFilteredIsRegistered(ls, g);
    FailedPassRemovesNothing(Run(ls, g), l, g);
  }

  /**
   The k-th listing failed after accepting `x`, which was not remembered then, and no complete listing
   has accepted it since.
  */
  predicate LeftBy(ls: seq<Listing>, g: Gate, k: nat, x: string)
    requires k < |ls|
  {
    && !Complete(ls[k]) && x in Accepted(ls[k], g) && x !in LastComplete(ls[..k], g)
    && forall j | k < j < |ls| && Complete(ls[j]) :: x !in Accepted(ls[j], g)
  }

  predicate IsLeft(ls: seq<Listing>, g: Gate, x: string) {
    exists k | 0 <= k < |ls| :: LeftBy(ls, g, k, x)
  }

  lemma LeftByNext(ls: seq<Listing>, g: Gate, k: nat, x: string)
    requires k < |ls| - 1
    ensures var last := ls[|ls| - 1];
            LeftBy(ls, g, k, x) <==> LeftBy(ls[..|ls| - 1], g, k, x) && !(Complete(last) && x in Accepted(last, g))
  {
    var init := ls[..|ls| - 1];
    assert init[..k] == ls[..k] && init[k] == ls[k];
    assert forall j | 0 <= j < |init| :: init[j] == ls[j];
  }

  lemma IsLeftNext(ls: seq<Listing>, g: Gate, x: string)
    requires ls != []
    ensures var n := |ls| - 1;
            IsLeft(ls, g, x) <==>
            LeftBy(ls, g, n, x) || (IsLeft(ls[..n], g, x) && !(Complete(ls[n]) && x in Accepted(ls[n], g)))
  {
    var n := |ls| - 1;
    forall k | 0 <= k < n
      ensures LeftBy(ls, g, k, x) <==> LeftBy(ls[..n], g, k, x) && !(Complete(ls[n]) && x in Accepted(ls[n], g))
    {
      LeftByNext(ls, g, k, x);
    }
  }

  lemma StraysNext(m: Mirrored, l: Listing, g: Gate, x: string)
    requires Elements(m.names) <= m.server
    ensures x in Strays(Synced(m, l, g)) <==>
            if Complete(l) then x in Strays(m) && x !in Accepted(l, g)
            else x in Strays(m) || (x in Accepted(l, g) && x !in m.names)
  {
  }

  /** Over all histories: what is on the server without being remembered is exactly what failed listings have left. */
  lemma {:induction false} StraysAreLeft(ls: seq<Listing>, g: Gate, x: string)
    ensures x in Strays(Run(ls, g)) <==> IsLeft(ls, g, x)
  {
    if ls != [] {
      var n := |ls| - 1;
      StraysAreLeft(ls[..n], g, x);
      OnlyFilteredIsRegistered(ls[..n], g);
      NamesAreLastComplete(ls[..n], g);
      IsLeftNext(ls, g, x);
      StraysNext(Run(ls[..n], g), ls[n], g, x);
    }
  }

  /** Over all histories the mirror is exact exactly when no listing has left anything. */
  lemma MirrorIsExactIff(ls: seq<Listing>, g: Gate)
    ensures Exact(Run(ls, g)) <==> forall x :: !IsLeft(ls, g, x)
  {
    OnlyFilteredIsRegistered(ls, g);
    var m := Run(ls, g);
    forall x ensures x in Strays(m) <==> IsLeft(ls, g, x) {
      StraysAreLeft(ls, g, x);
    }
    if !Exact(m) {
      var x :| x in m.server && x !in Elements(m.names);
      assert x in Strays(m);
    }
  }

  /** A mid-listing failure does leave the mirror inexact. */
  lemma PartialListingLeavesStray(name: string)
    ensures var g: Gate := _ => true;
            Run([[Item(name), Error]], g) == Mirrored({name}, [])
  {
    var g: Gate := _ => true;
    var l := [Item(name), Error];
    assert l[1] == Error && FirstError(l) == 1;
    assert Passing(l, 0, g) == [] && Accepted(l, g) == [name];
    var none: seq<Listing> := [];
    assert [l][..0] == none;
  }
}
