/**
 Mirroring the roots of a downstream client onto its upstream connection (syncRoots of
 internal/proxy/proxy.go): the remembered list is swapped under a lock, the connection is told outside it.
 */
module Roots {
  import opened Prelude
  import opened Registry

  class Session {
    // What was listed last, and the roots the upstream has been told of.
    var rootURIs: seq<string>
    var told: set<string>

    predicate Valid()
      reads this
    {
      told == Elements(rootURIs)
    }

    constructor ()
      ensures Valid() && told == {}
    {
      rootURIs, told := [], {};
    }

    /** One call, met by no other: the upstream knows exactly the listed roots; a failed listing changes nothing. */
    method SyncRoots(usable: bool, listed: Option<seq<string>>)
      requires Valid()
      modifies this
      ensures Valid()
      ensures rootURIs == if usable && listed.Some? then listed.value else old(rootURIs)
    {
      if !usable || listed.None? {
        return;
      }
      var before := rootURIs;
      rootURIs := listed.value;
      var gone := ComputeMissing(before, rootURIs);
      MissingElements(before, rootURIs);
      told := told - Elements(gone);
      told := told + Elements(rootURIs);
    }
  }

  // ---- calls that overlap, from their swaps on; what comes before is in RootsListing ----

  /** A call that has swapped: what it has still to remove, if it has not yet, and to add. */
  datatype Call = Call(gone: set<string>, added: set<string>, removed: bool)

  /**
   The remembered and the told roots, and the calls that have swapped and not returned, in the order of
   their swaps.
  */
  datatype State = State(listed: set<string>, told: set<string>, pending: seq<Call>)

  /** The three statements of a call that others can observe: the swap, RemoveRoots and AddRoots. */
  datatype Step = Swap(listed: set<string>) | Remove(i: nat) | Add(i: nat)

  predicate Enabled(s: State, a: Step) {
    match a
    case Swap(_) => true
    case Remove(i) => i < |s.pending| && !s.pending[i].removed
    case Add(i) => i < |s.pending| && s.pending[i].removed
  }

  function Apply(s: State, a: Step): State
    requires Enabled(s, a)
  {
    match a
    case Swap(listed) => State(listed, s.told, s.pending + [Call(s.listed - listed, listed, false)])
    case Remove(i) =>
      var c := s.pending[i];
      State(s.listed, s.told - c.gone, s.pending[i := c.(removed := true)])
    case Add(i) => State(s.listed, s.told + s.pending[i].added, s.pending[..i] + s.pending[i + 1..])
  }

  predicate Runs(s: State, acts: seq<Step>)
    decreases acts
  {
    acts == [] || (Enabled(s, acts[0]) && Runs(Apply(s, acts[0]), acts[1..]))
  }

  function After(s: State, acts: seq<Step>): State
    requires Runs(s, acts)
    decreases acts
  {
    if acts == [] then s else After(Apply(s, acts[0]), acts[1..])
  }

  lemma {:induction false} RunsOn(s: State, a: seq<Step>, b: seq<Step>)
    requires Runs(s, a) && Runs(After(s, a), b)
    ensures Runs(s, a + b) && After(s, a + b) == After(After(s, a), b)
    decreases a
  {
    if a == [] {
      assert a + b == b;
    } else {
      assert (a + b)[1..] == a[1..] + b;
      RunsOn(Apply(s, a[0]), a[1..], b);
    }
  }

  /** A state in which no call is under way and the upstream knows the remembered roots. */
  function Quiet(listed: set<string>): State {
    State(listed, listed, [])
  }

  // ---- calls one after another ----

  /**
   The call at the head of the queue runs alone: nothing is interleaved with its two updates and it
   overtakes nobody.
  */
  predicate InOrder(acts: seq<Step>) {
    forall a | a in acts && !a.Swap? :: a.i == 0
  }

  function Finished(told: set<string>, c: Call): set<string> {
    (if c.removed then told else told - c.gone) + c.added
  }

  /** What the upstream will know when the pending calls have finished in order. */
  function Drained(told: set<string>, pending: seq<Call>): set<string>
    decreases pending
  {
    if pending == [] then told else Drained(Finished(told, pending[0]), pending[1..])
  }

  lemma {:induction false} DrainedLast(told: set<string>, pending: seq<Call>, c: Call)
    ensures Drained(told, pending + [c]) == Finished(Drained(told, pending), c)
    decreases pending
  {
    if pending == [] {
      assert [c][1..] == [];
    } else {
      assert (pending + [c])[1..] == pending[1..] + [c];
      DrainedLast(Finished(told, pending[0]), pending[1..], c);
    }
  }

  lemma InOrderStep(s: State, a: Step)
    requires Enabled(s, a) && Drained(s.told, s.pending) == s.listed && (a.Swap? || a.i == 0)
    ensures var t := Apply(s, a); Drained(t.told, t.pending) == t.listed
  {
    match a
    case Swap(listed) => DrainedLast(s.told, s.pending, Call(s.listed - listed, listed, false));
    case Remove(_) => assert Apply(s, a).pending[1..] == s.pending[1..];
    case Add(_) => assert s.pending[..0] + s.pending[1..] == s.pending[1..];
  }

  /** If each call finishes before the next one tells anything, the upstream ends up with what was swapped in last. */
  lemma {:induction false} InOrderIsExact(s: State, acts: seq<Step>)
    requires Drained(s.told, s.pending) == s.listed && Runs(s, acts) && InOrder(acts)
    ensures var t := After(s, acts); Drained(t.told, t.pending) == t.listed && (t.pending == [] ==> t.told == t.listed)
    decreases acts
  {
    if acts != [] {
      assert acts[0] in acts;
      InOrderStep(s, acts[0]);
      InOrderIsExact(Apply(s, acts[0]), acts[1..]);
    }
  }

  // ---- every schedule ----

  /** The listings of the calls in a schedule, in the order of their swaps. */
  function Listings(acts: seq<Step>): seq<set<string>> {
    if acts == [] then [] else (if acts[0].Swap? then [acts[0].listed] else []) + Listings(acts[1..])
  }

  /** A way in which calls with these listings can overlap, from a quiet state until all have returned. */
  predicate Schedule(before: set<string>, lists: seq<set<string>>, acts: seq<Step>) {
    Listings(acts) == lists && Runs(Quiet(before), acts) && After(Quiet(before), acts).pending == []
  }

  function Last(before: set<string>, lists: seq<set<string>>): set<string> {
    if lists == [] then before else lists[|lists| - 1]
  }

  /** What was remembered when the k-th call swapped. */
  function Before(before: set<string>, lists: seq<set<string>>, k: nat): set<string>
    requires k < |lists|
  {
    if k == 0 then before else lists[k - 1]
  }

  /** Every listing is within the last one, and drops nothing of it that the one before had. */
  predicate NothingComesBack(before: set<string>, lists: seq<set<string>>, last: set<string>) {
    forall k | 0 <= k < |lists| :: lists[k] <= last && Before(before, lists, k) * last <= lists[k]
  }

  /** A root is told only if it is in the last listing or a call will still remove it. */
  predicate NothingStrange(before: set<string>, last: set<string>, started: bool, s: State) {
    forall x | x in s.told :: x in last || (x in before && (started ==> StillRemoved(s.pending, x)))
  }

  predicate StillRemoved(pending: seq<Call>, x: string) {
    exists i | 0 <= i < |pending| :: !pending[i].removed && x in pending[i].gone
  }

  predicate StillAdded(pending: seq<Call>, x: string) {
    exists i | 0 <= i < |pending| :: x in pending[i].added
  }

  /** What is listed and will stay is told, or a call will still add it; no call removes what will stay. */
  predicate NothingLost(last: set<string>, s: State) {
    && (forall x | x in s.listed && x in last :: x in s.told || StillAdded(s.pending, x))
    && forall i | 0 <= i < |s.pending| :: s.pending[i].gone !! last && s.pending[i].added <= last
  }

  lemma SwapKeeps(before: set<string>, last: set<string>, started: bool, s: State, listed: set<string>)
    requires NothingStrange(before, last, started, s) && NothingLost(last, s)
    requires listed <= last && s.listed * last <= listed && (!started ==> s.listed == before)
    ensures NothingStrange(before, last, true, Apply(s, Swap(listed))) && NothingLost(last, Apply(s, Swap(listed)))
  {
    var n := |s.pending|;
    var t := Apply(s, Swap(listed));
    assert t.pending[n] == Call(s.listed - listed, listed, false);
    forall x | x in t.told && x !in last ensures StillRemoved(t.pending, x) {
      if started {
        var i :| 0 <= i < n && !s.pending[i].removed && x in s.pending[i].gone;
        assert t.pending[i] == s.pending[i];
      } else {
        assert x in t.pending[n].gone;
      }
    }
    assert forall x | x in listed :: x in t.pending[n].added;
  }

  lemma RemoveKeeps(before: set<string>, last: set<string>, started: bool, s: State, k: nat)
    requires Enabled(s, Remove(k)) && NothingStrange(before, last, started, s) && NothingLost(last, s)
    ensures NothingStrange(before, last, started, Apply(s, Remove(k))) && NothingLost(last, Apply(s, Remove(k)))
  {
    var t := Apply(s, Remove(k));
    forall x | x in t.told && x !in last && started ensures StillRemoved(t.pending, x) {
      var i :| 0 <= i < |s.pending| && !s.pending[i].removed && x in s.pending[i].gone;
      assert t.pending[i] == s.pending[i];
    }
    forall x | x in t.listed && x in last && x !in t.told ensures StillAdded(t.pending, x) {
      var i :| 0 <= i < |s.pending| && x in s.pending[i].added;
      assert x in t.pending[i].added;
    }
  }

  lemma AddKeeps(before: set<string>, last: set<string>, started: bool, s: State, k: nat)
    requires Enabled(s, Add(k)) && NothingStrange(before, last, started, s) && NothingLost(last, s)
    ensures NothingStrange(before, last, started, Apply(s, Add(k))) && NothingLost(last, Apply(s, Add(k)))
  {
    var t := Apply(s, Add(k));
    forall x | x in t.told && x !in last && started ensures StillRemoved(t.pending, x) {
      var i :| 0 <= i < |s.pending| && !s.pending[i].removed && x in s.pending[i].gone;
      assert s.pending[i] == t.pending[if i < k then i else i - 1];
    }
    forall x | x in t.listed && x in last && x !in t.told ensures StillAdded(t.pending, x) {
      var i :| 0 <= i < |s.pending| && x in s.pending[i].added;
      assert s.pending[i] == t.pending[if i < k then i else i - 1];
    }
  }

  lemma {:induction false} NothingComesBackSuffices(before: set<string>, last: set<string>, started: bool, s: State,
                                                    acts: seq<Step>)
    requires Runs(s, acts) && NothingComesBack(s.listed, Listings(acts), last) && (!started ==> s.listed == before)
    requires NothingStrange(before, last, started, s) && NothingLost(last, s)
    ensures After(s, acts).listed == Last(s.listed, Listings(acts))
    ensures NothingStrange(before, last, started || Listings(acts) != [], After(s, acts))
            && NothingLost(last, After(s, acts))
    decreases acts
  {
    if acts != [] {
      var lists, rest := Listings(acts), Listings(acts[1..]);
      match acts[0]
      case Swap(listed) =>
        assert lists == [listed] + rest && lists[0] == listed && Before(s.listed, lists, 0) == s.listed;
        SwapKeeps(before, last, started, s, listed);
        forall k | 0 <= k < |rest| ensures rest[k] <= last && Before(listed, rest, k) * last <= rest[k] {
          assert rest[k] == lists[k + 1] && Before(listed, rest, k) == Before(s.listed, lists, k + 1);
        }
        NothingComesBackSuffices(before, last, true, Apply(s, acts[0]), acts[1..]);
      case Remove(k) =>
        assert lists == rest;
        RemoveKeeps(before, last, started, s, k);
        NothingComesBackSuffices(before, last, started, Apply(s, acts[0]), acts[1..]);
      case Add(k) =>
        assert lists == rest;
        AddKeeps(before, last, started, s, k);
        NothingComesBackSuffices(before, last, started, Apply(s, acts[0]), acts[1..]);
    }
  }

  // ---- a schedule in which a given call finishes last ----

  function SwapAll(lists: seq<set<string>>): seq<Step> {
    if lists == [] then [] else [Swap(lists[0])] + SwapAll(lists[1..])
  }

  /** The calls pending after these swaps. */
  function Calls(before: set<string>, lists: seq<set<string>>): seq<Call>
    decreases lists
  {
    if lists == [] then [] else [Call(before - lists[0], lists[0], false)] + Calls(lists[0], lists[1..])
  }

  lemma {:induction false} CallAt(before: set<string>, lists: seq<set<string>>, k: nat)
    requires k < |lists|
    ensures |Calls(before, lists)| == |lists|
    ensures Calls(before, lists)[k] == Call(Before(before, lists, k) - lists[k], lists[k], false)
    decreases lists
  {
    if |lists| > 1 {
      CallAt(lists[0], lists[1..], if k == 0 then 0 else k - 1);
    }
  }

  lemma {:induction false} NoneRemoved(before: set<string>, lists: seq<set<string>>)
    ensures forall c | c in Calls(before, lists) :: !c.removed
    decreases lists
  {
    if lists != [] {
      NoneRemoved(lists[0], lists[1..]);
    }
  }

  lemma {:induction false} ListingsOfSwaps(lists: seq<set<string>>)
    ensures Listings(SwapAll(lists)) == lists
  {
    if lists != [] {
      assert SwapAll(lists)[1..] == SwapAll(lists[1..]);
      ListingsOfSwaps(lists[1..]);
    }
  }

  lemma {:induction false} AllSwapped(s: State, lists: seq<set<string>>)
    ensures Runs(s, SwapAll(lists))
    ensures After(s, SwapAll(lists)) == State(Last(s.listed, lists), s.told, s.pending + Calls(s.listed, lists))
    decreases lists
  {
    if lists == [] {
      assert s.pending + [] == s.pending;
    } else {
      var n := Apply(s, Swap(lists[0]));
      assert SwapAll(lists)[1..] == SwapAll(lists[1..]);
      AllSwapped(n, lists[1..]);
      Associate(s.pending, Call(s.listed - lists[0], lists[0], false), Calls(lists[0], lists[1..]));
    }
  }

  lemma Associate(a: seq<Call>, c: Call, b: seq<Call>)
    ensures (a + [c]) + b == a + ([c] + b)
  {
  }

  lemma FinishOne(s: State, i: nat) returns (acts: seq<Step>)
    requires i < |s.pending| && !s.pending[i].removed
    ensures Runs(s, acts) && Listings(acts) == []
    ensures After(s, acts)
            == State(s.listed, s.told - s.pending[i].gone + s.pending[i].added, s.pending[..i] + s.pending[i + 1..])
  {
    acts := [Remove(i), Add(i)];
    var t := Apply(s, Remove(i));
    assert acts[1..] == [Add(i)] && [Add(i)][1..] == [] && Listings([Add(i)]) == [];
    assert t.pending[..i] == s.pending[..i] && t.pending[i + 1..] == s.pending[i + 1..];
    assert Runs(Apply(t, Add(i)), []);
    assert Runs(t, [Add(i)]) && After(t, [Add(i)]) == Apply(t, Add(i));
  }

  lemma {:induction false} ListingsOn(a: seq<Step>, b: seq<Step>)
    ensures Listings(a + b) == Listings(a) + Listings(b)
  {
    if a == [] {
      assert a + b == b;
    } else {
      var first := if a[0].Swap? then [a[0].listed] else [];
      assert (a + b)[1..] == a[1..] + b;
      ListingsOn(a[1..], b);
      assert first + (Listings(a[1..]) + Listings(b)) == first + Listings(a[1..]) + Listings(b);
    }
  }

  lemma {:induction false} FinishOthers(s: State, k: nat) returns (acts: seq<Step>)
    requires k < |s.pending| && forall i | 0 <= i < |s.pending| :: !s.pending[i].removed
    ensures Runs(s, acts) && Listings(acts) == []
    ensures After(s, acts).listed == s.listed && After(s, acts).pending == [s.pending[k]]
    decreases |s.pending|
  {
    if |s.pending| == 1 {
      acts := [];
    } else {
      var i := if k == 0 then 1 else 0;
      var one := FinishOne(s, i);
      var t := After(s, one);
      var rest := FinishOthers(t, if k == 0 then 0 else k - 1);
      RunsOn(s, one, rest);
      ListingsOn(one, rest);
      acts := one + rest;
    }
  }

  lemma FinishLast(before: set<string>, lists: seq<set<string>>, k: nat) returns (acts: seq<Step>)
    requires k < |lists|
    ensures Schedule(before, lists, acts)
    ensures var told := After(Quiet(before), acts).told;
            lists[k] <= told && (Before(before, lists, k) - lists[k]) !! told
  {
    var s := Quiet(before);
    AllSwapped(s, lists);
    ListingsOfSwaps(lists);
    CallAt(before, lists, k);
    NoneRemoved(before, lists);
    var swapped := After(s, SwapAll(lists));
    assert swapped.pending == Calls(before, lists);
    var others := FinishOthers(swapped, k);
    var one := FinishOne(After(swapped, others), 0);
    acts := Three(s, SwapAll(lists), others, one);
  }

  lemma Three(s: State, a: seq<Step>, b: seq<Step>, c: seq<Step>) returns (acts: seq<Step>)
    requires Runs(s, a) && Runs(After(s, a), b) && Runs(After(After(s, a), b), c)
    ensures Runs(s, acts) && After(s, acts) == After(After(After(s, a), b), c)
    ensures Listings(acts) == Listings(a) + Listings(b) + Listings(c)
  {
    RunsOn(s, a, b);
    RunsOn(s, a + b, c);
    ListingsOn(a, b);
    ListingsOn(a + b, c);
    acts := a + b + c;
  }

  // ---- when overlapping calls are exact ----

  ghost predicate AlwaysExact(before: set<string>, lists: seq<set<string>>) {
    forall acts | Schedule(before, lists, acts) :: After(Quiet(before), acts).told == Last(before, lists)
  }

  /**
   Calls that swap in this order and overlap in any way leave the upstream with the list remembered
   last in every schedule exactly when nothing that was listed comes or goes twice.
  */
  lemma OverlapIsExactIff(before: set<string>, lists: seq<set<string>>)
    ensures AlwaysExact(before, lists) <==> NothingComesBack(before, lists, Last(before, lists))
  {
    var last := Last(before, lists);
    if NothingComesBack(before, lists, last) {
      forall acts | Schedule(before, lists, acts) ensures After(Quiet(before), acts).told == last {
        NothingComesBackSuffices(before, last, false, Quiet(before), acts);
      }
    }
    if AlwaysExact(before, lists) {
      forall k | 0 <= k < |lists| ensures lists[k] <= last && Before(before, lists, k) * last <= lists[k] {
        var acts := FinishLast(before, lists, k);
        assert After(Quiet(before), acts).told == last;
      }
    }
  }

  /**
   Two calls: the list swapped in first must be within the second, and the second bring nothing back
   that the first dropped.
  */
  lemma TwoCallsAreExactIff(before: set<string>, first: set<string>, second: set<string>)
    ensures AlwaysExact(before, [first, second]) <==> first <= second && before * second <= first
  {
    var lists := [first, second];
    OverlapIsExactIff(before, lists);
    assert lists[0] == first && lists[1] == second && Before(before, lists, 0) == before
      && Before(before, lists, 1) == first;
  }

  /** A root dropped between two calls stays, if the later call overtakes the earlier one. */
  lemma DroppedRootStays()
    ensures var acts := [Swap({"a"}), Swap({}), Remove(1), Add(1), Remove(0), Add(0)];
            Schedule({}, [{"a"}, {}], acts) && After(Quiet({}), acts).told == {"a"}
  {
  }

  /** It may stay even if the calls return in order, when their updates interleave. */
  lemma DroppedRootStaysInOrder()
    ensures var acts := [Swap({"x", "y"}), Swap({"x"}), Remove(0), Remove(1), Add(0), Add(0)];
            Schedule({"x"}, [{"x", "y"}, {"x"}], acts) && After(Quiet({"x"}), acts).told == {"x", "y"}
  {
  }
}
