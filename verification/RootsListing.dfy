/**
 Calls of syncRoots from the moment they ask the client: listing the roots is a round trip without a
 lock, so calls that overlap may swap the remembered list in another order than they listed.
 The statements after the swap, and the remembered list, are those of Roots.
 */
module RootsListing {
  import opened Roots

  /**
   What the calls that have listed and not swapped were told by the client, in the order they asked, and
   the connection.
  */
  datatype Mirror = Mirror(waiting: seq<set<string>>, conn: State)

  /** The client answers a call; a call that has its answer swaps; a call that has swapped tells the upstream. */
  datatype Act = List(roots: set<string>) | Take(i: nat) | Tell(step: Step)

  predicate CanAct(m: Mirror, a: Act) {
    match a
    case List(_) => true
    case Take(i) => i < |m.waiting|
    case Tell(step) => !step.Swap? && Enabled(m.conn, step)
  }

  function Do(m: Mirror, a: Act): Mirror
    requires CanAct(m, a)
  {
    match a
    case List(roots) => m.(waiting := m.waiting + [roots])
    case Take(i) => Mirror(m.waiting[..i] + m.waiting[i + 1..], Apply(m.conn, Swap(m.waiting[i])))
    case Tell(step) => m.(conn := Apply(m.conn, step))
  }

  predicate Can(m: Mirror, acts: seq<Act>)
    decreases acts
  {
    acts == [] || (CanAct(m, acts[0]) && Can(Do(m, acts[0]), acts[1..]))
  }

  function DoAll(m: Mirror, acts: seq<Act>): Mirror
    requires Can(m, acts)
    decreases acts
  {
    if acts == [] then m else DoAll(Do(m, acts[0]), acts[1..])
  }

  /** What the client answered, in the order it was asked. */
  function Listed(acts: seq<Act>): seq<set<string>> {
    if acts == [] then [] else (if acts[0].List? then [acts[0].roots] else []) + Listed(acts[1..])
  }

  predicate AllReturned(m: Mirror) {
    m.waiting == [] && m.conn.pending == []
  }

  function Resting(roots: set<string>): Mirror {
    Mirror([], Quiet(roots))
  }

  lemma {:induction false} CanOn(m: Mirror, a: seq<Act>, b: seq<Act>)
    requires Can(m, a) && Can(DoAll(m, a), b)
    ensures Can(m, a + b) && DoAll(m, a + b) == DoAll(DoAll(m, a), b) && Listed(a + b) == Listed(a) + Listed(b)
    decreases a
  {
    if a == [] {
      assert a + b == b;
    } else {
      var first := if a[0].List? then [a[0].roots] else [];
      assert (a + b)[1..] == a[1..] + b;
      CanOn(Do(m, a[0]), a[1..], b);
      assert first + (Listed(a[1..]) + Listed(b)) == first + Listed(a[1..]) + Listed(b);
    }
  }

  // ---- calls that swap in the order they listed ----

  /** No call overtakes another: the one that listed first swaps first, and finishes before the next tells anything. */
  predicate InTurn(acts: seq<Act>) {
    forall a | a in acts :: (a.Take? ==> a.i == 0) && (a.Tell? && !a.step.Swap? ==> a.step.i == 0)
  }

  /** What the upstream will know when every call that has listed has finished in turn. */
  function Settled(m: Mirror): set<string> {
    if m.waiting == [] then Drained(m.conn.told, m.conn.pending) else m.waiting[|m.waiting| - 1]
  }

  predicate Kept(m: Mirror) {
    Drained(m.conn.told, m.conn.pending) == m.conn.listed
  }

  lemma InTurnStep(m: Mirror, a: Act)
    requires CanAct(m, a) && Kept(m) && (a.Take? ==> a.i == 0) && (a.Tell? ==> a.step.i == 0)
    ensures Kept(Do(m, a)) && Settled(Do(m, a)) == if a.List? then a.roots else Settled(m)
  {
    match a
    case List(_) =>
    case Take(_) =>
      InOrderStep(m.conn, Swap(m.waiting[0]));
      assert m.waiting[..0] + m.waiting[1..] == m.waiting[1..];
    case Tell(step) => InOrderStep(m.conn, step);
  }

  lemma {:induction false} InTurnSettles(m: Mirror, acts: seq<Act>)
    requires Can(m, acts) && InTurn(acts) && Kept(m)
    ensures Kept(DoAll(m, acts)) && Settled(DoAll(m, acts)) == Last(Settled(m), Listed(acts))
    decreases acts
  {
    if acts != [] {
      assert acts[0] in acts;
      InTurnStep(m, acts[0]);
      InTurnSettles(Do(m, acts[0]), acts[1..]);
    }
  }

  /**
   Calls that take turns leave the upstream with what the client answered last. In particular calls
   of which none lists before the one before it has returned.
  */
  lemma InTurnIsExact(before: set<string>, acts: seq<Act>)
    requires Can(Resting(before), acts) && InTurn(acts)
    ensures var m := DoAll(Resting(before), acts);
            AllReturned(m) ==> m.conn.told == m.conn.listed == Last(before, Listed(acts))
  {
    InTurnSettles(Resting(before), acts);
  }

  // ---- every schedule ----

  /** A way in which calls with these answers can overlap, from a quiet connection until all have returned. */
  predicate Overlap(before: set<string>, answers: seq<set<string>>, acts: seq<Act>) {
    Listed(acts) == answers && Can(Resting(before), acts) && AllReturned(DoAll(Resting(before), acts))
  }

  ghost predicate AlwaysLatest(before: set<string>, answers: seq<set<string>>) {
    forall acts | Overlap(before, answers, acts) ::
      DoAll(Resting(before), acts).conn.told == Last(before, answers)
  }

  predicate AllTheSame(before: set<string>, answers: seq<set<string>>) {
    forall k | 0 <= k < |answers| :: answers[k] == Last(before, answers)
  }

  /** The answers in the order in which they are swapped in. */
  function Taken(m: Mirror, acts: seq<Act>): seq<set<string>>
    requires Can(m, acts)
    decreases acts
  {
    if acts == [] then []
    else (if acts[0].Take? then [m.waiting[acts[0].i]] else []) + Taken(Do(m, acts[0]), acts[1..])
  }

  /** The steps of the connection, without the listings. */
  lemma {:induction false} Projects(m: Mirror, acts: seq<Act>) returns (steps: seq<Step>)
    requires Can(m, acts)
    ensures Runs(m.conn, steps) && After(m.conn, steps) == DoAll(m, acts).conn && Listings(steps) == Taken(m, acts)
    decreases acts
  {
    if acts == [] {
      steps := [];
    } else {
      var rest := Projects(Do(m, acts[0]), acts[1..]);
      match acts[0]
      case List(_) =>
        steps := rest;
      case Take(i) =>
        steps := [Swap(m.waiting[i])] + rest;
        assert steps[1..] == rest;
      case Tell(step) =>
        steps := [step] + rest;
        assert steps[1..] == rest;
    }
  }

  predicate AllAre(s: seq<set<string>>, l: set<string>) {
    forall k | 0 <= k < |s| :: s[k] == l
  }

  /** Every answer is swapped in once. */
  lemma {:induction false} EachIsTaken(m: Mirror, acts: seq<Act>)
    requires Can(m, acts)
    ensures |Taken(m, acts)| + |DoAll(m, acts).waiting| == |m.waiting| + |Listed(acts)|
    decreases acts
  {
    if acts != [] {
      EachIsTaken(Do(m, acts[0]), acts[1..]);
    }
  }

  lemma {:induction false} SameAreTaken(m: Mirror, acts: seq<Act>, l: set<string>)
    requires Can(m, acts) && AllAre(m.waiting, l) && AllAre(Listed(acts), l)
    ensures AllAre(Taken(m, acts), l)
    decreases acts
  {
    if acts != [] {
      var rest := Listed(acts[1..]);
      assert Listed(acts) == (if acts[0].List? then [acts[0].roots] else []) + rest;
      if acts[0].List? {
        assert Listed(acts)[0] == acts[0].roots;
        assert forall k | 0 <= k < |rest| :: rest[k] == Listed(acts)[k + 1];
      } else {
        assert Listed(acts) == rest;
      }
      SameAreTaken(Do(m, acts[0]), acts[1..], l);
    }
  }

  lemma SameAnswersSuffice(before: set<string>, answers: seq<set<string>>, acts: seq<Act>)
    requires AllTheSame(before, answers) && Overlap(before, answers, acts)
    ensures DoAll(Resting(before), acts).conn.told == Last(before, answers)
  {
    var steps := Projects(Resting(before), acts);
    var swaps := Listings(steps);
    EachIsTaken(Resting(before), acts);
    SameAreTaken(Resting(before), acts, Last(before, answers));
    OverlapIsExactIff(before, swaps);
    assert Schedule(before, swaps, steps);
  }

  // ---- a schedule in which a given call is last ----

  function ListAll(answers: seq<set<string>>): seq<Act> {
    if answers == [] then [] else [List(answers[0])] + ListAll(answers[1..])
  }

  lemma {:induction false} ListedAll(answers: seq<set<string>>)
    ensures Listed(ListAll(answers)) == answers
  {
    if answers != [] {
      assert ListAll(answers)[1..] == ListAll(answers[1..]);
      ListedAll(answers[1..]);
    }
  }

  lemma {:induction false} AllListed(m: Mirror, answers: seq<set<string>>)
    ensures Can(m, ListAll(answers)) && DoAll(m, ListAll(answers)) == m.(waiting := m.waiting + answers)
    decreases answers
  {
    if answers == [] {
      assert m.waiting + answers == m.waiting;
    } else {
      assert ListAll(answers)[1..] == ListAll(answers[1..]);
      AllListed(Do(m, List(answers[0])), answers[1..]);
      AddFirst(m.waiting, answers);
    }
  }

  lemma AddFirst(w: seq<set<string>>, answers: seq<set<string>>)
    requires answers != []
    ensures (w + [answers[0]]) + answers[1..] == w + answers
  {
  }

  /** One call runs alone: the upstream then knows what it was answered. */
  lemma RunOne(m: Mirror, i: nat) returns (acts: seq<Act>)
    requires i < |m.waiting| && m.conn == Quiet(m.conn.listed)
    ensures Can(m, acts) && Listed(acts) == []
    ensures DoAll(m, acts) == Mirror(m.waiting[..i] + m.waiting[i + 1..], Quiet(m.waiting[i]))
  {
    var taken := Do(m, Take(i));
    var removed := Do(taken, Tell(Remove(0)));
    var done := Do(removed, Tell(Add(0)));
    assert done.conn.told == m.waiting[i];
    var one, two := [Tell(Add(0))], [Tell(Remove(0)), Tell(Add(0))];
    acts := [Take(i), Tell(Remove(0)), Tell(Add(0))];
    assert one[1..] == [] && two[1..] == one && acts[1..] == two;
    assert Can(done, []) && Can(removed, one) && Can(taken, two);
    assert DoAll(removed, one) == done && DoAll(taken, two) == done;
    assert Listed(one) == [] && Listed(two) == [];
  }

  lemma {:induction false} RunOthers(m: Mirror, k: nat) returns (acts: seq<Act>)
    requires k < |m.waiting| && m.conn == Quiet(m.conn.listed)
    ensures Can(m, acts) && Listed(acts) == []
    ensures var n := DoAll(m, acts); n.waiting == [m.waiting[k]] && n.conn == Quiet(n.conn.listed)
    decreases |m.waiting|
  {
    if |m.waiting| == 1 {
      acts := [];
    } else {
      var i := if k == 0 then 1 else 0;
      var one := RunOne(m, i);
      var rest := RunOthers(DoAll(m, one), if k == 0 then 0 else k - 1);
      CanOn(m, one, rest);
      acts := one + rest;
    }
  }

  lemma RunLast(before: set<string>, answers: seq<set<string>>, k: nat) returns (acts: seq<Act>)
    requires k < |answers|
    ensures Overlap(before, answers, acts) && DoAll(Resting(before), acts).conn.told == answers[k]
  {
    var m := Resting(before);
    AllListed(m, answers);
    ListedAll(answers);
    var listed := DoAll(m, ListAll(answers));
    assert listed.waiting == answers;
    var others := RunOthers(listed, k);
    var alone := DoAll(listed, others);
    var one := RunOne(alone, 0);
    CanOn(m, ListAll(answers), others);
    CanOn(m, ListAll(answers) + others, one);
    acts := ListAll(answers) + others + one;
  }

  /**
   Overlapping calls leave the upstream with the client's last answer in every schedule exactly when all
   of them got the same answer.
  */
  lemma OverlapIsLatestIff(before: set<string>, answers: seq<set<string>>)
    ensures AlwaysLatest(before, answers) <==> AllTheSame(before, answers)
  {
    if AllTheSame(before, answers) {
      forall acts | Overlap(before, answers, acts) ensures DoAll(Resting(before), acts).conn.told
        == Last(before, answers) {
        SameAnswersSuffice(before, answers, acts);
      }
    }
    if AlwaysLatest(before, answers) {
      forall k | 0 <= k < |answers| ensures answers[k] == Last(before, answers) {
        var acts := RunLast(before, answers, k);
        assert DoAll(Resting(before), acts).conn.told == Last(before, answers);
      }
    }
  }

  /**
   A call that listed before the client dropped a root swaps after the call that listed since: the root
   stays, though nothing comes back in the order of the swaps.
  */
  lemma StaleAnswerWins()
    ensures var acts := [List({"x", "y"}), List({"x"}), Take(1), Tell(Remove(0)), Tell(Add(0)),
                         Take(0), Tell(Remove(0)), Tell(Add(0))];
            && Overlap({}, [{"x", "y"}, {"x"}], acts)
            && DoAll(Resting({}), acts).conn.told == {"x", "y"}
            && NothingComesBack({}, [{"x"}, {"x", "y"}], {"x", "y"})
  {
  }

  // ---- a connection that is being opened ----

  /** The client's roots, what the upstream was told, and whether the connection is in the map yet. */
  datatype Opening = Opening(client: set<string>, told: set<string>, stored: bool)

  /** The client changes its roots and says so, or the dialed connection is stored. */
  datatype Event = Change(roots: set<string>) | Store

  /** A change is mirrored at once if the connection is found in the map, and otherwise forgotten. */
  function Happen(o: Opening, e: Event): Opening {
    match e
    case Change(roots) => Opening(roots, if o.stored then roots else o.told, o.stored)
    case Store => o.(stored := true)
  }

  function HappenAll(o: Opening, events: seq<Event>): Opening
    decreases |events|
  {
    if events == [] then o else Happen(HappenAll(o, events[..|events| - 1]), events[|events| - 1])
  }

  function Changes(lists: seq<set<string>>): seq<Event> {
    seq(|lists|, i requires 0 <= i < |lists| => Change(lists[i]))
  }

  lemma {:induction false} ChangesHappen(o: Opening, events: seq<Event>, lists: seq<set<string>>)
    ensures var p := HappenAll(o, events);
            HappenAll(o, events + Changes(lists))
            == Opening(Last(p.client, lists), if p.stored then Last(p.told, lists) else p.told, p.stored)
    decreases |lists|
  {
    if lists == [] {
      assert events + Changes(lists) == events;
    } else {
      var n := |lists| - 1;
      var all := events + Changes(lists);
      assert all[..|all| - 1] == events + Changes(lists[..n]) && all[|all| - 1] == Change(lists[n]);
      ChangesHappen(o, events, lists[..n]);
    }
  }

  /**
   `dial` lists the roots and the connection is stored after it: the upstream is exact exactly when
   the client's roots are at the store what they were at the listing, or they change again later.
  */
  lemma OpenedIsExactIff(roots: set<string>, between: seq<set<string>>, later: seq<set<string>>)
    ensures var o := HappenAll(Opening(roots, roots, false), Changes(between) + [Store] + Changes(later));
            o.stored && (o.told == o.client <==> Last(roots, between) == roots || later != [])
  {
    var o := Opening(roots, roots, false);
    assert [] + Changes(between) == Changes(between);
    ChangesHappen(o, [], between);
    var stored := Changes(between) + [Store];
    assert stored[..|stored| - 1] == Changes(between) && stored[|stored| - 1] == Store;
    ChangesHappen(o, stored, later);
  }

  /** A root that the client drops while its connection is being dialed stays with the upstream. */
  lemma ChangeWhileDialing()
    ensures HappenAll(Opening({"a"}, {"a"}, false), [Change({}), Store]) == Opening({}, {"a"}, true)
  {
    assert [Change({}), Store][..1] == [Change({})] && [Change({})][..0] == [];
  }
}
