/**
 The upstream object of internal/proxy/proxy.go and registry.go, run by one goroutine at a
 time: each method is one critical section (or a sequence of them met by no other goroutine),
 proved against the value it leaves behind.  What interleaving adds is in Lifecycle.
 */
module UpstreamObject {
  import opened Prelude
  import opened UpstreamCore
  import opened ActivityTracker

  class Upstream {
    var connected: bool
    var connCancel: Option<Ctx>
    var gen: nat
    var baseCtx: Option<Ctx>
    var tmpl: Option<Conn>
    var sessions: map<ClientId, Conn>
    const activity: Tracker
    // The contexts that idle monitors were started under.
    var armed: seq<Ctx>
    // Effects on the SDK's objects.
    var cancelled: set<Ctx>
    var closes: multiset<Conn>

    function View(): Core
      reads this
    {
      Core(connected, connCancel, gen, baseCtx, tmpl, sessions, cancelled, closes)
    }

    ghost predicate Valid()
      reads this
    {
      Injective(sessions)
    }

    constructor (now: int)
      ensures Valid() && View() == EMPTY && fresh(activity) && armed == []
    {
      activity := new Tracker(now);
      armed := [];
      connected, connCancel, gen := false, None, 0;
      baseCtx, tmpl, sessions := None, None, map[];
      cancelled, closes := {}, multiset{};
    }

    /**
     Connects on first use.  `ctx` is the fresh context of this connection generation and
     `dialed` the outcome of dialing the template under it.  Only a success counts as activity, and
     only a new connection starts a monitor.
    */
    method EnsureConnected(ctx: Ctx, dialed: Option<Conn>, now: int) returns (ok: bool)
      requires Valid()
      modifies this, activity
      ensures Valid()
      ensures ok == (old(connected) || dialed.Some?)
      ensures View() ==
              if old(connected) then old(View())
              else if dialed.None? then old(View()).(cancelled := old(cancelled) + {ctx})
              else MarkConnected(Publish(old(View()), ctx, dialed.value), ctx)
      ensures !old(connected) && dialed.Some? ==>
                connected && baseCtx == Some(ctx) && tmpl == dialed && connCancel == Some(ctx) && gen == old(gen)
      ensures activity.View() == if ok then Touched(old(activity.View()), now) else old(activity.View())
      ensures armed == if ok && !old(connected) then old(armed) + [ctx] else old(armed)
    {
      if connected {
        activity.Touch(now);
        return true;
      }
      if dialed.None? {
        cancelled := cancelled + {ctx};
        return false;
      }
      baseCtx := Some(ctx);
      tmpl := dialed;
      connCancel := Some(ctx);
      connected := true;
      activity.Touch(now);
      armed := armed + [ctx];
      return true;
    }

    /** Closes the template and every per-session connection, each exactly once. */
    method Close()
      requires Valid()
      modifies this`tmpl, this`sessions, this`closes
      ensures Valid() && View() == Closed(old(View()))
    {
      if tmpl.Some? {
        closes := closes + multiset{tmpl.value};
        tmpl := None;
      }
      CloseSessions();
    }

    /** The loop of `close`: whatever order the map is visited in, each entry is closed and deleted. */
    method CloseSessions()
      requires Valid()
      modifies this`sessions, this`closes
      ensures sessions == map[] && closes == old(closes) + multiset(old(sessions).Values)
    {
      ghost var total := closes + Bag(sessions);
      while sessions != map[]
        invariant Injective(sessions)
        invariant closes + Bag(sessions) == total
        decreases sessions.Keys
      {
        var id :| id in sessions;
        Without(sessions, id);
        closes := closes + multiset{sessions[id]};
        sessions := sessions - {id};
      }
      EmptyBag();
    }

    /** Stops a connected backend: cancel, clear, advance the generation, then close. */
    method Teardown()
      requires Valid()
      modifies this`connected, this`connCancel, this`gen, this`tmpl, this`sessions, this`cancelled, this`closes
      ensures Valid()
      ensures View() == if old(connected) then TornDown(old(View())) else old(View())
    {
      if !connected {
        return;
      }
      if connCancel.Some? {
        cancelled := cancelled + {connCancel.value};
        connCancel := None;
      }
      connected := false;
      gen := gen + 1;
      assert View() == BumpGen(CancelConn(old(View())).(connected := false));
      Close();
    }

    /**
     Stores a freshly dialed connection unless the generation moved or another dial of the
     same client won; in both cases the surplus connection is closed.
     */
    method CommitSession(id: ClientId, sc: Conn, dialGen: nat) returns (use: Option<Conn>)
      requires Valid() && sc !in sessions.Values
      modifies this`sessions, this`closes
      ensures Valid()
      ensures use == if old(gen) != dialGen then None
                     else if id in old(sessions) then Some(old(sessions)[id])
                     else Some(sc)
      ensures use == Some(sc) ==> View() == old(View()).(sessions := old(sessions)[id := sc])
      ensures use != Some(sc) ==> View() == CloseConn(old(View()), sc)
    {
      if gen != dialGen {
        closes := closes + multiset{sc};
        return None;
      }
      if id in sessions {
        closes := closes + multiset{sc};
        return Some(sessions[id]);
      }
      sessions := sessions[id := sc];
      return Some(sc);
    }

    /** Removes exactly the clients absent from the snapshot `live` and closes each once. */
    method ReapDeadSessions(live: set<ClientId>)
      requires Valid()
      modifies this`sessions, this`closes
      ensures Valid()
      ensures View() == old(View()).(
                          sessions := Surviving(old(sessions), live),
                          closes := old(closes) + multiset(Orphaned(old(sessions), live)))
      ensures forall id :: id in sessions <==> id in old(sessions) && id in live
      ensures forall id | id in sessions :: sessions[id] == old(sessions)[id]
      ensures forall id | id in old(sessions) ::
                closes[old(sessions)[id]] == old(closes)[old(sessions)[id]] + if id in live then 0 else 1
    {
      var dead: seq<Conn> := [];
      ghost var all := sessions;
      var todo := sessions.Keys;
      while todo != {}
        invariant todo <= all.Keys
        invariant sessions == Surviving(all, live + todo)
        invariant Distinct(dead) && closes == old(closes)
        invariant forall c :: c in dead <==> c in Orphaned(all, live + todo)
        decreases todo
      {
        var id :| id in todo;
        if id !in live {
          OrphanedGrows(all, live, todo, id);
          dead := dead + [sessions[id]];
          sessions := sessions - {id};
        }
        assert id in live ==> live + (todo - {id}) == live + todo;
        todo := todo - {id};
      }
      assert live + todo == live;
      CloseAll(dead);
      DistinctBag(dead, Orphaned(all, live));
      OrphansAreOthers(all, live);
    }

    /** The reaper's second loop, run after the lock is released. */
    method CloseAll(dead: seq<Conn>)
      modifies this`closes
      ensures closes == old(closes) + multiset(dead)
    {
      var i := 0;
      while i < |dead|
        invariant 0 <= i <= |dead|
        invariant closes == old(closes) + multiset(dead[..i])
      {
        assert dead[..i + 1] == dead[..i] + [dead[i]];
        closes := closes + multiset{dead[i]};
        i := i + 1;
      }
      assert dead[..i] == dead;
    }
  }

  ghost predicate Distinct(s: seq<Conn>) {
    forall i, j | 0 <= i < j < |s| :: s[i] != s[j]
  }

  ghost function Bag(m: map<ClientId, Conn>): multiset<Conn> {
    multiset(m.Values)
  }

  lemma EmptyBag()
    ensures Bag(map[]) == multiset{}
  {
    var none: map<ClientId, Conn> := map[];
    assert none.Values == {};
  }

  /** Taking one entry out of a map with one client per connection. */
  lemma Without(m: map<ClientId, Conn>, id: ClientId)
    requires Injective(m) && id in m
    ensures Injective(m - {id})
    ensures Bag(m) == Bag(m - {id}) + multiset{m[id]}
  {
    var rest := m - {id};
    forall v | v in m.Values ensures v in rest.Values + {m[id]} {
      var k :| k in m && m[k] == v;
      assert k != id ==> k in rest && rest[k] == v;
    }
    assert m.Values == rest.Values + {m[id]} && m[id] !in rest.Values;
  }

  lemma OrphanedGrows(m: map<ClientId, Conn>, live: set<ClientId>, todo: set<ClientId>, id: ClientId)
    requires Injective(m) && id in m && id in todo && id !in live
    ensures Orphaned(m, live + (todo - {id})) == Orphaned(m, live + todo) + {m[id]}
    ensures m[id] !in Orphaned(m, live + todo)
    ensures Surviving(m, live + (todo - {id})) == Surviving(m, live + todo) - {id}
  {
  }

  /** A list without repetition holds each element of its set once. */
  lemma {:induction false} DistinctBag(s: seq<Conn>, elements: set<Conn>)
    requires Distinct(s)
    requires forall c :: c in s <==> c in elements
    ensures multiset(s) == multiset(elements)
  {
    if s == [] {
      assert elements == {};
    } else {
      assert s == [s[0]] + s[1..];
      DistinctBag(s[1..], elements - {s[0]});
    }
  }

  /** The connection of a client is orphaned exactly if that client is gone. */
  lemma OrphansAreOthers(m: map<ClientId, Conn>, live: set<ClientId>)
    requires Injective(m)
    ensures forall id | id in m :: m[id] in Orphaned(m, live) <==> id !in live
  {
  }
}
