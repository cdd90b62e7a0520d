/** What holds in every reachable state, and along every run, of the upstream machine. */
module LifecycleTheorems {
  import opened Prelude
  import opened UpstreamCore
  import opened Lifecycle
  import opened LifecycleInvariant
  import opened LifecycleProof

  ghost predicate Reachable(s: State) {
    exists tr, acts :: IsRun(tr, acts) && s == tr[|acts|]
  }

  lemma ReachableInv(s: State)
    requires Reachable(s)
    ensures Inv(s)
  {
    var tr, acts :| IsRun(tr, acts) && s == tr[|acts|];
    RunKeepsInv(tr, acts, |acts|);
  }

  lemma PrefixIsRun(tr: seq<State>, acts: seq<Action>, i: nat)
    requires IsRun(tr, acts) && i <= |acts|
    ensures IsRun(tr[..i + 1], acts[..i])
  {
    var p, q := tr[..i + 1], acts[..i];
    forall k | 0 <= k < i ensures StepAt(p, q, k) {
      assert StepAt(tr, acts, k);
    }
  }

  // ---- generations ----

  /** The dial that opened `c` ran, from its first step, under the published context and in generation `g`. */
  predicate DialedIn(s: State, c: Conn, g: int) {
    && c in s.dialed && s.core.baseCtx == Some(s.dialed[c].ctx)
    && s.dialed[c].gen == s.dialed[c].began == g
  }

  /**
   A stored session is current; between a teardown's bump and the end of its `close()` it is of the
   generation just left.
  */
  lemma StoredSessionsAreCurrent(s: State)
    requires Reachable(s)
    ensures forall id | id in s.core.sessions ::
              DialedIn(s, s.core.sessions[id], if Draining(s.connLock) then s.core.gen - 1 else s.core.gen)
  {
    ReachableInv(s);
  }

  lemma SurplusFrame(s: State, t: Thread, q: Req)
    requires t in s.reqs && s.reqs[t].Holding?
    ensures var n := Surplus(s, t, q);
            n.core.gen == s.core.gen && n.connLock == s.connLock && n.core.sessions == s.core.sessions
  {
  }

  lemma StoreFrame(s: State, t: Thread)
    requires RequestEnabled(s, CommitStore(t))
    ensures var n := Store(s, t);
            && n.core.gen == s.core.gen && n.connLock == s.connLock
            && n.core.sessions == s.core.sessions[s.reqs[t].id := s.reqs[t].conn]
  {
  }

  lemma RequestFrame(s: State, a: RequestAct)
    requires RequestEnabled(s, a)
    ensures var n := RequestStep(s, a);
            && n.core.gen == s.core.gen && n.connLock == s.connLock
            && forall id | id in s.core.sessions :: id in n.core.sessions && n.core.sessions[id] == s.core.sessions[id]
  {
    match a
    case CommitCheck(t) => SurplusFrame(s, t, WantsTemplate(s.reqs[t].id));
    case CommitStore(t) =>
      if s.reqs[t].id in s.core.sessions {
        SurplusFrame(s, t, Answered(s.reqs[t].id, Some(s.core.sessions[s.reqs[t].id])));
      } else {
        StoreFrame(s, t);
      }
    case _ =>
  }

  lemma ConnectFrame(s: State, a: ConnectAct)
    requires ConnectEnabled(s, a)
    ensures var n := ConnectStep(s, a);
            n.core.gen == s.core.gen && n.core.sessions == s.core.sessions && !n.connLock.Tearing?
  {
  }

  lemma MonitorFrame(s: State, a: MonitorAct)
    requires MonitorEnabled(s, a)
    ensures var n := MonitorStep(s, a);
            && n.core.sessions == s.core.sessions
            && n.core.gen == (if a.TearBump? then s.core.gen + 1 else s.core.gen)
            && (a.TearBump? || (Draining(n.connLock) ==> Draining(s.connLock)))
  {
  }

  lemma CloseFrame(s: State, a: CloseAct)
    requires CloseEnabled(s, a)
    ensures var n := CloseStep(s, a);
            && n.core.gen == s.core.gen && (Draining(n.connLock) ==> Draining(s.connLock))
            && n.core.sessions == if a.TearDrop? then s.core.sessions - {s.connLock.at.id} else s.core.sessions
  {
  }

  lemma ReapFrame(s: State, a: ReapAct)
    requires ReapEnabled(s, a)
    ensures var n := ReapStep(s, a);
            && n.core.gen == s.core.gen && n.connLock == s.connLock
            && n.core.sessions ==
               if a.ReapCollect? then Surviving(s.core.sessions, s.reapers[a.r].live) else s.core.sessions
  {
  }

  /** The generation never falls, and a drain only ever begins with a bump. */
  lemma GenNeverFalls(s: State, a: Action)
    requires Enabled(s, a)
    ensures s.core.gen <= Apply(s, a).core.gen
    ensures !Draining(s.connLock) && Draining(Apply(s, a).connLock) ==> s.core.gen < Apply(s, a).core.gen
  {
    match a
    case Request(q) => RequestFrame(s, q);
    case Connect(n) => ConnectFrame(s, n);
    case Monitor(m) => MonitorFrame(s, m);
    case Close(k) => CloseFrame(s, k);
    case Reap(p) => ReapFrame(s, p);
  }

  lemma {:induction false} GenGrows(tr: seq<State>, acts: seq<Action>, i: nat, j: nat)
    requires IsRun(tr, acts) && i <= j < |tr|
    ensures tr[i].core.gen <= tr[j].core.gen
  {
    if i < j {
      GenGrows(tr, acts, i, j - 1);
      assert StepAt(tr, acts, j - 1);
      GenNeverFalls(tr[j - 1], acts[j - 1]);
    }
  }

  /** Every dial made or in flight began in an earlier generation. */
  predicate AllDialsAreOld(s: State) {
    && (forall c | c in s.dialed :: s.dialed[c].began < s.core.gen)
    && (forall t | t in s.reqs && s.reqs[t].InDial? :: s.reqs[t].began < s.core.gen)
  }

  lemma CloseReturns(s: State)
    requires Inv(s) && CloseEnabled(s, TearMuDone)
    ensures AllDialsAreOld(CloseStep(s, TearMuDone))
  {
  }

  lemma {:induction false} DrainingSince(tr: seq<State>, acts: seq<Action>, i: nat, j: nat)
    requires IsRun(tr, acts) && i <= j < |tr| && !Draining(tr[i].connLock) && Draining(tr[j].connLock)
    ensures tr[i].core.gen < tr[j].core.gen
  {
    assert StepAt(tr, acts, j - 1);
    GenNeverFalls(tr[j - 1], acts[j - 1]);
    if Draining(tr[j - 1].connLock) {
      DrainingSince(tr, acts, i, j - 1);
    } else {
      GenGrows(tr, acts, i, j - 1);
    }
  }

  lemma StoredFromThenOn(tr: seq<State>, acts: seq<Action>, i: nat, j: nat)
    requires IsRun(tr, acts) && i <= j < |tr| && !Draining(tr[i].connLock)
    ensures forall id | id in tr[j].core.sessions ::
              && tr[j].core.sessions[id] in tr[j].dialed
              && tr[j].dialed[tr[j].core.sessions[id]].began >= tr[i].core.gen
  {
    assert tr[j] == tr[..j + 1][|acts[..j]|];
    PrefixIsRun(tr, acts, j);
    StoredSessionsAreCurrent(tr[j]);
    GenGrows(tr, acts, i, j);
    if Draining(tr[j].connLock) { DrainingSince(tr, acts, i, j); }
  }

  /**
   No dial begun before a teardown's `close()` returned is in the map at any later time: all those
   dials began in an earlier generation, and all sessions stored from then on did not.
  */
  lemma NoEarlierDialAfterClose(tr: seq<State>, acts: seq<Action>, i: nat, j: nat)
    requires IsRun(tr, acts) && i < j < |tr| && acts[i] == Close(TearMuDone)
    ensures tr[i + 1].core.sessions == map[] && AllDialsAreOld(tr[i + 1])
    ensures forall id | id in tr[j].core.sessions ::
              && tr[j].core.sessions[id] in tr[j].dialed
              && tr[j].dialed[tr[j].core.sessions[id]].began >= tr[i + 1].core.gen
  {
    RunKeepsInv(tr, acts, i);
    assert StepAt(tr, acts, i);
    CloseReturns(tr[i]);
    StoredFromThenOn(tr, acts, i + 1, j);
  }

  // ---- ownership ----

  /**
   The source's variables hold `c` at `p`; an entry whose connection is closed and about to be deleted
   counts as closed.
  */
  predicate HeldAt(s: State, c: Conn, p: Place) {
    match p
    case OfRequest(t) => t in s.reqs && s.reqs[t].Holding? && s.reqs[t].conn == c
    case InMap(id) =>
      && id in s.core.sessions && s.core.sessions[id] == c
      && !(s.connLock.Tearing? && s.connLock.at == AtDrop(id))
    case OnDeadList(r) => r in s.reapers && s.reapers[r].Closing? && c in s.reapers[r].dead
    case TmplUnpublished => s.connLock.Publishing? && s.connLock.conn == c
    case TmplLive => s.core.tmpl == Some(c)
    case ClosedConn => c in s.core.closes
  }

  /** Every connection ever opened is in exactly one place, and nothing else is in any. */
  lemma OwnedExactlyOnce(s: State)
    requires Reachable(s)
    ensures forall c | c in s.dialed :: c in s.place && HeldAt(s, c, s.place[c])
    ensures forall c, p | HeldAt(s, c, p) :: c in s.dialed && c in s.place && p == s.place[c]
  {
    ReachableInv(s);
    forall c | c in s.dialed ensures c in s.place && HeldAt(s, c, s.place[c]) {
      assert PlaceOk(c, s.place[c], s.reqs, s.core.sessions, s.reapers, s.connLock, s.core.tmpl);
    }
    HeldIsPlaced(s);
  }

  lemma HeldIsPlaced(s: State)
    requires PlaceInv(s)
    ensures forall c, p | HeldAt(s, c, p) :: c in s.dialed && c in s.place && p == s.place[c]
  {
  }

  /** No connection is closed twice, and while `mu` is free no closed one is reachable by a client. */
  lemma ClosedAtMostOnce(s: State)
    requires Reachable(s)
    ensures forall c :: s.core.closes[c] <= 1
    ensures s.muLock == MuFree ==> forall id | id in s.core.sessions :: s.core.sessions[id] !in s.core.closes
    ensures s.core.tmpl.Some? ==> s.core.tmpl.value !in s.core.closes
  {
    ReachableInv(s);
  }

  // ---- lifecycle accounting ----

  /**
   Whenever `connMu` is free: on-demand connects = generation (+ 1 while connected), and exactly one
   monitor lives iff connected.
  */
  lemma LifecycleAccounting(s: State)
    requires Reachable(s) && s.connLock == ConnFree
    ensures s.connects == s.core.gen + (if s.core.connected then 1 else 0)
    ensures |s.monitors| == if s.core.connected then 1 else 0
    ensures s.core.connected ==>
              && s.core.gen in s.monitors && s.core.baseCtx.Some? && s.core.connCancel == s.core.baseCtx
              && s.monitors[s.core.gen] in {Armed(s.core.baseCtx.value), Fired(s.core.baseCtx.value)}
              && s.core.baseCtx.value !in s.core.cancelled
    ensures s.core.connected <==> s.core.tmpl.Some?
    ensures !s.core.connected ==> s.core.sessions == map[]
  {
    ReachableInv(s);
  }

  /** A monitor that gets `connMu` finds the very backend it was armed for, still connected. */
  lemma MonitorStopsItsOwnBackend(s: State, m: Thread)
    requires Reachable(s) && MonitorEnabled(s, TearLock(m))
    ensures s.core.connected && m == s.core.gen && s.core.connCancel == Some(s.monitors[m].ctx)
  {
    ReachableInv(s);
  }

  // ---- isolation ----

  /**
   A request is answered with its own client's session, the template or nothing; in shared mode with the
   template or nothing.
  */
  lemma SessionIsolation(s: State, t: Thread)
    requires Reachable(s) && t in s.reqs && s.reqs[t].Answered? && s.reqs[t].use.Some?
    ensures s.reqs[t].use.value in s.dialed
    ensures s.dialed[s.reqs[t].use.value].owner in {Template, Client(s.reqs[t].id)}
    ensures !s.perSession ==> s.dialed[s.reqs[t].use.value].owner == Template
  {
    ReachableInv(s);
    assert ReqOk(s.reqs[t], s.perSession, s.core.baseCtx, s.core.cancelled, s.born, s.dialed);
  }

  /** The action takes the session of `id` out of the map. */
  predicate Removes(s: State, a: Action, id: ClientId)
    requires Enabled(s, a)
  {
    match a
    case Close(TearDrop) => s.connLock.at.id == id
    case Reap(ReapCollect(r)) => id !in s.reapers[r].live
    case _ => false
  }

  ghost predicate KeptAt(tr: seq<State>, acts: seq<Action>, k: int, id: ClientId) {
    StepAt(tr, acts, k) && !Removes(tr[k], acts[k], id)
  }

  lemma SessionStays(s: State, a: Action, id: ClientId)
    requires Enabled(s, a) && id in s.core.sessions && !Removes(s, a, id)
    ensures var n := Apply(s, a).core.sessions; id in n && n[id] == s.core.sessions[id]
  {
    match a
    case Request(q) => RequestFrame(s, q);
    case Connect(n) => ConnectFrame(s, n);
    case Monitor(m) => MonitorFrame(s, m);
    case Close(k) => CloseFrame(s, k);
    case Reap(p) => ReapFrame(s, p);
  }

  /** Until it is removed, the first session committed for a client stays the one in the map. */
  lemma {:induction false} FirstCommitStays(tr: seq<State>, acts: seq<Action>, i: nat, j: nat, id: ClientId)
    requires IsRun(tr, acts) && i <= j < |tr| && id in tr[i].core.sessions
    requires forall k | i <= k < j :: KeptAt(tr, acts, k, id)
    ensures id in tr[j].core.sessions && tr[j].core.sessions[id] == tr[i].core.sessions[id]
  {
    if i < j {
      FirstCommitStays(tr, acts, i, j - 1, id);
      assert KeptAt(tr, acts, j - 1, id);
      SessionStays(tr[j - 1], acts[j - 1], id);
    }
  }

  /**
   Once a session is stored for a client, every request of that client that looks it up, or commits
   its own dial of the same generation, is answered with that first session until it is removed.
  */
  lemma FirstCommitWins(tr: seq<State>, acts: seq<Action>, i: nat, j: nat, t: Thread, id: ClientId)
    requires IsRun(tr, acts) && i <= j < |acts| && id in tr[i].core.sessions && tr[j].perSession
    requires forall k | i <= k < j :: KeptAt(tr, acts, k, id)
    requires || acts[j] == Request(Begin(t, id))
             || (acts[j] == Request(CommitStore(t)) && t in tr[j].reqs && tr[j].reqs[t].id == id)
    ensures t in tr[j + 1].reqs && tr[j + 1].reqs[t] == Answered(id, Some(tr[i].core.sessions[id]))
  {
    FirstCommitStays(tr, acts, i, j, id);
    assert StepAt(tr, acts, j);
  }

  // ---- freedom from deadlock ----

  /** The action of a goroutine that holds `mu`, or of the one that holds `connMu`. */
  predicate IsHolders(s: State, a: Action) {
    match a
    case Request(q) => s.muLock.ByCommit? && (q == CommitCheck(s.muLock.t) || q == CommitStore(s.muLock.t))
    case Connect(n) => s.connLock != ConnFree && !n.StartConnect?
    case Monitor(m) => s.connLock.Tearing? && (m.TearCancel? || m.TearFlag? || m.TearBump?)
    case Close(_) => s.connLock.Tearing?
    case Reap(_) => false
  }

  /** Whenever a mutex is held, a holder can move: `mu` is only ever taken last, and nobody waits while holding it. */
  lemma HolderCanMove(s: State) returns (a: Action)
    requires Reachable(s) && (s.connLock != ConnFree || s.muLock != MuFree)
    ensures Enabled(s, a) && IsHolders(s, a)
  {
    ReachableInv(s);
    match s.muLock
    case ByCommit(t, checked) => a := Request(if checked then CommitStore(t) else CommitCheck(t));
    case _ =>
      match s.connLock
      case Dialing(_) => a := Connect(ConnectFail);
      case Publishing(_, _) => a := Connect(PublishTemplate);
      case Arming(_) => a := Connect(Arm);
      case Tearing(_, at) => a := TeardownAction(s, at); TearingCanMove(s);
  }

  lemma TearingCanMove(s: State)
    requires ControlInv(s) && s.connLock.Tearing? && !s.muLock.ByCommit?
    ensures Enabled(s, TeardownAction(s, s.connLock.at)) && IsHolders(s, TeardownAction(s, s.connLock.at))
  {
  }

  /** The statement a teardown is at. */
  ghost function TeardownAction(s: State, at: TearPc): Action {
    match at
    case AtCancel => Monitor(TearCancel)
    case AtFlag => Monitor(TearFlag)
    case AtBump => Monitor(TearBump)
    case AtLock => Close(TearMu)
    case AtTmpl => Close(TearTmpl)
    case AtLoop =>
      if s.core.sessions == map[] then Close(TearMuDone)
      else
        var id :| id in s.core.sessions;
        Close(TearClose(id))
    case AtDrop(_) => Close(TearDrop)
    case AtUnlock => Close(TearUnlock)
  }
}
