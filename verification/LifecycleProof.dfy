/** Every action of the upstream machine keeps its invariant, so every run does. */
module LifecycleProof {
  import opened Prelude
  import opened UpstreamCore
  import opened Lifecycle
  import opened LifecycleInvariant

  // ---- request goroutines ----

  lemma GotoControl(s: State, t: Thread, q: Req)
    requires ControlInv(s) && !q.Holding? && (t in s.reqs ==> !s.reqs[t].Holding?)
    requires ReqOk(q, s.perSession, s.core.baseCtx, s.core.cancelled, s.born, s.dialed)
    ensures ControlInv(Goto(s, t, q))
  {
  }

  lemma GotoPlace(s: State, t: Thread, q: Req)
    requires PlaceInv(s) && !q.Holding? && (t in s.reqs ==> !s.reqs[t].Holding?)
    ensures PlaceInv(Goto(s, t, q))
  {
  }

  lemma GotoKeeps(s: State, t: Thread, q: Req)
    requires Inv(s) && !q.Holding? && (t in s.reqs ==> !s.reqs[t].Holding?)
    requires ReqOk(q, s.perSession, s.core.baseCtx, s.core.cancelled, s.born, s.dialed)
    ensures Inv(Goto(s, t, q))
  {
    GotoControl(s, t, q);
    GotoPlace(s, t, q);
  }

  lemma BeginKeeps(s: State, t: Thread, id: ClientId)
    requires Inv(s) && RequestEnabled(s, Begin(t, id))
    ensures Inv(Goto(s, t, NextOfBegin(s, id)))
  {
    assert s.core.baseCtx.Some? ==> WasPublished(s.core.baseCtx, s.core.cancelled, s.born, s.core.baseCtx.value);
    GotoKeeps(s, t, NextOfBegin(s, id));
  }

  lemma LoadGenKeeps(s: State, t: Thread)
    requires Inv(s) && RequestEnabled(s, LoadGen(t))
    ensures Inv(Goto(s, t, HasGen(s.reqs[t].id, s.reqs[t].base, s.core.gen)))
  {
    GotoKeeps(s, t, HasGen(s.reqs[t].id, s.reqs[t].base, s.core.gen));
  }

  lemma StartDialKeeps(s: State, t: Thread)
    requires Inv(s) && RequestEnabled(s, StartDial(t))
    ensures Inv(Goto(s, t, NextOfStartDial(s, s.reqs[t])))
  {
    GotoKeeps(s, t, NextOfStartDial(s, s.reqs[t]));
  }

  lemma FallBackKeeps(s: State, t: Thread)
    requires Inv(s) && RequestEnabled(s, DialFail(t))
    ensures Inv(Goto(s, t, WantsTemplate(s.reqs[t].id)))
  {
    GotoKeeps(s, t, WantsTemplate(s.reqs[t].id));
  }

  lemma ReadTemplateKeeps(s: State, t: Thread)
    requires Inv(s) && RequestEnabled(s, ReadTemplate(t))
    ensures Inv(Goto(s, t, Answered(s.reqs[t].id, s.core.tmpl)))
  {
    GotoKeeps(s, t, Answered(s.reqs[t].id, s.core.tmpl));
  }

  lemma DialOkControl(s: State, t: Thread, c: Conn)
    requires ControlInv(s) && RequestEnabled(s, DialOk(t, c))
    ensures ControlInv(DoDialOk(s, t, c))
  {
  }

  lemma DialOkPlace(s: State, t: Thread, c: Conn)
    requires PlaceInv(s) && RequestEnabled(s, DialOk(t, c))
    ensures PlaceInv(DoDialOk(s, t, c))
  {
  }

  lemma CommitLockKeeps(s: State, t: Thread)
    requires Inv(s) && RequestEnabled(s, CommitLock(t))
    ensures Inv(s.(muLock := ByCommit(t, false)))
  {
  }

  /** When a request gives up the connection it holds, every other connection stays where it is. */
  lemma LeavesRequest(s: State, t: Thread, q: Req, p: Place)
    requires PlaceInv(s) && t in s.reqs && s.reqs[t].Holding? && !q.Holding?
    ensures var place := s.place[s.reqs[t].conn := p];
            && TemplatesOk(s.connLock, s.core.tmpl, s.dialed, place)
            && RequestsPlaced(s.reqs[t := q], place)
            && SessionsPlaced(s.core.sessions, s.connLock, place)
            && DeadPlaced(s.reapers, place)
            && forall c | c in place && c != s.reqs[t].conn ::
                 PlaceOk(c, place[c], s.reqs[t := q], s.core.sessions, s.reapers, s.connLock, s.core.tmpl)
  {
  }

  lemma SurplusControl(s: State, t: Thread, q: Req)
    requires ControlInv(s) && t in s.reqs && s.reqs[t].Holding? && !q.Holding? && s.muLock.ByCommit? && s.muLock.t == t
    requires ReqOk(q, s.perSession, s.core.baseCtx, s.core.cancelled, s.born, s.dialed)
    ensures ControlInv(Surplus(s, t, q))
  {
  }

  lemma SurplusPlace(s: State, t: Thread, q: Req)
    requires PlaceInv(s) && t in s.reqs && s.reqs[t].Holding? && !q.Holding?
    ensures PlaceInv(Surplus(s, t, q))
  {
    LeavesRequest(s, t, q, ClosedConn);
  }

  lemma SurplusKeeps(s: State, t: Thread, q: Req)
    requires Inv(s) && t in s.reqs && s.reqs[t].Holding? && !q.Holding? && s.muLock.ByCommit? && s.muLock.t == t
    requires ReqOk(q, s.perSession, s.core.baseCtx, s.core.cancelled, s.born, s.dialed)
    ensures Inv(Surplus(s, t, q))
  {
    SurplusControl(s, t, q);
    SurplusPlace(s, t, q);
  }

  lemma CommitCheckKeeps(s: State, t: Thread)
    requires Inv(s) && RequestEnabled(s, CommitCheck(t))
    ensures Inv(DoCommitCheck(s, t))
  {
    var q := s.reqs[t];
    if s.core.gen == q.gen {
      assert s.born[s.dialed[q.conn].ctx] == s.core.gen;
      assert s.core.baseCtx == Some(s.dialed[q.conn].ctx);
    } else {
      SurplusKeeps(s, t, WantsTemplate(q.id));
    }
  }

  lemma StoreControl(s: State, t: Thread)
    requires ControlInv(s) && RequestEnabled(s, CommitStore(t)) && s.reqs[t].id !in s.core.sessions
    ensures ControlInv(Store(s, t))
  {
  }

  lemma StorePlace(s: State, t: Thread)
    requires PlaceInv(s) && RequestEnabled(s, CommitStore(t)) && s.reqs[t].id !in s.core.sessions
    requires !InClose(s.connLock)
    ensures PlaceInv(Store(s, t))
  {
    LeavesRequest(s, t, Answered(s.reqs[t].id, Some(s.reqs[t].conn)), InMap(s.reqs[t].id));
  }

  lemma CommitStoreKeeps(s: State, t: Thread)
    requires Inv(s) && RequestEnabled(s, CommitStore(t))
    ensures Inv(DoCommitStore(s, t))
  {
    var id := s.reqs[t].id;
    if id in s.core.sessions {
      SurplusKeeps(s, t, Answered(id, Some(s.core.sessions[id])));
    } else {
      StoreControl(s, t);
      StorePlace(s, t);
    }
  }

  // ---- ensureConnected ----

  lemma StartConnectControl(s: State, ctx: Ctx)
    requires ControlInv(s) && ConnectEnabled(s, StartConnect(ctx))
    ensures ControlInv(s.(connLock := Dialing(ctx), born := s.born[ctx := s.core.gen]))
  {
  }

  lemma StartConnectPlace(s: State, ctx: Ctx)
    requires PlaceInv(s) && ConnectEnabled(s, StartConnect(ctx))
    ensures PlaceInv(s.(connLock := Dialing(ctx), born := s.born[ctx := s.core.gen]))
  {
  }

  lemma ConnectFailKeeps(s: State)
    requires Inv(s) && ConnectEnabled(s, ConnectFail)
    ensures Inv(DoConnectFail(s))
  {
  }

  lemma ConnectDialedControl(s: State, c: Conn)
    requires ControlInv(s) && ConnectEnabled(s, ConnectDialed(c))
    ensures ControlInv(DoConnectDialed(s, c))
  {
  }

  lemma ConnectDialedPlace(s: State, c: Conn)
    requires PlaceInv(s) && ConnectEnabled(s, ConnectDialed(c))
    ensures PlaceInv(DoConnectDialed(s, c))
  {
  }

  lemma PublishControl(s: State)
    requires ControlInv(s) && ConnectEnabled(s, PublishTemplate)
    ensures ControlInv(DoPublish(s))
  {
  }

  lemma PublishPlace(s: State)
    requires PlaceInv(s) && ConnectEnabled(s, PublishTemplate) && s.core.tmpl.None?
    ensures PlaceInv(DoPublish(s))
  {
  }

  lemma ArmKeeps(s: State)
    requires Inv(s) && ConnectEnabled(s, Arm)
    ensures Inv(DoArm(s))
  {
  }

  // ---- monitorIdle and teardown ----

  lemma FireControl(s: State, m: Thread)
    requires ControlInv(s) && MonitorEnabled(s, Fire(m))
    ensures ControlInv(s.(monitors := s.monitors[m := Fired(s.monitors[m].ctx)]))
  {
  }

  lemma FirePlace(s: State, m: Thread)
    requires PlaceInv(s) && MonitorEnabled(s, Fire(m))
    ensures PlaceInv(s.(monitors := s.monitors[m := Fired(s.monitors[m].ctx)]))
  {
  }

  /** The context of a polling monitor is never cancelled: a monitor is only ever ended by its own teardown. */
  lemma MonitorNeverExitsEarly(s: State, m: Thread)
    requires ControlInv(s)
    ensures !MonitorEnabled(s, MonitorExit(m))
  {
  }

  lemma TearLockControl(s: State, m: Thread)
    requires ControlInv(s) && MonitorEnabled(s, TearLock(m))
    ensures ControlInv(DoTearLock(s, m))
  {
  }

  lemma TearLockPlace(s: State, m: Thread)
    requires PlaceInv(s) && MonitorEnabled(s, TearLock(m))
    ensures PlaceInv(DoTearLock(s, m))
  {
    TakeLockPlace(s, if s.core.connected then Tearing(m, AtCancel) else ConnFree);
  }

  lemma TakeLockPlace(s: State, l: ConnLock)
    requires PlaceInv(s) && s.connLock == ConnFree && (l == ConnFree || (l.Tearing? && l.at == AtCancel))
    ensures PlaceInv(s.(connLock := l))
  {
  }

  lemma TearCancelControl(s: State)
    requires ControlInv(s) && MonitorEnabled(s, TearCancel)
    ensures ControlInv(TearTo(s, AtFlag).(core := CancelConn(s.core)))
  {
  }

  lemma TearCancelPlace(s: State)
    requires PlaceInv(s) && MonitorEnabled(s, TearCancel)
    ensures PlaceInv(TearTo(s, AtFlag).(core := CancelConn(s.core)))
  {
  }

  lemma TearFlagControl(s: State)
    requires ControlInv(s) && MonitorEnabled(s, TearFlag)
    ensures ControlInv(TearTo(s, AtBump).(core := s.core.(connected := false)))
  {
  }

  lemma TearFlagPlace(s: State)
    requires PlaceInv(s) && MonitorEnabled(s, TearFlag)
    ensures PlaceInv(TearTo(s, AtBump).(core := s.core.(connected := false)))
  {
  }

  lemma TearBumpControl(s: State)
    requires ControlInv(s) && MonitorEnabled(s, TearBump)
    ensures ControlInv(TearTo(s, AtLock).(core := BumpGen(s.core)))
  {
  }

  lemma TearBumpPlace(s: State)
    requires PlaceInv(s) && MonitorEnabled(s, TearBump)
    ensures PlaceInv(TearTo(s, AtLock).(core := BumpGen(s.core)))
  {
  }

  lemma TearMuControl(s: State)
    requires ControlInv(s) && CloseEnabled(s, TearMu)
    ensures ControlInv(TearTo(s, AtTmpl).(muLock := ByClose))
  {
  }

  lemma TearMuPlace(s: State)
    requires PlaceInv(s) && CloseEnabled(s, TearMu)
    ensures PlaceInv(TearTo(s, AtTmpl).(muLock := ByClose))
  {
  }

  /** A teardown that reaches `close()` still has a template to close. */
  lemma TemplateIsOpen(s: State)
    requires ControlInv(s) && CloseEnabled(s, TearTmpl)
    ensures s.core.tmpl.Some?
  {
  }

  lemma TearTmplControl(s: State)
    requires ControlInv(s) && CloseEnabled(s, TearTmpl) && s.core.tmpl.Some?
    ensures ControlInv(DoTearTmpl(s))
  {
  }

  /** The template is closed: every per-session connection stays where it is. */
  lemma LeavesTemplate(s: State)
    requires PlaceInv(s) && s.core.tmpl.Some? && s.connLock.Tearing?
    ensures var place := s.place[s.core.tmpl.value := ClosedConn];
            && RequestsPlaced(s.reqs, place)
            && SessionsPlaced(s.core.sessions, s.connLock, place)
            && DeadPlaced(s.reapers, place)
            && PlacesOk(place, s.reqs, s.core.sessions, s.reapers, s.connLock, None)
  {
  }

  lemma TearTmplPlace(s: State)
    requires PlaceInv(s) && CloseEnabled(s, TearTmpl) && s.core.tmpl.Some?
    ensures PlaceInv(DoTearTmpl(s))
  {
    LeavesTemplate(s);
  }

  lemma TearCloseControl(s: State, id: ClientId)
    requires ControlInv(s) && CloseEnabled(s, TearClose(id))
    ensures ControlInv(DoTearClose(s, id))
  {
  }

  /** A stored connection is closed: every connection elsewhere stays where it is. */
  lemma LeavesMap(s: State, id: ClientId)
    requires PlaceInv(s) && CloseEnabled(s, TearClose(id))
    ensures var place := s.place[s.core.sessions[id] := ClosedConn];
            && TemplatesOk(s.connLock, s.core.tmpl, s.dialed, place)
            && RequestsPlaced(s.reqs, place)
            && DeadPlaced(s.reapers, place)
            && PlacesOk(place, s.reqs, s.core.sessions, s.reapers, s.connLock, s.core.tmpl)
  {
  }

  lemma TearClosePlace(s: State, id: ClientId)
    requires PlaceInv(s) && CloseEnabled(s, TearClose(id))
    ensures PlaceInv(DoTearClose(s, id))
  {
    LeavesMap(s, id);
  }

  lemma TearDropControl(s: State)
    requires ControlInv(s) && CloseEnabled(s, TearDrop)
    ensures ControlInv(TearTo(s, AtLoop).(core := DropSession(s.core, s.connLock.at.id)))
  {
  }

  lemma TearDropPlace(s: State)
    requires PlaceInv(s) && CloseEnabled(s, TearDrop)
    ensures PlaceInv(TearTo(s, AtLoop).(core := DropSession(s.core, s.connLock.at.id)))
  {
  }

  lemma TearMuDoneControl(s: State)
    requires ControlInv(s) && CloseEnabled(s, TearMuDone)
    ensures ControlInv(TearTo(s, AtUnlock).(muLock := MuFree))
  {
  }

  lemma TearMuDonePlace(s: State)
    requires PlaceInv(s) && CloseEnabled(s, TearMuDone)
    ensures PlaceInv(TearTo(s, AtUnlock).(muLock := MuFree))
  {
  }

  lemma TearUnlockControl(s: State)
    requires ControlInv(s) && CloseEnabled(s, TearUnlock)
    ensures ControlInv(s.(connLock := ConnFree, monitors := s.monitors - {s.connLock.monitor}))
  {
  }

  lemma TearUnlockPlace(s: State)
    requires PlaceInv(s) && CloseEnabled(s, TearUnlock)
    ensures PlaceInv(s.(connLock := ConnFree, monitors := s.monitors - {s.connLock.monitor}))
  {
  }

  // ---- reapDeadSessions ----

  lemma ReapSnapshotKeeps(s: State, r: Thread, live: set<ClientId>)
    requires Inv(s) && ReapEnabled(s, ReapSnapshot(r, live))
    ensures Inv(s.(reapers := s.reapers[r := Snapshot(live)]))
  {
  }

  lemma ReapCollectControl(s: State, r: Thread)
    requires ControlInv(s) && ReapEnabled(s, ReapCollect(r))
    ensures ControlInv(DoReapCollect(s, r))
  {
  }

  /** While `mu` is free, the connections collected are exactly those recorded under a dead client. */
  lemma CollectedAreStored(s: State, live: set<ClientId>)
    requires PlaceInv(s) && !InClose(s.connLock)
    ensures forall c | c in s.place ::
              c in Orphaned(s.core.sessions, live) <==> s.place[c].InMap? && s.place[c].id !in live
    ensures Orphaned(s.core.sessions, live) <= s.place.Keys
    ensures SessionsPlaced(Surviving(s.core.sessions, live), s.connLock, s.place)
  {
  }

  lemma ReapCollectPlace(s: State, r: Thread)
    requires PlaceInv(s) && ReapEnabled(s, ReapCollect(r)) && !InClose(s.connLock)
    ensures PlaceInv(DoReapCollect(s, r))
  {
    CollectedAreStored(s, s.reapers[r].live);
    var n := DoReapCollect(s, r);
    assert n.place.Keys == s.place.Keys;
    assert RequestsPlaced(n.reqs, n.place);
    assert SessionsPlaced(n.core.sessions, n.connLock, n.place);
    assert DeadPlaced(n.reapers, n.place);
  }

  lemma ReapCloseControl(s: State, r: Thread, c: Conn)
    requires ControlInv(s) && ReapEnabled(s, ReapClose(r, c))
    ensures ControlInv(DoReapClose(s, r, c))
  {
  }

  /** A connection on a dead list is closed: every connection elsewhere stays where it is. */
  lemma LeavesDeadList(s: State, r: Thread, c: Conn)
    requires PlaceInv(s) && ReapEnabled(s, ReapClose(r, c))
    ensures var place := s.place[c := ClosedConn];
            && TemplatesOk(s.connLock, s.core.tmpl, s.dialed, place)
            && RequestsPlaced(s.reqs, place)
            && SessionsPlaced(s.core.sessions, s.connLock, place)
            && DeadPlaced(s.reapers[r := Closing(s.reapers[r].dead - {c})], place)
  {
    var reapers := s.reapers[r := Closing(s.reapers[r].dead - {c})];
    var place := s.place[c := ClosedConn];
    forall q, d | q in reapers && reapers[q].Closing? && d in reapers[q].dead
      ensures d in place && place[d] == OnDeadList(q)
    {
      assert q in s.reapers && s.reapers[q].Closing? && d in s.reapers[q].dead;
      assert s.place[d] == OnDeadList(q) && s.place[c] == OnDeadList(r);
    }
  }

  lemma RestStaysPlaced(s: State, r: Thread, c: Conn)
    requires PlaceInv(s) && ReapEnabled(s, ReapClose(r, c))
    ensures var place := s.place[c := ClosedConn];
            var reapers := s.reapers[r := Closing(s.reapers[r].dead - {c})];
            && place.Keys == s.dialed.Keys
            && PlacesOk(place, s.reqs, s.core.sessions, reapers, s.connLock, s.core.tmpl)
            && ClosesOk(CloseConn(s.core, c).closes, place)
  {
    var reapers := s.reapers[r := Closing(s.reapers[r].dead - {c})];
    assert s.place[c] == OnDeadList(r);
    forall d | d in s.place && d != c
      ensures PlaceOk(d, s.place[d], s.reqs, s.core.sessions, reapers, s.connLock, s.core.tmpl)
    {
      assert PlaceOk(d, s.place[d], s.reqs, s.core.sessions, s.reapers, s.connLock, s.core.tmpl);
    }
  }

  lemma ReapClosePlace(s: State, r: Thread, c: Conn)
    requires PlaceInv(s) && ReapEnabled(s, ReapClose(r, c))
    ensures PlaceInv(DoReapClose(s, r, c))
  {
    LeavesDeadList(s, r, c);
    RestStaysPlaced(s, r, c);
  }

  lemma ReapDoneKeeps(s: State, r: Thread)
    requires Inv(s) && ReapEnabled(s, ReapDone(r))
    ensures Inv(s.(reapers := s.reapers - {r}))
  {
  }

  // ---- every action, every run ----

  lemma RequestStepKeeps(s: State, a: RequestAct)
    requires Inv(s) && RequestEnabled(s, a)
    ensures Inv(RequestStep(s, a))
  {
    match a
    case Begin(t, id) => BeginKeeps(s, t, id);
    case LoadGen(t) => LoadGenKeeps(s, t);
    case StartDial(t) => StartDialKeeps(s, t);
    case DialOk(t, c) => DialOkControl(s, t, c); DialOkPlace(s, t, c);
    case DialFail(t) => FallBackKeeps(s, t);
    case CommitLock(t) => CommitLockKeeps(s, t);
    case CommitCheck(t) => CommitCheckKeeps(s, t);
    case CommitStore(t) => CommitStoreKeeps(s, t);
    case ReadTemplate(t) => ReadTemplateKeeps(s, t);
  }

  lemma ConnectStepKeeps(s: State, a: ConnectAct)
    requires Inv(s) && ConnectEnabled(s, a)
    ensures Inv(ConnectStep(s, a))
  {
    match a
    case StartConnect(x) => StartConnectControl(s, x); StartConnectPlace(s, x);
    case ConnectFail => ConnectFailKeeps(s);
    case ConnectDialed(c) => ConnectDialedControl(s, c); ConnectDialedPlace(s, c);
    case PublishTemplate => PublishControl(s); PublishPlace(s);
    case Arm => ArmKeeps(s);
  }

  lemma MonitorStepKeeps(s: State, a: MonitorAct)
    requires Inv(s) && MonitorEnabled(s, a)
    ensures Inv(MonitorStep(s, a))
  {
    match a
    case Fire(m) => FireControl(s, m); FirePlace(s, m);
    case MonitorExit(m) => MonitorNeverExitsEarly(s, m);
    case TearLock(m) => TearLockControl(s, m); TearLockPlace(s, m);
    case TearCancel => TearCancelControl(s); TearCancelPlace(s);
    case TearFlag => TearFlagControl(s); TearFlagPlace(s);
    case TearBump => TearBumpControl(s); TearBumpPlace(s);
  }

  lemma CloseStepKeeps(s: State, a: CloseAct)
    requires Inv(s) && CloseEnabled(s, a)
    ensures Inv(CloseStep(s, a))
  {
    match a
    case TearMu => TearMuControl(s); TearMuPlace(s);
    case TearTmpl => TemplateIsOpen(s); TearTmplControl(s); TearTmplPlace(s);
    case TearClose(id) => TearCloseControl(s, id); TearClosePlace(s, id);
    case TearDrop => TearDropControl(s); TearDropPlace(s);
    case TearMuDone => TearMuDoneControl(s); TearMuDonePlace(s);
    case TearUnlock => TearUnlockControl(s); TearUnlockPlace(s);
  }

  lemma ReapStepKeeps(s: State, a: ReapAct)
    requires Inv(s) && ReapEnabled(s, a)
    ensures Inv(ReapStep(s, a))
  {
    match a
    case ReapSnapshot(r, live) => ReapSnapshotKeeps(s, r, live);
    case ReapCollect(r) => ReapCollectControl(s, r); ReapCollectPlace(s, r);
    case ReapClose(r, c) => ReapCloseControl(s, r, c); ReapClosePlace(s, r, c);
    case ReapDone(r) => ReapDoneKeeps(s, r);
  }

  lemma StepKeeps(s: State, a: Action)
    requires Inv(s) && Enabled(s, a)
    ensures Inv(Apply(s, a))
  {
    match a
    case Request(q) => RequestStepKeeps(s, q);
    case Connect(n) => ConnectStepKeeps(s, n);
    case Monitor(m) => MonitorStepKeeps(s, m);
    case Close(k) => CloseStepKeeps(s, k);
    case Reap(p) => ReapStepKeeps(s, p);
  }

  /** Every state of every run satisfies the invariant. */
  lemma {:induction false} RunKeepsInv(tr: seq<State>, acts: seq<Action>, i: nat)
    requires IsRun(tr, acts) && i < |tr|
    ensures Inv(tr[i])
  {
    if i > 0 {
      RunKeepsInv(tr, acts, i - 1);
      assert StepAt(tr, acts, i - 1);
      StepKeeps(tr[i - 1], acts[i - 1]);
    }
  }
}
