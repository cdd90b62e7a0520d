/**
 The upstream of internal/proxy/proxy.go under every interleaving of request goroutines,
 on-demand connects, idle monitors with their teardown, and session reapers.

 One action is one statement of the source that another goroutine can observe: a read under a
 lock, an atomic load, one assignment, one close.  The two mutexes are explicit, so a statement
 that needs `mu` is enabled only while nobody holds it.  A goroutine is the state it is in.
 The server context stays live and the template is never lost on its own.
 */
module Lifecycle {
  import opened Prelude
  import opened UpstreamCore

  type Thread = nat

  /** A request goroutine inside `clientFor`. */
  datatype Req =
    | HasBase(id: ClientId, base: Option<Ctx>)
    | HasGen(id: ClientId, base: Option<Ctx>, gen: nat)
    | InDial(id: ClientId, ctx: Ctx, gen: nat, began: nat)
    | Holding(id: ClientId, conn: Conn, gen: nat)
    | WantsTemplate(id: ClientId)
    | Answered(id: ClientId, use: Option<Conn>)

  datatype Reaper = Snapshot(live: set<ClientId>) | Closing(dead: set<Conn>)

  /** An idle monitor: polling, blocked on `connMu` after it decided to fire, or in teardown. */
  datatype IdleMonitor = Armed(ctx: Ctx) | Fired(ctx: Ctx) | Stopping

  /** Where the holder of `connMu` is. */
  datatype ConnLock =
    | ConnFree
    | Dialing(ctx: Ctx)
    | Publishing(ctx: Ctx, conn: Conn)
    | Arming(ctx: Ctx)
    | Tearing(monitor: Thread, at: TearPc)

  datatype TearPc = AtCancel | AtFlag | AtBump | AtLock | AtTmpl | AtLoop | AtDrop(id: ClientId) | AtUnlock

  datatype MuLock = MuFree | ByCommit(t: Thread, checked: bool) | ByClose

  datatype Owner = Template | Client(id: ClientId)

  /** How a connection was opened: `gen` as snapshotted, `began` as it was when dialing began. */
  datatype Dial = Dial(owner: Owner, ctx: Ctx, gen: nat, began: nat)

  /** The one place a connection is kept, maintained beside the source's own variables. */
  datatype Place =
    | OfRequest(t: Thread) | InMap(id: ClientId) | OnDeadList(r: Thread)
    | TmplUnpublished | TmplLive | ClosedConn

  /** `born`, `dialed`, `place` and `connects` only record history; no action tests them but for freshness. */
  datatype State = State(
    core: Core,
    connLock: ConnLock,
    muLock: MuLock,
    perSession: bool,
    reqs: map<Thread, Req>,
    reapers: map<Thread, Reaper>,
    monitors: map<Thread, IdleMonitor>,
    born: map<Ctx, nat>,
    dialed: map<Conn, Dial>,
    place: map<Conn, Place>,
    connects: nat)

  ghost predicate Init(s: State) {
    && s.core == EMPTY && s.connLock == ConnFree && s.muLock == MuFree
    && s.reqs == map[] && s.reapers == map[] && s.monitors == map[]
    && s.born == map[] && s.dialed == map[] && s.place == map[] && s.connects == 0
  }

  /** `clientFor` and `commitSession`. */
  datatype RequestAct =
    | Begin(t: Thread, id: ClientId)
    | LoadGen(t: Thread)
    | StartDial(t: Thread)
    | DialOk(t: Thread, c: Conn)
    | DialFail(t: Thread)
    | CommitLock(t: Thread)
    | CommitCheck(t: Thread)
    | CommitStore(t: Thread)
    | ReadTemplate(t: Thread)

  /** `ensureConnected` and `connect`; a call that finds the upstream connected changes nothing here. */
  datatype ConnectAct =
    | StartConnect(ctx: Ctx)
    | ConnectFail
    | ConnectDialed(c: Conn)
    | PublishTemplate
    | Arm

  /** `monitorIdle`, and `teardown` up to the generation bump. */
  datatype MonitorAct =
    | Fire(m: Thread)
    | MonitorExit(m: Thread)
    | TearLock(m: Thread)
    | TearCancel
    | TearFlag
    | TearBump

  /** `close` as called by `teardown`, and the return. */
  datatype CloseAct =
    | TearMu
    | TearTmpl
    | TearClose(id: ClientId)
    | TearDrop
    | TearMuDone
    | TearUnlock

  /** `reapDeadSessions`. */
  datatype ReapAct =
    | ReapSnapshot(r: Thread, live: set<ClientId>)
    | ReapCollect(r: Thread)
    | ReapClose(r: Thread, c: Conn)
    | ReapDone(r: Thread)

  datatype Action =
    | Request(q: RequestAct) | Connect(n: ConnectAct) | Monitor(m: MonitorAct) | Close(k: CloseAct) | Reap(p: ReapAct)

  predicate RequestEnabled(s: State, a: RequestAct) {
    match a
    case Begin(t, id) => t !in s.reqs && (s.perSession ==> s.muLock == MuFree)
    case LoadGen(t) => t in s.reqs && s.reqs[t].HasBase?
    case StartDial(t) => t in s.reqs && s.reqs[t].HasGen?
    case DialOk(t, c) => t in s.reqs && s.reqs[t].InDial? && c !in s.dialed
    case DialFail(t) => t in s.reqs && s.reqs[t].InDial?
    case CommitLock(t) => t in s.reqs && s.reqs[t].Holding? && s.muLock == MuFree
    case CommitCheck(t) => s.muLock == ByCommit(t, false) && t in s.reqs && s.reqs[t].Holding?
    case CommitStore(t) => s.muLock == ByCommit(t, true) && t in s.reqs && s.reqs[t].Holding?
    case ReadTemplate(t) => t in s.reqs && s.reqs[t].WantsTemplate? && s.muLock == MuFree
  }

  predicate ConnectEnabled(s: State, a: ConnectAct) {
    match a
    case StartConnect(ctx) => s.connLock == ConnFree && !s.core.connected && ctx !in s.born
    case ConnectFail => s.connLock.Dialing?
    case ConnectDialed(c) => s.connLock.Dialing? && c !in s.dialed
    case PublishTemplate => s.connLock.Publishing? && s.muLock == MuFree
    case Arm => s.connLock.Arming? && s.connects !in s.monitors
  }

  predicate MonitorEnabled(s: State, a: MonitorAct) {
    match a
    case Fire(m) => m in s.monitors && s.monitors[m].Armed?
    case MonitorExit(m) => m in s.monitors && s.monitors[m].Armed? && s.monitors[m].ctx in s.core.cancelled
    case TearLock(m) => m in s.monitors && s.monitors[m].Fired? && s.connLock == ConnFree
    case TearCancel => s.connLock.Tearing? && s.connLock.at == AtCancel
    case TearFlag => s.connLock.Tearing? && s.connLock.at == AtFlag
    case TearBump => s.connLock.Tearing? && s.connLock.at == AtBump
  }

  predicate CloseEnabled(s: State, a: CloseAct) {
    match a
    case TearMu => s.connLock.Tearing? && s.connLock.at == AtLock && s.muLock == MuFree
    case TearTmpl => s.connLock.Tearing? && s.connLock.at == AtTmpl
    case TearClose(id) => s.connLock.Tearing? && s.connLock.at == AtLoop && id in s.core.sessions
    case TearDrop => s.connLock.Tearing? && s.connLock.at.AtDrop?
    case TearMuDone => s.connLock.Tearing? && s.connLock.at == AtLoop && s.core.sessions == map[]
    case TearUnlock => s.connLock.Tearing? && s.connLock.at == AtUnlock
  }

  predicate ReapEnabled(s: State, a: ReapAct) {
    match a
    case ReapSnapshot(r, live) => r !in s.reapers
    case ReapCollect(r) => r in s.reapers && s.reapers[r].Snapshot? && s.muLock == MuFree
    case ReapClose(r, c) => r in s.reapers && s.reapers[r].Closing? && c in s.reapers[r].dead
    case ReapDone(r) => r in s.reapers && s.reapers[r].Closing? && s.reapers[r].dead == {}
  }

  predicate Enabled(s: State, a: Action) {
    match a
    case Request(q) => RequestEnabled(s, q)
    case Connect(n) => ConnectEnabled(s, n)
    case Monitor(m) => MonitorEnabled(s, m)
    case Close(k) => CloseEnabled(s, k)
    case Reap(p) => ReapEnabled(s, p)
  }

  /** The goroutine `t` moves on to `q`. */
  function Goto(s: State, t: Thread, q: Req): State {
    s.(reqs := s.reqs[t := q])
  }

  /** `Close` on a per-session or template connection. */
  function CloseAt(s: State, c: Conn): State {
    s.(core := CloseConn(s.core, c), place := s.place[c := ClosedConn])
  }

  /** The teardown goroutine moves on. */
  function TearTo(s: State, at: TearPc): State
    requires s.connLock.Tearing?
  {
    s.(connLock := s.connLock.(at := at))
  }

  /** The read of the map and of the base context under one read lock. */
  function NextOfBegin(s: State, id: ClientId): Req {
    if !s.perSession then WantsTemplate(id)
    else if id in s.core.sessions then Answered(id, Some(s.core.sessions[id]))
    else HasBase(id, s.core.baseCtx)
  }

  /** A dial on a missing or already cancelled context fails; the caller falls back to the template. */
  function NextOfStartDial(s: State, q: Req): Req
    requires q.HasGen?
  {
    if q.base.None? || q.base.value in s.core.cancelled then WantsTemplate(q.id)
    else InDial(q.id, q.base.value, q.gen, s.core.gen)
  }

  function DoDialOk(s: State, t: Thread, c: Conn): State
    requires RequestEnabled(s, DialOk(t, c))
  {
    var q := s.reqs[t];
    Goto(s, t, Holding(q.id, c, q.gen)).(
      dialed := s.dialed[c := Dial(Client(q.id), q.ctx, q.gen, q.began)],
      place := s.place[c := OfRequest(t)])
  }

  /** The surplus connection of `t` is closed and `t` releases `mu` and goes on as `q`. */
  function Surplus(s: State, t: Thread, q: Req): State
    requires t in s.reqs && s.reqs[t].Holding?
  {
    var closed := CloseAt(s, s.reqs[t].conn);
    Goto(closed, t, q).(muLock := MuFree)
  }

  function DoCommitCheck(s: State, t: Thread): State
    requires RequestEnabled(s, CommitCheck(t))
  {
    if s.core.gen == s.reqs[t].gen then s.(muLock := ByCommit(t, true))
    else Surplus(s, t, WantsTemplate(s.reqs[t].id))
  }

  function Store(s: State, t: Thread): State
    requires RequestEnabled(s, CommitStore(t))
  {
    var q := s.reqs[t];
    Goto(s, t, Answered(q.id, Some(q.conn))).(
      core := s.core.(sessions := s.core.sessions[q.id := q.conn]),
      place := s.place[q.conn := InMap(q.id)],
      muLock := MuFree)
  }

  function DoCommitStore(s: State, t: Thread): State
    requires RequestEnabled(s, CommitStore(t))
  {
    var id := s.reqs[t].id;
    if id in s.core.sessions then Surplus(s, t, Answered(id, Some(s.core.sessions[id])))
    else Store(s, t)
  }

  function DoConnectFail(s: State): State
    requires ConnectEnabled(s, ConnectFail)
  {
    s.(connLock := ConnFree, core := s.core.(cancelled := s.core.cancelled + {s.connLock.ctx}))
  }

  function DoConnectDialed(s: State, c: Conn): State
    requires ConnectEnabled(s, ConnectDialed(c))
  {
    s.(connLock := Publishing(s.connLock.ctx, c),
    dialed := s.dialed[c := Dial(Template, s.connLock.ctx, s.core.gen, s.core.gen)],
    place := s.place[c := TmplUnpublished])
  }

  function DoPublish(s: State): State
    requires ConnectEnabled(s, PublishTemplate)
  {
    s.(connLock := Arming(s.connLock.ctx),
    core := Publish(s.core, s.connLock.ctx, s.connLock.conn),
    place := s.place[s.connLock.conn := TmplLive])
  }

  /** Monitors are numbered by the on-demand connect that armed them. */
  function DoArm(s: State): State
    requires ConnectEnabled(s, Arm)
  {
    s.(connLock := ConnFree,
    core := MarkConnected(s.core, s.connLock.ctx),
    monitors := s.monitors[s.connects := Armed(s.connLock.ctx)],
    connects := s.connects + 1)
  }

  function DoTearLock(s: State, m: Thread): State
    requires MonitorEnabled(s, TearLock(m))
  {
    if s.core.connected then s.(connLock := Tearing(m, AtCancel), monitors := s.monitors[m := Stopping])
    else s.(monitors := s.monitors - {m})
  }

  function DoTearTmpl(s: State): State
    requires CloseEnabled(s, TearTmpl)
  {
    if s.core.tmpl.None? then TearTo(s, AtLoop)
    else TearTo(s, AtLoop).(core := CloseTemplate(s.core), place := s.place[s.core.tmpl.value := ClosedConn])
  }

  function DoTearClose(s: State, id: ClientId): State
    requires CloseEnabled(s, TearClose(id))
  {
    TearTo(CloseAt(s, s.core.sessions[id]), AtDrop(id))
  }

  function DoReapCollect(s: State, r: Thread): State
    requires ReapEnabled(s, ReapCollect(r))
  {
    var live := s.reapers[r].live;
    var dead := Orphaned(s.core.sessions, live);
    s.(core := s.core.(sessions := Surviving(s.core.sessions, live)),
    reapers := s.reapers[r := Closing(dead)],
    place := map c | c in s.place :: if c in dead then OnDeadList(r) else s.place[c])
  }

  function DoReapClose(s: State, r: Thread, c: Conn): State
    requires ReapEnabled(s, ReapClose(r, c))
  {
    CloseAt(s, c).(reapers := s.reapers[r := Closing(s.reapers[r].dead - {c})])
  }

  function RequestStep(s: State, a: RequestAct): State
    requires RequestEnabled(s, a)
  {
    match a
    case Begin(t, id) => Goto(s, t, NextOfBegin(s, id))
    case LoadGen(t) => Goto(s, t, HasGen(s.reqs[t].id, s.reqs[t].base, s.core.gen))
    case StartDial(t) => Goto(s, t, NextOfStartDial(s, s.reqs[t]))
    case DialOk(t, c) => DoDialOk(s, t, c)
    case DialFail(t) => Goto(s, t, WantsTemplate(s.reqs[t].id))
    case CommitLock(t) => s.(muLock := ByCommit(t, false))
    case CommitCheck(t) => DoCommitCheck(s, t)
    case CommitStore(t) => DoCommitStore(s, t)
    case ReadTemplate(t) => Goto(s, t, Answered(s.reqs[t].id, s.core.tmpl))
  }

  function ConnectStep(s: State, a: ConnectAct): State
    requires ConnectEnabled(s, a)
  {
    match a
    case StartConnect(ctx) => s.(connLock := Dialing(ctx), born := s.born[ctx := s.core.gen])
    case ConnectFail => DoConnectFail(s)
    case ConnectDialed(c) => DoConnectDialed(s, c)
    case PublishTemplate => DoPublish(s)
    case Arm => DoArm(s)
  }

  function MonitorStep(s: State, a: MonitorAct): State
    requires MonitorEnabled(s, a)
  {
    match a
    case Fire(m) => s.(monitors := s.monitors[m := Fired(s.monitors[m].ctx)])
    case MonitorExit(m) => s.(monitors := s.monitors - {m})
    case TearLock(m) => DoTearLock(s, m)
    case TearCancel => TearTo(s, AtFlag).(core := CancelConn(s.core))
    case TearFlag => TearTo(s, AtBump).(core := s.core.(connected := false))
    case TearBump => TearTo(s, AtLock).(core := BumpGen(s.core))
  }

  function CloseStep(s: State, a: CloseAct): State
    requires CloseEnabled(s, a)
  {
    match a
    case TearMu => TearTo(s, AtTmpl).(muLock := ByClose)
    case TearTmpl => DoTearTmpl(s)
    case TearClose(id) => DoTearClose(s, id)
    case TearDrop => TearTo(s, AtLoop).(core := DropSession(s.core, s.connLock.at.id))
    case TearMuDone => TearTo(s, AtUnlock).(muLock := MuFree)
    case TearUnlock => s.(connLock := ConnFree, monitors := s.monitors - {s.connLock.monitor})
  }

  function ReapStep(s: State, a: ReapAct): State
    requires ReapEnabled(s, a)
  {
    match a
    case ReapSnapshot(r, live) => s.(reapers := s.reapers[r := Snapshot(live)])
    case ReapCollect(r) => DoReapCollect(s, r)
    case ReapClose(r, c) => DoReapClose(s, r, c)
    case ReapDone(r) => s.(reapers := s.reapers - {r})
  }

  function Apply(s: State, a: Action): State
    requires Enabled(s, a)
  {
    match a
    case Request(q) => RequestStep(s, q)
    case Connect(n) => ConnectStep(s, n)
    case Monitor(m) => MonitorStep(s, m)
    case Close(k) => CloseStep(s, k)
    case Reap(p) => ReapStep(s, p)
  }

  ghost predicate StepAt(tr: seq<State>, acts: seq<Action>, i: int) {
    0 <= i < |acts| && i + 1 < |tr| && Enabled(tr[i], acts[i]) && tr[i + 1] == Apply(tr[i], acts[i])
  }

  /** `tr` is a run that takes the actions `acts` from an initial state. */
  ghost predicate IsRun(tr: seq<State>, acts: seq<Action>) {
    |tr| == |acts| + 1 && Init(tr[0]) && forall i | 0 <= i < |acts| :: StepAt(tr, acts, i)
  }
}
