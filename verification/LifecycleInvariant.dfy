/** The inductive invariant of the upstream machine, and that every action keeps it. */
module LifecycleInvariant {
  import opened Prelude
  import opened UpstreamCore
  import opened Lifecycle

  // Each part names the fields it depends on, so that an action that leaves them alone
  // keeps the part without further thought.

  /** The context that a connect in progress works under. */
  predicate IsConnecting(l: ConnLock, x: Ctx) {
    match l
    case Dialing(y) => x == y
    case Publishing(y, _) => x == y
    case Arming(y) => x == y
    case _ => false
  }

  predicate BeforeBump(at: TearPc) {
    at == AtCancel || at == AtFlag || at == AtBump
  }

  /** The teardown is inside `close()`, holding `mu`. */
  predicate InClose(l: ConnLock) {
    l.Tearing? && (l.at == AtTmpl || l.at == AtLoop || l.at.AtDrop?)
  }

  /** The generation was advanced and `close()` has not finished. */
  predicate Draining(l: ConnLock) {
    InClose(l) || (l.Tearing? && l.at == AtLock)
  }

  /** `b` is the published context, or an earlier published one, cancelled since. */
  predicate WasPublished(base: Option<Ctx>, cancelled: set<Ctx>, born: map<Ctx, nat>, b: Ctx) {
    && b in born && base.Some? && base.value in born
    && (b == base.value || (b in cancelled && born[b] < born[base.value]))
  }

  /** An uncancelled context is of the current generation and is the connected or connecting one. */
  ghost predicate ContextsOk(cancelled: set<Ctx>, gen: nat, cancel: Option<Ctx>, born: map<Ctx, nat>, l: ConnLock) {
    && cancelled <= born.Keys
    && forall x | x in born ::
         && born[x] <= gen && (l.Tearing? && !BeforeBump(l.at) ==> born[x] < gen)
         && (x !in cancelled ==> born[x] == gen && (cancel == Some(x) || IsConnecting(l, x)))
  }

  /** The published context belongs to the generation `g`. */
  predicate PublishedIn(base: Option<Ctx>, born: map<Ctx, nat>, g: nat) {
    base.Some? && base.value in born && born[base.value] == g
  }

  /** Nothing is stored, and whatever was published belongs to an earlier generation. */
  predicate Down(c: Core, born: map<Ctx, nat>) {
    && c.sessions == map[] && c.tmpl.None? && !c.connected && c.connCancel.None?
    && (c.baseCtx.Some? ==>
          c.baseCtx.value in born && born[c.baseCtx.value] < c.gen && c.baseCtx.value in c.cancelled)
  }

  ghost predicate TearOk(c: Core, m: Thread, at: TearPc, monitors: map<Thread, IdleMonitor>, born: map<Ctx, nat>,
                         connects: nat) {
    && monitors == map[m := Stopping]
    && (if BeforeBump(at) then
          PublishedIn(c.baseCtx, born, c.gen) && m == c.gen && connects == c.gen + 1
        else
          c.gen > 0 && PublishedIn(c.baseCtx, born, c.gen - 1) && m + 1 == c.gen && connects == c.gen)
    && (at == AtCancel ==> c.connCancel == c.baseCtx)
    && (at != AtCancel ==> c.connCancel.None? && c.baseCtx.value in c.cancelled)
    && (c.connected <==> at == AtCancel || at == AtFlag)
    && (c.tmpl.Some? <==> BeforeBump(at) || at == AtLock || at == AtTmpl)
    && (at.AtDrop? ==> at.id in c.sessions)
    && (at == AtUnlock ==> c.sessions == map[])
  }

  ghost predicate ConnectedOk(c: Core, monitors: map<Thread, IdleMonitor>, born: map<Ctx, nat>, connects: nat) {
    && PublishedIn(c.baseCtx, born, c.gen) && c.connCancel == c.baseCtx && c.baseCtx.value !in c.cancelled
    && c.tmpl.Some? && connects == c.gen + 1
    && (monitors == map[c.gen := Armed(c.baseCtx.value)] || monitors == map[c.gen := Fired(c.baseCtx.value)])
  }

  ghost predicate LockOk(c: Core, l: ConnLock, monitors: map<Thread, IdleMonitor>, born: map<Ctx, nat>, connects: nat) {
    match l
    case Tearing(m, at) => TearOk(c, m, at, monitors, born, connects)
    case ConnFree =>
      if c.connected then ConnectedOk(c, monitors, born, connects)
      else Down(c, born) && monitors == map[] && connects == c.gen
    case Arming(x) =>
      && monitors == map[] && connects == c.gen
      && PublishedIn(c.baseCtx, born, c.gen) && c.baseCtx == Some(x) && x !in c.cancelled
      && !c.connected && c.connCancel.None? && c.tmpl.Some?
    case _ =>
      && monitors == map[] && connects == c.gen && Down(c, born)
      && l.ctx in born && born[l.ctx] == c.gen && l.ctx !in c.cancelled
  }

  ghost predicate TemplatesOk(l: ConnLock, tmpl: Option<Conn>, dialed: map<Conn, Dial>, place: map<Conn, Place>) {
    && (l.Publishing? ==>
          && l.conn in dialed && dialed[l.conn].owner == Template
          && l.conn in place && place[l.conn] == TmplUnpublished)
    && (tmpl.Some? ==>
          && tmpl.value in dialed && dialed[tmpl.value].owner == Template
          && tmpl.value in place && place[tmpl.value] == TmplLive)
  }

  ghost predicate ReqOk(q: Req, perSession: bool, base: Option<Ctx>, cancelled: set<Ctx>, born: map<Ctx, nat>,
                        dialed: map<Conn, Dial>) {
    match q
    case HasBase(_, b) => perSession && (b.Some? ==> WasPublished(base, cancelled, born, b.value))
    case HasGen(_, b, g) =>
      perSession
      && (b.Some? ==>
            WasPublished(base, cancelled, born, b.value) && (b.value !in cancelled ==> g == born[b.value]))
    case InDial(_, x, g, began) =>
      perSession && WasPublished(base, cancelled, born, x) && g == began == born[x]
    case Holding(id, c, g) =>
      && perSession && c in dialed && dialed[c].owner == Client(id) && dialed[c].gen == g
      && WasPublished(base, cancelled, born, dialed[c].ctx)
    case WantsTemplate(_) => true
    case Answered(id, c) =>
      c.Some? ==>
        && c.value in dialed
        && (dialed[c.value].owner == Template || (perSession && dialed[c.value].owner == Client(id)))
  }

  ghost predicate ReqsOk(reqs: map<Thread, Req>, perSession: bool, base: Option<Ctx>, cancelled: set<Ctx>,
                         born: map<Ctx, nat>, dialed: map<Conn, Dial>) {
    forall t | t in reqs :: ReqOk(reqs[t], perSession, base, cancelled, born, dialed)
  }

  /** A committer past its generation check: current, or overtaken by a bump still waiting for `mu`. */
  ghost predicate CheckedOk(q: Req, base: Option<Ctx>, gen: nat, l: ConnLock, dialed: map<Conn, Dial>) {
    && q.Holding? && q.conn in dialed && base == Some(dialed[q.conn].ctx)
    && (q.gen == gen || (q.gen + 1 == gen && l.Tearing? && l.at == AtLock))
  }

  ghost predicate MuOk(mu: MuLock, l: ConnLock, reqs: map<Thread, Req>, base: Option<Ctx>, gen: nat,
                       dialed: map<Conn, Dial>) {
    && (mu == ByClose <==> InClose(l))
    && (mu.ByCommit? ==>
          && mu.t in reqs && reqs[mu.t].Holding?
          && (mu.checked ==> CheckedOk(reqs[mu.t], base, gen, l, dialed)))
  }

  ghost predicate DialedOk(dialed: map<Conn, Dial>, born: map<Ctx, nat>) {
    forall c | c in dialed :: dialed[c].ctx in born && dialed[c].gen == dialed[c].began == born[dialed[c].ctx]
  }

  ghost predicate SessionsOk(sessions: map<ClientId, Conn>, perSession: bool, base: Option<Ctx>,
                             dialed: map<Conn, Dial>) {
    && (!perSession ==> sessions == map[])
    && forall id | id in sessions ::
         && sessions[id] in dialed && dialed[sessions[id]].owner == Client(id)
         && base == Some(dialed[sessions[id]].ctx)
  }

  // Where a connection is kept, from the variables to the record ...

  ghost predicate RequestsPlaced(reqs: map<Thread, Req>, place: map<Conn, Place>) {
    forall t | t in reqs && reqs[t].Holding? :: reqs[t].conn in place && place[reqs[t].conn] == OfRequest(t)
  }

  ghost predicate SessionsPlaced(sessions: map<ClientId, Conn>, l: ConnLock, place: map<Conn, Place>) {
    forall id | id in sessions ::
      && sessions[id] in place
      && place[sessions[id]] == if l.Tearing? && l.at == AtDrop(id) then ClosedConn else InMap(id)
  }

  ghost predicate DeadPlaced(reapers: map<Thread, Reaper>, place: map<Conn, Place>) {
    forall r, c | r in reapers && reapers[r].Closing? && c in reapers[r].dead ::
      c in place && place[c] == OnDeadList(r)
  }

  // ... and from the record back to the variables.

  predicate PlaceOk(c: Conn, p: Place, reqs: map<Thread, Req>, sessions: map<ClientId, Conn>,
                    reapers: map<Thread, Reaper>, l: ConnLock, tmpl: Option<Conn>) {
    match p
    case OfRequest(t) => t in reqs && reqs[t].Holding? && reqs[t].conn == c
    case InMap(id) => id in sessions && sessions[id] == c
    case OnDeadList(r) => r in reapers && reapers[r].Closing? && c in reapers[r].dead
    case TmplUnpublished => l.Publishing? && l.conn == c
    case TmplLive => tmpl == Some(c)
    case ClosedConn => true
  }

  ghost predicate PlacesOk(place: map<Conn, Place>, reqs: map<Thread, Req>, sessions: map<ClientId, Conn>,
                           reapers: map<Thread, Reaper>, l: ConnLock, tmpl: Option<Conn>) {
    forall c | c in place :: PlaceOk(c, place[c], reqs, sessions, reapers, l, tmpl)
  }

  ghost predicate ClosesOk(closes: multiset<Conn>, place: map<Conn, Place>) {
    forall c :: closes[c] == if c in place && place[c] == ClosedConn then 1 else 0
  }

  /** The part about contexts, generations, locks and requests. */
  ghost predicate ControlInv(s: State) {
    && ContextsOk(s.core.cancelled, s.core.gen, s.core.connCancel, s.born, s.connLock)
    && LockOk(s.core, s.connLock, s.monitors, s.born, s.connects)
    && MuOk(s.muLock, s.connLock, s.reqs, s.core.baseCtx, s.core.gen, s.dialed)
    && ReqsOk(s.reqs, s.perSession, s.core.baseCtx, s.core.cancelled, s.born, s.dialed)
    && DialedOk(s.dialed, s.born)
    && SessionsOk(s.core.sessions, s.perSession, s.core.baseCtx, s.dialed)
  }

  /** The part about where each connection is. */
  ghost predicate PlaceInv(s: State) {
    && s.place.Keys == s.dialed.Keys
    && TemplatesOk(s.connLock, s.core.tmpl, s.dialed, s.place)
    && RequestsPlaced(s.reqs, s.place)
    && SessionsPlaced(s.core.sessions, s.connLock, s.place)
    && DeadPlaced(s.reapers, s.place)
    && PlacesOk(s.place, s.reqs, s.core.sessions, s.reapers, s.connLock, s.core.tmpl)
    && ClosesOk(s.core.closes, s.place)
  }

  ghost predicate Inv(s: State) {
    ControlInv(s) && PlaceInv(s)
  }
}
