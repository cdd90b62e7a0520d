/**
 The start of the process as a transition system: one goroutine per configured server runs the
 steps of addServer, the boot goroutine waits for them and opens the readiness gate, and the HTTP
 server starts to accept (internal/proxy/manager.go and internal/proxy/http.go).
 */
module Boot {
  import opened Prelude
  import opened Routes
  import opened Readiness
  import opened ManagerWorld
  import opened Reconcile

  /** Where the goroutine of one server is; each constructor names what it does next. */
  datatype Pc =
    | Starting
    | Dialing
    | Mounting
    | Reporting(st: UpstreamState)
    | Storing(st: UpstreamState)
    | Finished(err: Option<string>)

  datatype MainPc = Waiting | Signalling | Closing | Aborted | Watching

  datatype ServerPc = Held | Serving | Stopped

  datatype State = State(
    pc: map<string, Pc>,
    routes: map<string, string>,
    states: map<string, UpstreamState>,
    servers: map<string, string>,
    main: MainPc,
    ready: bool,
    readyClosed: bool,
    cancelled: bool,
    server: ServerPc,
    accepted: nat)

  /** What one process is started with. */
  datatype Setup = Setup(env: Env, dial: Dialer, cfgs: Configs, activated: bool)

  datatype Action =
    | Add(name: string)
    | Wait
    | SignalReady
    | CloseReady
    | ServerGoes
    | Shutdown
    | Accept

  predicate IsFatal(c: Setup, n: string)
    requires n in c.cfgs
  {
    Fatal(c.env, c.dial, n, c.cfgs[n])
  }

  function Target(c: Setup, n: string): UpstreamState
    requires n in c.cfgs
  {
    StateFor(c.env, c.dial, n, c.cfgs[n])
  }

  function Init(c: Setup): State {
    State(map n | n in c.cfgs :: Starting, map[], map[], map[], Waiting, false, false, false,
          if c.activated then Held else Serving, 0)
  }

  // ---- one step of addServer ----

  function AfterStart(c: Setup, n: string): Pc
    requires n in c.cfgs
  {
    if IsDisabled(c.cfgs[n]) then Reporting(UpstreamState(Disabled, ""))
    else if IsLazy(c.env, c.cfgs[n]) then Mounting
    else Dialing
  }

  function AfterDial(c: Setup, n: string): Pc
    requires n in c.cfgs
  {
    var e := c.dial(n, c.cfgs[n]);
    if e.Some? then Reporting(UpstreamState(Failed, e.value)) else Mounting
  }

  function ErrorOf(c: Setup, n: string, st: UpstreamState): Option<string>
    requires n in c.cfgs
  {
    if st.status == Failed && c.cfgs[n].options.panicIfInvalid == Some(true) then Some(st.error) else None
  }

  function NextPc(c: Setup, n: string, pc: Pc): Pc
    requires n in c.cfgs
  {
    match pc
    case Starting => AfterStart(c, n)
    case Dialing => AfterDial(c, n)
    case Mounting => Reporting(UpstreamState(Connected, ""))
    case Reporting(st) => Storing(st)
    case Storing(st) => Finished(ErrorOf(c, n, st))
    case Finished(_) => pc
  }

  /** One step: Mounting writes the router, Reporting the readiness states, Storing the managed records. */
  function AddStep(c: Setup, s: State, n: string): State
    requires n in c.cfgs && n in s.pc
  {
    var pc := s.pc[n];
    var route := RouteOf(c.env, n);
    s.(pc := s.pc[n := NextPc(c, n, pc)],
    routes := if pc.Mounting? then s.routes[route := n] else s.routes,
    states := if pc.Reporting? then s.states[n := pc.st] else s.states,
    servers := if pc.Storing? then s.servers[n := if pc.st.status == Connected then route else ""] else s.servers)
  }

  // ---- the system ----

  predicate AllFinished(s: State) {
    forall n | n in s.pc :: s.pc[n].Finished?
  }

  predicate SomeError(s: State) {
    exists n | n in s.pc :: s.pc[n].Finished? && s.pc[n].err.Some?
  }

  /** A process whose boot failed has exited: it takes no step at all. */
  predicate Enabled(c: Setup, s: State, a: Action) {
    && s.main != Aborted
    && match a
       case Add(n) => n in c.cfgs && n in s.pc && !s.pc[n].Finished?
       case Wait => s.main == Waiting && AllFinished(s)
       case SignalReady => s.main == Signalling
       case CloseReady => s.main == Closing
       case ServerGoes => s.server == Held && (s.readyClosed || s.cancelled)
       case Shutdown => !s.cancelled
       case Accept => s.server == Serving
  }

  /** With both channels ready the select may take either; `takeReady` is its choice. */
  function Apply(c: Setup, s: State, a: Action, takeReady: bool): State
    requires Enabled(c, s, a)
  {
    match a
    case Add(n) => AddStep(c, s, n)
    case Wait => s.(main := if SomeError(s) then Aborted else Signalling)
    case SignalReady => s.(ready := true, main := Closing)
    case CloseReady => s.(readyClosed := true, main := Watching)
    case ServerGoes => s.(server := if s.readyClosed && (takeReady || !s.cancelled) then Serving else Stopped)
    case Shutdown => s.(cancelled := true)
    case Accept => s.(accepted := s.accepted + 1)
  }

  ghost predicate Step(c: Setup, s: State, t: State) {
    exists a, b :: Enabled(c, s, a) && t == Apply(c, s, a, b)
  }

  ghost predicate IsRun(c: Setup, run: seq<State>) {
    && |run| > 0 && run[0] == Init(c)
    && forall i | 0 <= i < |run| - 1 :: Step(c, run[i], run[i + 1])
  }

  // ---- the invariant ----

  predicate Mounted(c: Setup, s: State, n: string) {
    RouteOf(c.env, n) in s.routes && s.routes[RouteOf(c.env, n)] == n
  }

  /** What the three maps hold of one server, at each place of its goroutine. */
  predicate LocalInv(c: Setup, s: State, n: string)
    requires n in c.cfgs
  {
    && n in s.pc
    && match s.pc[n]
       case Starting => n !in s.states && RouteOf(c.env, n) !in s.routes && n !in s.servers
       case Dialing => n !in s.states && RouteOf(c.env, n) !in s.routes && n !in s.servers
                       && !IsDisabled(c.cfgs[n]) && !IsLazy(c.env, c.cfgs[n])
       case Mounting => n !in s.states && RouteOf(c.env, n) !in s.routes && n !in s.servers
                        && Target(c, n).status == Connected
       case Reporting(st) => n !in s.states && n !in s.servers && st == Target(c, n)
                             && (RouteOf(c.env, n) in s.routes <==> st.status == Connected)
                             && (st.status == Connected ==> Mounted(c, s, n))
       case Storing(st) => n !in s.servers && Reported(c, s, n) && st == Target(c, n)
       case Finished(err) => Reported(c, s, n) && n in s.servers
                             && s.servers[n] == (if Target(c, n).status == Connected then RouteOf(c.env, n) else "")
                             && (err.Some? <==> IsFatal(c, n))
  }

  /** The state is set, and it says connected exactly when the route is mounted. */
  predicate Reported(c: Setup, s: State, n: string)
    requires n in c.cfgs
  {
    && n in s.states && s.states[n] == Target(c, n)
    && (RouteOf(c.env, n) in s.routes <==> Target(c, n).status == Connected)
    && (Target(c, n).status == Connected ==> Mounted(c, s, n))
  }

  /** Nothing but the configured servers is anywhere. */
  ghost predicate OnlyConfigured(c: Setup, s: State) {
    && s.pc.Keys == c.cfgs.Keys && s.states.Keys <= c.cfgs.Keys && s.servers.Keys <= c.cfgs.Keys
    && forall p | p in s.routes :: s.routes[p] in c.cfgs && p == RouteOf(c.env, s.routes[p])
  }

  /** How far the boot goroutine and the server are, and what that lets one conclude. */
  predicate GateInv(c: Setup, s: State) {
    && (s.main != Waiting ==> AllFinished(s) && (s.main == Aborted <==> SomeError(s)))
    && (s.ready <==> s.main in {Closing, Watching})
    && (s.readyClosed <==> s.main == Watching)
    && (c.activated ==> (s.server == Serving ==> s.readyClosed) && (s.accepted > 0 ==> s.readyClosed))
  }

  ghost predicate Inv(c: Setup, s: State) {
    && (forall n | n in c.cfgs :: LocalInv(c, s, n))
    && OnlyConfigured(c, s)
    && GateInv(c, s)
  }

  lemma InitInv(c: Setup)
    ensures Inv(c, Init(c))
  {
  }

  lemma AddKeepsOwn(c: Setup, s: State, n: string)
    requires n in c.cfgs && LocalInv(c, s, n)
    ensures LocalInv(c, AddStep(c, s, n), n)
  {
  }

  /** Everything one server has in the three maps. */
  predicate SameLocal(c: Setup, s: State, t: State, m: string) {
    && (m in s.pc <==> m in t.pc) && (m in s.pc ==> s.pc[m] == t.pc[m])
    && (m in s.states <==> m in t.states) && (m in s.states ==> s.states[m] == t.states[m])
    && (m in s.servers <==> m in t.servers) && (m in s.servers ==> s.servers[m] == t.servers[m])
    && (RouteOf(c.env, m) in s.routes <==> RouteOf(c.env, m) in t.routes)
    && (Mounted(c, s, m) <==> Mounted(c, t, m))
  }

  lemma AddLeavesOthers(c: Setup, s: State, n: string, m: string)
    requires n in c.cfgs && n in s.pc && n != m && Simple(n) && Simple(m)
    ensures SameLocal(c, s, AddStep(c, s, n), m)
  {
    RoutesDiffer(c.env, n, m);
  }

  lemma SameLocalSameInv(c: Setup, s: State, t: State, m: string)
    requires m in c.cfgs && LocalInv(c, s, m) && SameLocal(c, s, t, m)
    ensures LocalInv(c, t, m)
  {
  }

  lemma AddKeepsOnly(c: Setup, s: State, n: string)
    requires OnlyConfigured(c, s) && n in c.cfgs
    ensures OnlyConfigured(c, AddStep(c, s, n))
  {
  }

  lemma AddKeepsInv(c: Setup, s: State, n: string)
    requires SimpleNames(c.cfgs) && Inv(c, s) && Enabled(c, s, Add(n))
    ensures Inv(c, AddStep(c, s, n))
  {
    forall m | m in c.cfgs ensures LocalInv(c, AddStep(c, s, n), m) {
      if m == n {
        AddKeepsOwn(c, s, n);
      } else {
        AddLeavesOthers(c, s, n, m);
        SameLocalSameInv(c, s, AddStep(c, s, n), m);
      }
    }
    AddKeepsOnly(c, s, n);
    AddKeepsGate(c, s, n);
  }

  lemma AddKeepsGate(c: Setup, s: State, n: string)
    requires GateInv(c, s) && n in c.cfgs && n in s.pc && !s.pc[n].Finished?
    ensures GateInv(c, AddStep(c, s, n))
  {
  }

  lemma StepKeepsInv(c: Setup, s: State, a: Action, b: bool)
    requires SimpleNames(c.cfgs) && Inv(c, s) && Enabled(c, s, a)
    ensures Inv(c, Apply(c, s, a, b))
  {
    if a.Add? {
      AddKeepsInv(c, s, a.name);
    } else {
      GateStep(c, s, a, b);
      forall m | m in c.cfgs ensures LocalInv(c, Apply(c, s, a, b), m) {
        SameLocalSameInv(c, s, Apply(c, s, a, b), m);
      }
    }
  }

  lemma GateStep(c: Setup, s: State, a: Action, b: bool)
    requires GateInv(c, s) && Enabled(c, s, a) && !a.Add?
    ensures var t := Apply(c, s, a, b);
            GateInv(c, t) && t.pc == s.pc && t.routes == s.routes && t.states == s.states && t.servers == s.servers
  {
  }

  lemma {:induction false} RunKeepsInv(c: Setup, run: seq<State>, i: nat)
    requires SimpleNames(c.cfgs) && IsRun(c, run) && i < |run|
    ensures Inv(c, run[i])
  {
    if i > 0 {
      RunKeepsInv(c, run, i - 1);
      assert Step(c, run[i - 1], run[i]);
      var a, b :| Enabled(c, run[i - 1], a) && run[i] == Apply(c, run[i - 1], a, b);
      StepKeepsInv(c, run[i - 1], a, b);
    } else {
      InitInv(c);
    }
  }

  // ---- what every run promises ----

  /** A server is reported connected only when its route is mounted already, with its own handler. */
  lemma ConnectedMeansMounted(c: Setup, run: seq<State>, i: nat, n: string)
    requires SimpleNames(c.cfgs) && IsRun(c, run) && i < |run|
    requires n in run[i].states && run[i].states[n].status == Connected
    ensures Mounted(c, run[i], n)
  {
    RunKeepsInv(c, run, i);
    assert LocalInv(c, run[i], n);
  }

  /** The route in the record of each server. */
  function RecordedRoutes(c: Setup): map<string, string> {
    map n | n in c.cfgs :: if Target(c, n).status == Connected then RouteOf(c.env, n) else ""
  }

  /** What the gate promises: every server is resolved, its record, its state and its route are those of its config. */
  ghost predicate Resolved(c: Setup, s: State) {
    && s.servers == RecordedRoutes(c)
    && s.states == StatesOf(c.env, c.dial, c.cfgs)
    && PROBES + s.routes.Keys == PatternsOf(c.env, c.dial, c.cfgs)
    && (forall n | n in c.cfgs && Target(c, n).status == Connected :: Mounted(c, s, n))
    && forall n | n in c.cfgs :: !IsFatal(c, n)
  }

  /** Once the readiness gate is open, whatever the interleaving was. */
  lemma ReadyMeansResolved(c: Setup, run: seq<State>, i: nat)
    requires SimpleNames(c.cfgs) && IsRun(c, run) && i < |run| && run[i].ready
    ensures Resolved(c, run[i])
  {
    RunKeepsInv(c, run, i);
    FinishedIsResolved(c, run[i]);
  }

  lemma FinishedIsResolved(c: Setup, s: State)
    requires OnlyConfigured(c, s) && AllFinished(s) && !SomeError(s)
    requires forall n | n in c.cfgs :: LocalInv(c, s, n)
    ensures Resolved(c, s)
  {
    forall n | n in c.cfgs
      ensures Reported(c, s, n) && n in s.servers && s.servers[n] == RecordedRoutes(c)[n] && !IsFatal(c, n)
    {
      assert LocalInv(c, s, n) && s.pc[n].Finished?;
    }
    assert s.servers == RecordedRoutes(c);
    FinishedStates(c, s);
    FinishedRoutes(c, s);
  }

  /** A parallel boot that got ready and the manager after booting the same config one server at a time agree. */
  lemma ParallelIsSequential(c: Setup, s: State, w: World)
    requires Resolved(c, s) && Agreed(c.env, w) && Converged(c.env, c.dial, c.cfgs, w)
    ensures s.states == w.states && PROBES + s.routes.Keys == w.routes.Keys && s.servers.Keys == w.servers.Keys
    ensures forall n | n in s.servers :: s.servers[n] == w.servers[n].route
  {
    assert ConfigsOf(w).Keys == w.servers.Keys;
    forall n | n in s.servers ensures s.servers[n] == w.servers[n].route {
      assert EntryOk(c.env, w, n);
    }
  }

  lemma FinishedStates(c: Setup, s: State)
    requires s.states.Keys <= c.cfgs.Keys && forall n | n in c.cfgs :: Reported(c, s, n)
    ensures s.states == StatesOf(c.env, c.dial, c.cfgs)
  {
  }

  lemma FinishedRoutes(c: Setup, s: State)
    requires OnlyConfigured(c, s) && forall n | n in c.cfgs :: Reported(c, s, n)
    ensures PROBES + s.routes.Keys == PatternsOf(c.env, c.dial, c.cfgs)
  {
    forall p ensures p in PROBES + s.routes.Keys <==> p in PatternsOf(c.env, c.dial, c.cfgs) {
      if p in s.routes {
        var n := s.routes[p];
        assert Reported(c, s, n);
      }
      if p in PatternsOf(c.env, c.dial, c.cfgs) && p !in PROBES {
        var n :| n in c.cfgs && StateFor(c.env, c.dial, n, c.cfgs[n]).status == Connected && RouteOf(c.env, n) == p;
        assert Reported(c, s, n);
      }
    }
  }

  /** A socket-activated server has accepted nothing until then. */
  lemma ActivatedAcceptsWhenResolved(c: Setup, run: seq<State>, i: nat)
    requires SimpleNames(c.cfgs) && IsRun(c, run) && i < |run| && c.activated && run[i].accepted > 0
    ensures run[i].ready && Resolved(c, run[i])
  {
    RunKeepsInv(c, run, i);
    ReadyMeansResolved(c, run, i);
  }

  /** The wait ends in an error exactly when some enabled eager server that must be valid failed to connect. */
  lemma BootFailsIff(c: Setup, run: seq<State>, i: nat)
    requires SimpleNames(c.cfgs) && IsRun(c, run) && i < |run| && run[i].main != Waiting
    ensures run[i].main == Aborted <==> exists n | n in c.cfgs :: IsFatal(c, n)
  {
    var s := run[i];
    RunKeepsInv(c, run, i);
    forall n | n in c.cfgs ensures n in s.pc && s.pc[n].Finished? && (s.pc[n].err.Some? <==> IsFatal(c, n)) {
      assert LocalInv(c, s, n);
    }
  }

  /** The start never gets stuck: until the gate is open or the process has exited, a goroutine of the boot can move. */
  lemma BootNeverStuck(c: Setup, run: seq<State>, i: nat) returns (a: Action)
    requires SimpleNames(c.cfgs) && IsRun(c, run) && i < |run| && run[i].main !in {Aborted, Watching}
    ensures Enabled(c, run[i], a) && (a.Add? || a.Wait? || a.SignalReady? || a.CloseReady?)
  {
    RunKeepsInv(c, run, i);
    var s := run[i];
    if s.main == Waiting && !AllFinished(s) {
      var n :| n in s.pc && !s.pc[n].Finished?;
      a := Add(n);
    } else {
      a := if s.main == Waiting then Wait else if s.main == Signalling then SignalReady else CloseReady;
    }
  }

  /** How many steps a goroutine has left at most. */
  function StepsLeft(pc: Pc): nat {
    match pc
    case Starting => 5
    case Dialing => 4
    case Mounting => 3
    case Reporting(_) => 2
    case Storing(_) => 1
    case Finished(_) => 0
  }

  /** Every step of a goroutine brings it nearer to its end and leaves the others where they are, so the boot ends. */
  lemma AddProgresses(c: Setup, s: State, n: string)
    requires Enabled(c, s, Add(n))
    ensures var t := Apply(c, s, Add(n), true);
            && t.pc.Keys == s.pc.Keys && StepsLeft(t.pc[n]) < StepsLeft(s.pc[n])
            && forall m | m in s.pc && m != n :: t.pc[m] == s.pc[m]
  {
  }

  /** A server that binds its own socket serves from the start; an activated one as soon as the gate is open. */
  lemma ServerServes(c: Setup, s: State)
    ensures !c.activated ==> Init(c).server == Serving
    ensures s.main != Aborted && s.readyClosed && s.server == Held ==>
              Enabled(c, s, ServerGoes) && Apply(c, s, ServerGoes, true).server == Serving
    ensures s.main != Aborted && s.server == Serving ==>
              Enabled(c, s, Accept) && Apply(c, s, Accept, true).accepted == s.accepted + 1
  {
  }
}
