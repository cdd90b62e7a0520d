/**
 The machine's statement sequences, met by no other goroutine, compute what the methods of
 UpstreamObject promise.
 */
module LifecycleRefinement {
  import opened Prelude
  import opened UpstreamCore
  import opened Lifecycle
  import opened LifecycleInvariant
  import opened LifecycleProof

  /** What the object will be when the teardown in progress has finished undisturbed. */
  function Outcome(c: Core, at: TearPc): Core {
    match at
    case AtCancel => TornDown(c)
    case AtFlag => Closed(BumpGen(c.(connected := false)))
    case AtBump => Closed(BumpGen(c))
    case AtLock | AtTmpl | AtLoop => Closed(c)
    case AtDrop(id) => Closed(DropSession(c, id))
    case AtUnlock => c
  }

  predicate IsTeardownStep(a: Action) {
    match a
    case Monitor(m) => m.TearCancel? || m.TearFlag? || m.TearBump?
    case Close(k) => !k.TearUnlock?
    case _ => false
  }

  lemma ValuesWithout(m: map<ClientId, Conn>, id: ClientId)
    requires id in m && Injective(m)
    ensures m.Values == (m - {id}).Values + {m[id]} && m[id] !in (m - {id}).Values
  {
    var rest := m - {id};
    forall v | v in m.Values ensures v in rest.Values + {m[id]} {
      var k :| k in m && m[k] == v;
      assert k != id ==> k in rest && rest[k] == v;
    }
  }

  lemma BagWithout(vs: set<Conn>, rest: set<Conn>, v: Conn)
    requires vs == rest + {v} && v !in rest
    ensures multiset(vs) == multiset{v} + multiset(rest)
  {
  }

  /** Closing one more stored connection and deleting its entry does not change what closing everything does. */
  lemma CloseOneEntry(c: Core, id: ClientId)
    requires id in c.sessions && Injective(c.sessions) && c.tmpl.None?
    ensures Closed(DropSession(CloseConn(c, c.sessions[id]), id)) == Closed(c)
  {
    ValuesWithout(c.sessions, id);
    BagWithout(c.sessions.Values, (c.sessions - {id}).Values, c.sessions[id]);
  }

  lemma CloseTemplateFirst(c: Core)
    ensures Closed(CloseTemplate(c)) == Closed(c)
  {
  }

  lemma CloseNothing(c: Core)
    requires c.sessions == map[] && c.tmpl.None?
    ensures Closed(c) == c
  {
    assert c.sessions.Values == {};
  }

  /** The statement left the outcome of the teardown as it was. */
  predicate SameOutcome(s: State, n: State) {
    s.connLock.Tearing? && n.connLock.Tearing?
    && Outcome(n.core, n.connLock.at) == Outcome(s.core, s.connLock.at)
  }

  lemma BumpRefines(s: State, a: MonitorAct)
    requires MonitorEnabled(s, a) && (a.TearCancel? || a.TearFlag? || a.TearBump?)
    ensures SameOutcome(s, MonitorStep(s, a))
  {
  }

  lemma MuRefines(s: State, a: CloseAct)
    requires CloseEnabled(s, a) && (a.TearMu? || a.TearDrop?)
    ensures SameOutcome(s, CloseStep(s, a))
  {
  }

  lemma TmplRefines(s: State)
    requires CloseEnabled(s, TearTmpl) && s.core.tmpl.Some?
    ensures SameOutcome(s, DoTearTmpl(s))
  {
    CloseTemplateFirst(s.core);
  }

  lemma CloseRefines(s: State, id: ClientId)
    requires CloseEnabled(s, TearClose(id)) && s.core.tmpl.None? && Injective(s.core.sessions)
    ensures SameOutcome(s, DoTearClose(s, id))
  {
    CloseOneEntry(s.core, id);
  }

  lemma MuDoneRefines(s: State)
    requires CloseEnabled(s, TearMuDone) && s.core.tmpl.None?
    ensures SameOutcome(s, CloseStep(s, TearMuDone))
  {
    CloseNothing(s.core);
  }

  /** Every statement of a teardown leaves its outcome as it was, in whatever order the map is visited. */
  lemma TeardownStepRefines(s: State, a: Action)
    requires Inv(s) && Enabled(s, a) && IsTeardownStep(a)
    ensures SameOutcome(s, Apply(s, a))
  {
    match a
    case Monitor(m) => BumpRefines(s, m);
    case Close(TearTmpl) => TemplateIsOpen(s); TmplRefines(s);
    case Close(TearClose(id)) => LoopIsInjective(s); CloseRefines(s, id);
    case Close(TearMuDone) => LoopIsInjective(s); MuDoneRefines(s);
    case Close(k) => MuRefines(s, k);
  }

  lemma LoopIsInjective(s: State)
    requires Inv(s) && s.connLock.Tearing? && s.connLock.at == AtLoop
    ensures s.core.tmpl.None? && Injective(s.core.sessions)
  {
  }

  /**
   From the moment a teardown holds `connMu`, if no other goroutine moves, its statements turn the
   upstream into what the method Teardown promises.
  */
  lemma {:induction false} TeardownRefines(tr: seq<State>, acts: seq<Action>, i: nat, j: nat)
    requires IsRun(tr, acts) && i <= j < |tr|
    requires tr[i].connLock.Tearing? && tr[i].connLock.at == AtCancel
    requires forall k | i <= k < j :: StepAt(tr, acts, k) && IsTeardownStep(acts[k])
    ensures tr[j].connLock.Tearing? && Outcome(tr[j].core, tr[j].connLock.at) == TornDown(tr[i].core)
    ensures tr[j].connLock.at == AtUnlock ==> tr[j].core == TornDown(tr[i].core)
  {
    if i < j {
      TeardownRefines(tr, acts, i, j - 1);
      var s := tr[j - 1];
      assert StepAt(tr, acts, j - 1);
      RunKeepsInv(tr, acts, j - 1);
      TeardownStepRefines(s, acts[j - 1]);
    }
  }

  /** The three statements of a commit, taken without interruption, do what the method CommitSession promises. */
  lemma CommitRefines(s: State, t: Thread)
    requires RequestEnabled(s, CommitLock(t))
    ensures var q := s.reqs[t];
            var locked := RequestStep(s, CommitLock(t));
            RequestEnabled(locked, CommitCheck(t)) &&
            var checked := RequestStep(locked, CommitCheck(t));
            if s.core.gen != q.gen then
              checked.core == CloseConn(s.core, q.conn) && checked.reqs[t] == WantsTemplate(q.id)
            else
              RequestEnabled(checked, CommitStore(t)) &&
              var stored := RequestStep(checked, CommitStore(t));
              if q.id in s.core.sessions then
                stored.core == CloseConn(s.core, q.conn)
                  && stored.reqs[t] == Answered(q.id, Some(s.core.sessions[q.id]))
              else
                stored.core == s.core.(sessions := s.core.sessions[q.id := q.conn])
                  && stored.reqs[t] == Answered(q.id, Some(q.conn))
  {
  }

  /**
   The statements of an on-demand connect, taken without interruption, do what the method
   EnsureConnected promises.
  */
  lemma ConnectRefines(s: State, ctx: Ctx, c: Conn)
    requires Inv(s) && ConnectEnabled(s, StartConnect(ctx)) && s.muLock == MuFree && c !in s.dialed
    ensures var started := ConnectStep(s, StartConnect(ctx));
            && ConnectEnabled(started, ConnectFail)
            && ConnectStep(started, ConnectFail).core == s.core.(cancelled := s.core.cancelled + {ctx})
            && ConnectEnabled(started, ConnectDialed(c)) &&
            var dialed := ConnectStep(started, ConnectDialed(c));
            ConnectEnabled(dialed, PublishTemplate) &&
            var published := ConnectStep(dialed, PublishTemplate);
            ConnectEnabled(published, Arm) &&
            var armed := ConnectStep(published, Arm);
            && armed.connLock == ConnFree && armed.core == MarkConnected(Publish(s.core, ctx, c), ctx)
            && armed.monitors == map[s.connects := Armed(ctx)]
  {
  }

  /** What will be closed when the reaper has worked off its list. */
  function Reaped(c: Core, dead: set<Conn>): Core {
    c.(closes := c.closes + multiset(dead))
  }

  lemma ReapCloseRefines(s: State, r: Thread, c: Conn)
    requires ReapEnabled(s, ReapClose(r, c))
    ensures var n := DoReapClose(s, r, c);
            r in n.reapers && n.reapers[r].Closing?
              && Reaped(n.core, n.reapers[r].dead) == Reaped(s.core, s.reapers[r].dead)
  {
    BagWithout(s.reapers[r].dead, s.reapers[r].dead - {c}, c);
  }

  ghost predicate ClosesAt(tr: seq<State>, acts: seq<Action>, k: int, r: Thread) {
    StepAt(tr, acts, k) && acts[k].Reap? && acts[k].p.ReapClose? && acts[k].p.r == r
  }

  /**
   From the moment a reaper collects, if no other goroutine moves, its statements turn the upstream
   into what the method ReapDeadSessions promises, in whatever order it closes.
  */
  lemma {:induction false} ReapRefines(tr: seq<State>, acts: seq<Action>, i: nat, j: nat, r: Thread)
    requires IsRun(tr, acts) && i < j < |tr| && StepAt(tr, acts, i) && acts[i] == Reap(ReapCollect(r))
    requires forall k | i < k < j :: ClosesAt(tr, acts, k, r)
    ensures var c, live := tr[i].core, tr[i].reapers[r].live;
            && r in tr[j].reapers && tr[j].reapers[r].Closing?
            && Reaped(tr[j].core, tr[j].reapers[r].dead)
               == Reaped(c.(sessions := Surviving(c.sessions, live)), Orphaned(c.sessions, live))
            && (tr[j].reapers[r].dead == {} ==>
                  tr[j].core == Reaped(c.(sessions := Surviving(c.sessions, live)), Orphaned(c.sessions, live)))
  {
    if i + 1 < j {
      ReapRefines(tr, acts, i, j - 1, r);
      assert ClosesAt(tr, acts, j - 1, r);
      ReapCloseRefines(tr[j - 1], r, acts[j - 1].p.c);
    }
  }

  // ---- what a request comes to ----

  /**
   The first call of a client, met by no other goroutine: it dials under the published context, and is
   answered with the session it has opened, which is then stored for it.
  */
  lemma FirstCallDials(s: State, t: Thread, id: ClientId, c: Conn)
    requires s.perSession && s.muLock == MuFree && t !in s.reqs && c !in s.dialed
    requires s.core.baseCtx.Some? && s.core.baseCtx.value !in s.core.cancelled && id !in s.core.sessions
    ensures RequestEnabled(s, Begin(t, id)) &&
            var s1 := RequestStep(s, Begin(t, id));
            RequestEnabled(s1, LoadGen(t)) &&
            var s2 := RequestStep(s1, LoadGen(t));
            RequestEnabled(s2, StartDial(t)) &&
            var s3 := RequestStep(s2, StartDial(t));
            RequestEnabled(s3, DialOk(t, c)) &&
            var s4 := RequestStep(s3, DialOk(t, c));
            RequestEnabled(s4, CommitLock(t)) &&
            var s5 := RequestStep(s4, CommitLock(t));
            RequestEnabled(s5, CommitCheck(t)) &&
            var s6 := RequestStep(s5, CommitCheck(t));
            RequestEnabled(s6, CommitStore(t)) &&
            var s7 := RequestStep(s6, CommitStore(t));
            && s7.reqs == s.reqs[t := Answered(id, Some(c))] && s7.muLock == MuFree
            && s7.core == s.core.(sessions := s.core.sessions[id := c])
            && s7.dialed == s.dialed[c := Dial(Client(id), s.core.baseCtx.value, s.core.gen, s.core.gen)]
  {
  }

  /** The first call of a client whose dial fails is answered with the template. */
  lemma FailedDialFallsBack(s: State, t: Thread, id: ClientId)
    requires s.perSession && s.muLock == MuFree && t !in s.reqs && id !in s.core.sessions
    requires s.core.baseCtx.Some? && s.core.baseCtx.value !in s.core.cancelled
    ensures RequestEnabled(s, Begin(t, id)) &&
            var s1 := RequestStep(s, Begin(t, id));
            RequestEnabled(s1, LoadGen(t)) &&
            var s2 := RequestStep(s1, LoadGen(t));
            RequestEnabled(s2, StartDial(t)) &&
            var s3 := RequestStep(s2, StartDial(t));
            RequestEnabled(s3, DialFail(t)) &&
            var s4 := RequestStep(s3, DialFail(t));
            RequestEnabled(s4, ReadTemplate(t)) &&
            var s5 := RequestStep(s4, ReadTemplate(t));
            s5 == s.(reqs := s.reqs[t := Answered(id, s.core.tmpl)])
  {
  }

  /** Without a live context there is nothing to dial under: the dial fails at once, and the template is the answer. */
  lemma NoContextFallsBack(s: State, t: Thread, id: ClientId)
    requires s.perSession && s.muLock == MuFree && t !in s.reqs && id !in s.core.sessions
    requires s.core.baseCtx.None? || s.core.baseCtx.value in s.core.cancelled
    ensures RequestEnabled(s, Begin(t, id)) &&
            var s1 := RequestStep(s, Begin(t, id));
            RequestEnabled(s1, LoadGen(t)) &&
            var s2 := RequestStep(s1, LoadGen(t));
            RequestEnabled(s2, StartDial(t)) &&
            var s3 := RequestStep(s2, StartDial(t));
            RequestEnabled(s3, ReadTemplate(t)) &&
            var s4 := RequestStep(s3, ReadTemplate(t));
            s4 == s.(reqs := s.reqs[t := Answered(id, s.core.tmpl)])
  {
  }

  /** In shared mode every call is answered with the template, without a dial. */
  lemma SharedModeUsesTemplate(s: State, t: Thread, id: ClientId)
    requires !s.perSession && s.muLock == MuFree && t !in s.reqs
    ensures RequestEnabled(s, Begin(t, id)) &&
            var s1 := RequestStep(s, Begin(t, id));
            RequestEnabled(s1, ReadTemplate(t)) &&
            var s2 := RequestStep(s1, ReadTemplate(t));
            s2 == s.(reqs := s.reqs[t := Answered(id, s.core.tmpl)])
  {
  }

  /** A client with a stored session is answered with it at once. */
  lemma LaterCallsReuse(s: State, t: Thread, id: ClientId)
    requires s.perSession && s.muLock == MuFree && t !in s.reqs && id in s.core.sessions
    ensures RequestEnabled(s, Begin(t, id))
    ensures RequestStep(s, Begin(t, id)) == s.(reqs := s.reqs[t := Answered(id, Some(s.core.sessions[id]))])
  {
  }

  // ---- what an idle monitor comes to ----

  /** The run `tr` takes the actions from its first state; the goroutine in teardown alone moves. */
  ghost predicate TearsDown(tr: seq<State>, acts: seq<Action>) {
    && |tr| == |acts| + 1
    && forall i | 0 <= i < |acts| :: StepAt(tr, acts, i) && IsTeardownStep(acts[i])
  }

  predicate AtItsEnd(s: State, n: State)
    requires s.connLock.Tearing?
  {
    n.connLock == s.connLock.(at := AtUnlock) && n.muLock == MuFree && n.monitors == s.monitors
  }

  /** From its last three statements but with sessions to close, `close()` finishes. */
  lemma {:induction false} CloseFinishes(s: State) returns (tr: seq<State>, acts: seq<Action>)
    requires s.connLock.Tearing? && s.connLock.at == AtLoop
    ensures TearsDown(tr, acts) && tr[0] == s
    ensures AtItsEnd(s, tr[|acts|])
    decreases |s.core.sessions|
  {
    if s.core.sessions == map[] {
      acts := [Close(TearMuDone)];
      tr := [s, Apply(s, acts[0])];
    } else {
      var id :| id in s.core.sessions;
      var s1, s2 := CloseOne(s, id);
      tr, acts := CloseFinishes(s2);
      tr, acts := Prepend(s1, Close(TearDrop), tr, acts);
      tr, acts := Prepend(s, Close(TearClose(id)), tr, acts);
    }
  }

  lemma CloseOne(s: State, id: ClientId) returns (s1: State, s2: State)
    requires s.connLock.Tearing? && s.connLock.at == AtLoop && id in s.core.sessions
    ensures Enabled(s, Close(TearClose(id))) && s1 == Apply(s, Close(TearClose(id)))
    ensures Enabled(s1, Close(TearDrop)) && s2 == Apply(s1, Close(TearDrop))
    ensures s2.connLock == s.connLock && s2.monitors == s.monitors && |s2.core.sessions| < |s.core.sessions|
  {
    s1 := Apply(s, Close(TearClose(id)));
    s2 := Apply(s1, Close(TearDrop));
    assert s2.core.sessions == s.core.sessions - {id};
    assert s.core.sessions.Keys == s2.core.sessions.Keys + {id};
  }

  lemma Prepend(s: State, a: Action, tr: seq<State>, acts: seq<Action>) returns (tr2: seq<State>, acts2: seq<Action>)
    requires TearsDown(tr, acts) && Enabled(s, a) && IsTeardownStep(a) && tr[0] == Apply(s, a)
    ensures TearsDown(tr2, acts2) && tr2 == [s] + tr && acts2 == [a] + acts
  {
    tr2, acts2 := [s] + tr, [a] + acts;
    forall i | 0 <= i < |acts2| ensures StepAt(tr2, acts2, i) && IsTeardownStep(acts2[i]) {
      if i > 0 {
        assert StepAt(tr, acts, i - 1);
      }
    }
  }

  lemma LockOne(s: State) returns (s1: State, s2: State)
    requires s.connLock.Tearing? && s.connLock.at == AtLock && s.muLock == MuFree
    ensures Enabled(s, Close(TearMu)) && s1 == Apply(s, Close(TearMu))
    ensures Enabled(s1, Close(TearTmpl)) && s2 == Apply(s1, Close(TearTmpl))
    ensures s2.connLock == s.connLock.(at := AtLoop) && s2.monitors == s.monitors
  {
    s1 := Apply(s, Close(TearMu));
    s2 := Apply(s1, Close(TearTmpl));
  }

  lemma LockedFinishes(s: State) returns (tr: seq<State>, acts: seq<Action>)
    requires s.connLock.Tearing? && s.connLock.at == AtLock && s.muLock == MuFree
    ensures TearsDown(tr, acts) && tr[0] == s && AtItsEnd(s, tr[|acts|])
  {
    var s1, s2 := LockOne(s);
    tr, acts := CloseFinishes(s2);
    tr, acts := Prepend(s1, Close(TearTmpl), tr, acts);
    tr, acts := Prepend(s, Close(TearMu), tr, acts);
  }

  /** A teardown that holds `connMu`, met by no other goroutine, gets to its end, and the upstream is down. */
  lemma TeardownFinishes(s: State) returns (tr: seq<State>, acts: seq<Action>)
    requires Inv(s) && s.connLock.Tearing? && s.connLock.at == AtCancel && s.muLock == MuFree
    ensures TearsDown(tr, acts) && tr[0] == s && AtItsEnd(s, tr[|acts|])
    ensures tr[|acts|].core == TornDown(s.core)
  {
    tr, acts := CancelledFinishes(s);
    var keeps := (n: State) => Inv(n);
    forall n, a | keeps(n) && Enabled(n, a) && IsTeardownStep(a) ensures keeps(Apply(n, a))
      && SameOutcome(n, Apply(n, a)) {
      TearStepKeeps(n, a, Apply(n, a));
    }
    OutcomeKept(tr, acts, |acts|, keeps);
  }

  lemma CancelledFinishes(s: State) returns (tr: seq<State>, acts: seq<Action>)
    requires s.connLock.Tearing? && s.connLock.at == AtCancel && s.muLock == MuFree
    ensures TearsDown(tr, acts) && tr[0] == s && AtItsEnd(s, tr[|acts|])
  {
    var s1 := Apply(s, Monitor(TearCancel));
    var s2 := Apply(s1, Monitor(TearFlag));
    var s3 := Apply(s2, Monitor(TearBump));
    tr, acts := LockedFinishes(s3);
    tr, acts := Prepend(s2, Monitor(TearBump), tr, acts);
    tr, acts := Prepend(s1, Monitor(TearFlag), tr, acts);
    tr, acts := Prepend(s, Monitor(TearCancel), tr, acts);
  }

  lemma {:induction false} OutcomeKept(tr: seq<State>, acts: seq<Action>, i: nat, keeps: State -> bool)
    requires TearsDown(tr, acts) && i <= |acts| && keeps(tr[0]) && tr[0].connLock.Tearing?
    requires forall s, a | keeps(s) && Enabled(s, a) && IsTeardownStep(a) ::
               keeps(Apply(s, a)) && SameOutcome(s, Apply(s, a))
    ensures keeps(tr[i]) && SameOutcome(tr[0], tr[i])
  {
    if i > 0 {
      OutcomeKept(tr, acts, i - 1, keeps);
      assert StepAt(tr, acts, i - 1);
    }
  }

  lemma TearStepKeeps(s: State, a: Action, n: State)
    requires Inv(s) && Enabled(s, a) && IsTeardownStep(a) && n == Apply(s, a)
    ensures Inv(n) && SameOutcome(s, n)
  {
    StepKeeps(s, a);
    TeardownStepRefines(s, a);
  }

  /** A monitor that decides to fire, and its return from a finished teardown: the backend it was armed for is down. */
  lemma FiredMonitorTakesOver(s: State, m: Thread)
    requires Inv(s) && s.connLock == ConnFree && s.core.connected && m in s.monitors && s.monitors[m].Armed?
    ensures MonitorEnabled(s, Fire(m)) &&
            var s1 := MonitorStep(s, Fire(m));
            MonitorEnabled(s1, TearLock(m)) &&
            var s2 := MonitorStep(s1, TearLock(m));
            s2.connLock == Tearing(m, AtCancel) && s2.core == s.core && s2.muLock == s.muLock
  {
  }

  lemma ReturnUnlocks(s: State)
    requires s.connLock.Tearing? && s.connLock.at == AtUnlock
    ensures CloseEnabled(s, TearUnlock) &&
            var n := CloseStep(s, TearUnlock);
            n.connLock == ConnFree && n.core == s.core && n.monitors == s.monitors - {s.connLock.monitor}
  {
  }
}
