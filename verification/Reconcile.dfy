/** What a reload does to the state of the manager, on values: which entries it keeps, and where it ends. */
module Reconcile {
  import opened Prelude
  import opened Router
  import opened Routes
  import opened Readiness
  import opened ManagerWorld

  type Configs = map<string, Cfg>

  predicate SimpleNames(cfgs: Configs) {
    forall n | n in cfgs :: Simple(n)
  }

  function ConfigsOf(w: World): Configs {
    map n | n in w.servers :: w.servers[n].cfg
  }

  /** Aborts startup: an eager server that demands to be valid and does not connect. */
  predicate Fatal(env: Env, dial: Dialer, name: string, cfg: Cfg) {
    !IsDisabled(cfg) && !IsLazy(env, cfg) && dial(name, cfg).Some? && cfg.options.panicIfInvalid == Some(true)
  }

  // ---- where a boot or a reload ends ----

  /** The states of a set of servers when the outcome of a connect is a function of the config. */
  function StatesOf(env: Env, dial: Dialer, cfgs: Configs): map<string, UpstreamState> {
    map n | n in cfgs :: StateFor(env, dial, n, cfgs[n])
  }

  /** The patterns mounted for a set of servers: the probes, and one route for each connected server. */
  function PatternsOf(env: Env, dial: Dialer, cfgs: Configs): set<string> {
    PROBES + set n | n in cfgs && StateFor(env, dial, n, cfgs[n]).status == Connected :: RouteOf(env, n)
  }

  ghost predicate Converged(env: Env, dial: Dialer, cfgs: Configs, w: World) {
    && ConfigsOf(w) == cfgs
    && w.states == StatesOf(env, dial, cfgs)
    && w.routes.Keys == PatternsOf(env, dial, cfgs)
  }

  lemma StatesDecidePatterns(env: Env, dial: Dialer, cfgs: Configs, w: World)
    requires Agreed(env, w) && ConfigsOf(w) == cfgs && w.states == StatesOf(env, dial, cfgs)
    ensures Converged(env, dial, cfgs, w)
  {
    forall p ensures p in w.routes <==> p in PatternsOf(env, dial, cfgs) {
      if p in w.routes && p !in PROBES {
        assert PatternOk(env, w, p);
        var n :| n in w.servers && w.servers[n].route == p != "";
        assert EntryOk(env, w, n);
        assert n in cfgs;
      }
      if p in PatternsOf(env, dial, cfgs) && p !in PROBES {
        var n :| n in cfgs && StateFor(env, dial, n, cfgs[n]).status == Connected && RouteOf(env, n) == p;
        assert EntryOk(env, w, n);
      }
    }
  }

  /** While the servers of a config are added; `todo` are those not added yet. */
  ghost predicate Booting(env: Env, dial: Dialer, cfgs: Configs, w: World, todo: set<string>) {
    && todo <= cfgs.Keys && Agreed(env, w)
    && (forall n :: n in w.servers <==> n in cfgs && n !in todo)
    && forall n | n in w.servers && n in w.states && n in cfgs ::
         w.servers[n].cfg == cfgs[n] && w.states[n] == StateFor(env, dial, n, cfgs[n])
  }

  lemma BootStep(env: Env, dial: Dialer, cfgs: Configs, w: World, todo: set<string>, name: string)
    requires Booting(env, dial, cfgs, w, todo) && name in todo && SimpleNames(cfgs)
    ensures var v := Added(env, w, name, cfgs[name], StateFor(env, dial, name, cfgs[name]));
            Booting(env, dial, cfgs, v, todo - {name})
  {
    AddedAgrees(env, w, name, cfgs[name], StateFor(env, dial, name, cfgs[name]));
    assert w.states.Keys == w.servers.Keys;
  }

  lemma BootDone(env: Env, dial: Dialer, cfgs: Configs, w: World)
    requires Booting(env, dial, cfgs, w, {})
    ensures Converged(env, dial, cfgs, w)
  {
    assert w.states.Keys == w.servers.Keys == cfgs.Keys;
    forall n | n in cfgs ensures w.servers[n].cfg == cfgs[n] && w.states[n] == StateFor(env, dial, n, cfgs[n]) {
      assert n in w.servers && n in w.states;
    }
    StatesDecidePatterns(env, dial, cfgs, w);
  }

  // ---- one entry across a step ----

  predicate SameEntry(w0: World, w: World, n: string) {
    && (n in w.servers <==> n in w0.servers) && (n in w0.servers ==> w.servers[n] == w0.servers[n])
    && (n in w.states <==> n in w0.states) && (n in w0.states ==> w.states[n] == w0.states[n])
  }

  /** Records, states and patterns differ only where they belong to one name. */
  ghost predicate SameElsewhere(env: Env, w0: World, w: World, name: string) {
    && (forall n | n != name :: SameEntry(w0, w, n))
    && (forall p | p != RouteOf(env, name) ::
        (p in w.routes <==> p in w0.routes) && (p in w0.routes ==> w.routes[p] == w0.routes[p]))
  }

  /** Nothing stops running but what the name had started. */
  predicate StopsOnly(w0: World, w1: World, w: World, name: string) {
    forall id | id in w1.live :: id in w.live || (name in w0.servers && w0.servers[name].id == id)
  }

  /** Between the two states only what belongs to one name has changed. */
  ghost predicate Touches(env: Env, w0: World, w: World, name: string) {
    SameElsewhere(env, w0, w, name) && StopsOnly(w0, w0, w, name)
  }

  lemma TouchesOn(env: Env, w0: World, w1: World, w: World, name: string)
    requires Touches(env, w0, w1, name) && SameElsewhere(env, w1, w, name) && StopsOnly(w0, w1, w, name)
    ensures Touches(env, w0, w, name)
  {
    forall n | n != name ensures SameEntry(w0, w, n) {
      assert SameEntry(w0, w1, n) && SameEntry(w1, w, n);
    }
  }

  lemma RouteTouched(env: Env, w0: World, w1: World, name: string, h: Handler)
    requires Touches(env, w0, w1, name)
    ensures Touches(env, w0, w1.(routes := w1.routes[RouteOf(env, name) := h]), name)
    ensures Touches(env, w0, w1.(routes := w1.routes - {RouteOf(env, name)}), name)
  {
    TouchesOn(env, w0, w1, w1.(routes := w1.routes[RouteOf(env, name) := h]), name);
    TouchesOn(env, w0, w1, w1.(routes := w1.routes - {RouteOf(env, name)}), name);
  }

  /** What a reload owes a server whose config is unchanged: its record, state, upstream and mounted handler. */
  ghost predicate Keeps(env: Env, w0: World, w: World, n: string)
    requires n in w0.servers && n in w0.states
  {
    && SameEntry(w0, w, n)
    && OnlyRoutes(w.routes, env.basePath, env.streamable)
    && (w0.servers[n].route != "" ==>
          w0.servers[n].id in w.live && RouteOf(env, n) in w.routes && w.routes[RouteOf(env, n)] == w0.servers[n].id)
  }

  lemma KeepsItself(env: Env, w: World, n: string)
    requires Agreed(env, w) && n in w.servers
    ensures n in w.states && Keeps(env, w, w, n)
  {
    assert EntryOk(env, w, n);
    AgreedPatterns(env, w);
  }

  lemma TouchedTable(env: Env, w0: World, w: World, name: string)
    requires OnlyRoutes(w0.routes, env.basePath, env.streamable) && Simple(name) && Touches(env, w0, w, name)
    ensures OnlyRoutes(w.routes, env.basePath, env.streamable)
  {
    forall p | p in w.routes && p !in PROBES
      ensures exists n :: Simple(n) && p == RouteForServer(env.basePath, n, env.streamable)
    {
      if p == RouteOf(env, name) {
        assert p == RouteForServer(env.basePath, name, env.streamable);
      } else {
        assert p in w0.routes;
      }
    }
  }

  /** Adding, removing or re-registering another server keeps this one. */
  lemma KeepsOn(env: Env, w0: World, w1: World, w: World, name: string, n: string)
    requires Agreed(env, w0) && n in w0.servers && n in w0.states
    requires Keeps(env, w0, w1, n) && Agreed(env, w1) && Touches(env, w1, w, name) && Simple(name) && n != name
    ensures Keeps(env, w0, w, n)
  {
    TouchedTable(env, w1, w, name);
    assert SameEntry(w1, w, n);
    assert EntryOk(env, w0, n);
    RoutesDiffer(env, name, n);
    if w0.servers[n].route != "" && name in w1.servers {
      assert w1.servers[name].id != w1.servers[n].id;
    }
  }

  lemma KeepsMeansUndisturbed(env: Env, w0: World, w: World, n: string)
    requires Agreed(env, w0) && n in w0.servers && n in w0.states && Keeps(env, w0, w, n)
    ensures Undisturbed(env, w0, w, n)
  {
    assert EntryOk(env, w0, n);
    StaysUndisturbed(env, w0, w, n);
  }

  // ---- one entry across a reload ----

  /** The entry is in both configs, deep-equal. */
  predicate Unchanged(w0: World, cfgs: Configs, n: string) {
    n in w0.servers && n in cfgs && w0.servers[n].cfg == cfgs[n]
  }

  /** What the finished reload has made of one name: gone, the very same record, or a new one. */
  predicate Done(env: Env, dial: Dialer, cfgs: Configs, w0: World, w: World, n: string) {
    if n !in cfgs then n !in w.servers
    else if Unchanged(w0, cfgs, n) then SameEntry(w0, w, n)
    else
      && n in w.servers && n in w.states
      && w.servers[n].cfg == cfgs[n] && w.servers[n].id >= w0.nextId
      && w.states[n] == StateFor(env, dial, n, cfgs[n])
  }

  /** While the entries gone from the config are removed; `todo` are those not looked at yet. */
  ghost predicate Pruning(cfgs: Configs, w0: World, w: World, todo: set<string>) {
    forall n :: if n in todo || n in cfgs then SameEntry(w0, w, n) else n !in w.servers
  }

  lemma PruneStep(env: Env, cfgs: Configs, w0: World, w1: World, w: World, todo: set<string>, name: string)
    requires Pruning(cfgs, w0, w1, todo) && name in todo
    requires if name in cfgs then w == w1 else name !in w.servers && SameElsewhere(env, w1, w, name)
    ensures Pruning(cfgs, w0, w, todo - {name})
  {
    forall n ensures if n in todo - {name} || n in cfgs then SameEntry(w0, w, n) else n !in w.servers {
      assert if n in todo || n in cfgs then SameEntry(w0, w1, n) else n !in w1.servers;
      if n != name && name !in cfgs { assert SameEntry(w1, w, n); }
    }
  }

  /** While the entries of the config are added; `todo` are those not looked at yet. */
  ghost predicate Merging(env: Env, dial: Dialer, cfgs: Configs, w0: World, w: World, todo: set<string>) {
    todo <= cfgs.Keys && forall n :: if n in todo then SameEntry(w0, w, n) else Done(env, dial, cfgs, w0, w, n)
  }

  lemma MergeStarts(env: Env, dial: Dialer, cfgs: Configs, w0: World, w: World)
    requires Pruning(cfgs, w0, w, {})
    ensures Merging(env, dial, cfgs, w0, w, cfgs.Keys)
  {
    forall n ensures if n in cfgs then SameEntry(w0, w, n) else Done(env, dial, cfgs, w0, w, n) {
      assert if n in cfgs then SameEntry(w0, w, n) else n !in w.servers;
    }
  }

  lemma MergeStep(env: Env, dial: Dialer, cfgs: Configs, w0: World, w1: World, w: World, todo: set<string>,
                  name: string)
    requires Merging(env, dial, cfgs, w0, w1, todo) && name in todo
    requires w == w1 || SameElsewhere(env, w1, w, name)
    requires Done(env, dial, cfgs, w0, w, name)
    ensures Merging(env, dial, cfgs, w0, w, todo - {name})
  {
    forall n ensures if n in todo - {name} then SameEntry(w0, w, n) else Done(env, dial, cfgs, w0, w, n) {
      assert if n in todo then SameEntry(w0, w1, n) else Done(env, dial, cfgs, w0, w1, n);
      if n != name { assert SameEntry(w1, w1, n); assert SameEntry(w1, w, n); }
    }
  }

  // ---- the states on the way ----

  /** One of the maps has changed, or the set of running upstreams, and nothing else. */
  predicate OneMutation(w0: World, w: World) {
    && (w0.servers == w.servers || (w0.routes == w.routes && w0.states == w.states && w0.live == w.live))
    && (w0.routes == w.routes || (w0.states == w.states && w0.live == w.live))
    && (w0.states == w.states || w0.live == w.live)
  }

  /** The trail leads to `w`, one mutation at a time, so that no intermediate state is missing from it. */
  ghost predicate Traced(trail: seq<World>, w: World) {
    && trail != [] && trail[|trail| - 1] == w
    && forall k | 0 < k < |trail| :: OneMutation(trail[k - 1], trail[k])
  }

  lemma TracedOn(trail: seq<World>, w1: World, w: World)
    requires Traced(trail, w1) && OneMutation(w1, w)
    ensures Traced(trail + [w], w)
  {
    var t := trail + [w];
    forall k | 0 < k < |t| ensures OneMutation(t[k - 1], t[k]) {
      assert k < |trail| ==> OneMutation(trail[k - 1], trail[k]);
    }
  }

  /** The states from `w0` on, recorded after each single mutation, concern one name only. */
  ghost predicate Steps(env: Env, w0: World, before: seq<World>, after: seq<World>, name: string) {
    before <= after && forall k | |before| <= k < |after| :: Touches(env, w0, after[k], name)
  }

  ghost predicate KeepsAll(env: Env, cfgs: Configs, w0: World, w: World)
    requires w0.states.Keys == w0.servers.Keys
  {
    forall n | Unchanged(w0, cfgs, n) :: Keeps(env, w0, w, n)
  }

  /** The current and every recorded state keep every server whose config is unchanged. */
  ghost predicate Careful(env: Env, cfgs: Configs, w0: World, w: World, before: seq<World>, after: seq<World>) {
    && w0.states.Keys == w0.servers.Keys && before <= after
    && KeepsAll(env, cfgs, w0, w)
    && forall k | |before| <= k < |after| :: KeepsAll(env, cfgs, w0, after[k])
  }

  lemma CarefulStarts(env: Env, cfgs: Configs, w: World, before: seq<World>)
    requires Agreed(env, w)
    ensures Careful(env, cfgs, w, w, before, before)
  {
    forall n | Unchanged(w, cfgs, n) ensures Keeps(env, w, w, n) {
      KeepsItself(env, w, n);
    }
  }

  lemma KeepsAllOn(env: Env, cfgs: Configs, w0: World, w1: World, w: World, name: string)
    requires Agreed(env, w0) && Agreed(env, w1) && KeepsAll(env, cfgs, w0, w1)
    requires Touches(env, w1, w, name) && Simple(name) && !Unchanged(w0, cfgs, name)
    ensures KeepsAll(env, cfgs, w0, w)
  {
    forall n | Unchanged(w0, cfgs, n) ensures Keeps(env, w0, w, n) {
      KeepsOn(env, w0, w1, w, name, n);
    }
  }

  lemma CarefulOn(env: Env, cfgs: Configs, w0: World, w1: World, w: World, before: seq<World>, mid: seq<World>,
                  after: seq<World>, name: string)
    requires Agreed(env, w0) && Agreed(env, w1) && Careful(env, cfgs, w0, w1, before, mid)
    requires Touches(env, w1, w, name) && Steps(env, w1, mid, after, name) && Simple(name) && !Unchanged(w0, cfgs, name)
    ensures Careful(env, cfgs, w0, w, before, after)
  {
    KeepsAllOn(env, cfgs, w0, w1, w, name);
    forall k | |before| <= k < |after| ensures KeepsAll(env, cfgs, w0, after[k]) {
      if k >= |mid| { KeepsAllOn(env, cfgs, w0, w1, after[k], name); }
    }
  }

  /** In none of the states from `k` on was an unchanged server disturbed. */
  ghost predicate NoneDisturbed(env: Env, cfgs: Configs, w0: World, trail: seq<World>, k: nat)
    requires w0.states.Keys == w0.servers.Keys
  {
    forall i, n | k <= i < |trail| && Unchanged(w0, cfgs, n) :: Undisturbed(env, w0, trail[i], n)
  }

  lemma CarefulMeansUndisturbed(env: Env, cfgs: Configs, w0: World, w: World, before: seq<World>, after: seq<World>)
    requires Agreed(env, w0) && Careful(env, cfgs, w0, w, before, after)
    ensures NoneDisturbed(env, cfgs, w0, after, |before|)
  {
    forall i, n | |before| <= i < |after| && Unchanged(w0, cfgs, n) ensures Undisturbed(env, w0, after[i], n) {
      assert KeepsAll(env, cfgs, w0, after[i]);
      KeepsMeansUndisturbed(env, w0, after[i], n);
    }
  }

  // ---- the two loops ----

  ghost predicate PruneInv(env: Env, cfgs: Configs, w0: World, w: World, before: seq<World>, after: seq<World>,
                           todo: set<string>) {
    && Agreed(env, w0) && Agreed(env, w) && w.nextId >= w0.nextId && todo <= w0.servers.Keys
    && Careful(env, cfgs, w0, w, before, after)
    && Pruning(cfgs, w0, w, todo)
  }

  lemma PruneLoopStarts(env: Env, cfgs: Configs, w: World, before: seq<World>)
    requires Agreed(env, w)
    ensures PruneInv(env, cfgs, w, w, before, before, w.servers.Keys)
  {
    CarefulStarts(env, cfgs, w, before);
    forall n | n !in w.servers ensures SameEntry(w, w, n) {
    }
  }

  lemma PruneLoopKeeps(env: Env, cfgs: Configs, w0: World, w: World, before: seq<World>, after: seq<World>,
                       todo: set<string>, name: string)
    requires PruneInv(env, cfgs, w0, w, before, after, todo) && name in todo && name in cfgs
    ensures PruneInv(env, cfgs, w0, w, before, after, todo - {name})
  {
    PruneStep(env, cfgs, w0, w, w, todo, name);
  }

  lemma PruneLoopRemoves(env: Env, cfgs: Configs, w0: World, w1: World, before: seq<World>, mid: seq<World>,
                         after: seq<World>, todo: set<string>, name: string)
    requires PruneInv(env, cfgs, w0, w1, before, mid, todo) && name in todo && name !in cfgs
    requires Touches(env, w1, Removed(w1, name), name) && Steps(env, w1, mid, after, name)
    ensures PruneInv(env, cfgs, w0, Removed(w1, name), before, after, todo - {name})
  {
    RemovedAgrees(env, w1, name);
    IsSimple(env, w0, name);
    CarefulOn(env, cfgs, w0, w1, Removed(w1, name), before, mid, after, name);
    PruneStep(env, cfgs, w0, w1, Removed(w1, name), todo, name);
  }

  lemma StillThere(cfgs: Configs, w0: World, w: World, todo: set<string>, name: string)
    requires Pruning(cfgs, w0, w, todo) && name in todo && name in w0.servers
    ensures name in w.servers
  {
    assert SameEntry(w0, w, name);
  }

  lemma IsSimple(env: Env, w: World, n: string)
    requires Agreed(env, w) && n in w.servers
    ensures Simple(n) && w.servers[n].route in {"", RouteOf(env, n)}
  {
    assert EntryOk(env, w, n);
  }

  ghost predicate MergeInv(env: Env, dial: Dialer, cfgs: Configs, w0: World, w: World, before: seq<World>,
                           after: seq<World>, todo: set<string>) {
    && Agreed(env, w0) && Agreed(env, w) && w.nextId >= w0.nextId
    && Careful(env, cfgs, w0, w, before, after)
    && Merging(env, dial, cfgs, w0, w, todo)
  }

  lemma MergeLoopStarts(env: Env, dial: Dialer, cfgs: Configs, w0: World, w: World, before: seq<World>,
                        after: seq<World>)
    requires PruneInv(env, cfgs, w0, w, before, after, {})
    ensures MergeInv(env, dial, cfgs, w0, w, before, after, cfgs.Keys)
  {
    MergeStarts(env, dial, cfgs, w0, w);
  }

  lemma NotYet(env: Env, dial: Dialer, cfgs: Configs, w0: World, w: World, todo: set<string>, name: string)
    requires Merging(env, dial, cfgs, w0, w, todo) && name in todo
    ensures name in w.servers <==> name in w0.servers
  {
    assert SameEntry(w0, w, name);
  }

  lemma MergeLoopKeeps(env: Env, dial: Dialer, cfgs: Configs, w0: World, w: World, before: seq<World>,
                       after: seq<World>, todo: set<string>, name: string)
    requires MergeInv(env, dial, cfgs, w0, w, before, after, todo) && name in todo && Unchanged(w0, cfgs, name)
    ensures MergeInv(env, dial, cfgs, w0, w, before, after, todo - {name})
  {
    MergeStep(env, dial, cfgs, w0, w, w, todo, name);
  }

  lemma MergeLoopAdds(env: Env, dial: Dialer, cfgs: Configs, w0: World, w1: World, w: World, before: seq<World>,
                      mid: seq<World>, after: seq<World>, todo: set<string>, name: string)
    requires MergeInv(env, dial, cfgs, w0, w1, before, mid, todo) && name in todo && !Unchanged(w0, cfgs, name)
             && Simple(name)
    requires Agreed(env, w) && Touches(env, w1, w, name) && Steps(env, w1, mid, after, name) && w.nextId >= w1.nextId
    requires Done(env, dial, cfgs, w0, w, name)
    ensures MergeInv(env, dial, cfgs, w0, w, before, after, todo - {name})
  {
    CarefulOn(env, cfgs, w0, w1, w, before, mid, after, name);
    MergeStep(env, dial, cfgs, w0, w1, w, todo, name);
  }

  /** Removing and adding again, seen as one piece of work on the name. */
  lemma StepsOn(env: Env, w1: World, w2: World, w: World, before: seq<World>, mid: seq<World>, after: seq<World>,
                name: string)
    requires Touches(env, w1, w2, name) && Steps(env, w1, before, mid, name) && name !in w2.servers
    requires Touches(env, w2, w, name) && Steps(env, w2, mid, after, name)
    ensures Touches(env, w1, w, name) && Steps(env, w1, before, after, name)
  {
    TouchesOn(env, w1, w2, w, name);
    forall k | |before| <= k < |after| ensures Touches(env, w1, after[k], name) {
      if k >= |mid| { TouchesOn(env, w1, w2, after[k], name); }
    }
  }

  lemma FreshIsDone(env: Env, dial: Dialer, cfgs: Configs, w0: World, w1: World, name: string)
    requires name in cfgs && !Unchanged(w0, cfgs, name) && w1.nextId >= w0.nextId
    ensures Done(env, dial, cfgs, w0, Added(env, w1, name, cfgs[name], StateFor(env, dial, name, cfgs[name])), name)
  {
  }

  /** The managed names and configs are those loaded, whatever the outcome of the connects. */
  lemma DoneConfigs(env: Env, dial: Dialer, cfgs: Configs, w0: World, w: World)
    requires Agreed(env, w0) && forall n :: Done(env, dial, cfgs, w0, w, n)
    ensures ConfigsOf(w) == cfgs
  {
    forall n ensures n in w.servers <==> n in cfgs
    {
      assert Done(env, dial, cfgs, w0, w, n);
    }
    forall n | n in cfgs ensures w.servers[n].cfg == cfgs[n] {
      assert Done(env, dial, cfgs, w0, w, n);
    }
  }

  /** A reload from a converged state converges, when connects behave as they did before. */
  lemma DoneConverges(env: Env, dial: Dialer, cfgs0: Configs, cfgs: Configs, w0: World, w: World)
    requires Agreed(env, w0) && Agreed(env, w) && Converged(env, dial, cfgs0, w0)
    requires forall n :: Done(env, dial, cfgs, w0, w, n)
    ensures Converged(env, dial, cfgs, w)
  {
    DoneConfigs(env, dial, cfgs, w0, w);
    DoneStates(env, dial, cfgs, w0, w);
    StatesDecidePatterns(env, dial, cfgs, w);
  }

  lemma DoneStates(env: Env, dial: Dialer, cfgs: Configs, w0: World, w: World)
    requires w.states.Keys == w.servers.Keys && ConfigsOf(w) == cfgs
    requires w0.states == StatesOf(env, dial, ConfigsOf(w0))
    requires forall n :: Done(env, dial, cfgs, w0, w, n)
    ensures w.states == StatesOf(env, dial, cfgs)
  {
    forall n ensures n in w.states <==> n in cfgs {
      assert n in w.states.Keys <==> n in w.servers.Keys;
      assert n in ConfigsOf(w) <==> n in w.servers;
    }
    forall n | n in cfgs ensures w.states[n] == StateFor(env, dial, n, cfgs[n]) {
      assert Done(env, dial, cfgs, w0, w, n);
      if Unchanged(w0, cfgs, n) {
        assert n in ConfigsOf(w0);
      }
    }
  }

  /** The upstreams of removed and re-registered servers are stopped, and nothing is left running without a record. */
  lemma ReplacedAreStopped(env: Env, dial: Dialer, cfgs: Configs, w0: World, w: World, n: string)
    requires Agreed(env, w0) && Agreed(env, w) && forall m :: Done(env, dial, cfgs, w0, w, m)
    requires n in w0.servers
    ensures w0.servers[n].id in w.live <==> Unchanged(w0, cfgs, n) && w0.servers[n].route != ""
  {
    assert Done(env, dial, cfgs, w0, w, n) && EntryOk(env, w0, n);
    if Unchanged(w0, cfgs, n) {
      assert EntryOk(env, w, n);
    } else {
      forall m | m in w.servers ensures w.servers[m].id != w0.servers[n].id {
        assert Done(env, dial, cfgs, w0, w, m);
      }
      assert w0.servers[n].id in w.live ==> LiveOk(w, w0.servers[n].id);
    }
  }

  /** Loading what is already managed changes no record, no state and no mounted pattern. */
  lemma SameConfigIsNoOp(env: Env, dial: Dialer, w0: World, w: World)
    requires Agreed(env, w0) && Agreed(env, w) && forall n :: Done(env, dial, ConfigsOf(w0), w0, w, n)
    ensures w.servers == w0.servers && w.states == w0.states && w.routes.Keys == w0.routes.Keys
  {
    SameRecords(env, dial, w0, w);
    SameRecordsSamePatterns(env, w0, w);
    SameRecordsSamePatterns(env, w, w0);
  }

  lemma SameRecords(env: Env, dial: Dialer, w0: World, w: World)
    requires w0.states.Keys == w0.servers.Keys && w.states.Keys == w.servers.Keys
    requires forall n :: Done(env, dial, ConfigsOf(w0), w0, w, n)
    ensures w.servers == w0.servers && w.states == w0.states
  {
    forall n ensures SameEntry(w0, w, n) {
      assert Done(env, dial, ConfigsOf(w0), w0, w, n);
      assert n in w.servers.Keys <==> n in w.states.Keys;
      assert n in w0.servers.Keys <==> n in w0.states.Keys;
    }
    SameEntries(w0, w);
  }

  lemma SameEntries(w0: World, w: World)
    requires forall n :: SameEntry(w0, w, n)
    ensures w.servers == w0.servers && w.states == w0.states
  {
    forall n ensures (n in w.servers <==> n in w0.servers) && (n in w.states <==> n in w0.states) {
      assert SameEntry(w0, w, n);
    }
    forall n ensures (n in w0.servers ==> w.servers[n] == w0.servers[n])
      && (n in w0.states ==> w.states[n] == w0.states[n]) {
      assert SameEntry(w0, w, n);
    }
  }

  lemma SameRecordsSamePatterns(env: Env, w0: World, w: World)
    requires Agreed(env, w0) && Agreed(env, w) && w.servers == w0.servers
    ensures w0.routes.Keys <= w.routes.Keys
  {
    forall p | p in w0.routes ensures p in w.routes {
      assert PatternOk(env, w0, p);
      if p !in PROBES {
        var n :| n in w0.servers && w0.servers[n].route == p != "";
        assert EntryOk(env, w0, n) && EntryOk(env, w, n);
      }
    }
  }

  // ---- a run of reloads ----

  /** One reload: what loading the config gave, and how connects went at that time. */
  datatype Load = Load(cfgs: Option<Configs>, dial: Dialer)

  predicate SimpleLoads(loads: seq<Load>) {
    forall i | 0 <= i < |loads| && loads[i].cfgs.Some? :: SimpleNames(loads[i].cfgs.value)
  }

  /** The last config that loaded. */
  function LastLoaded(first: Configs, loads: seq<Load>): Configs {
    if loads == [] then first
    else
      var last := loads[|loads| - 1];
      if last.cfgs.Some? then last.cfgs.value else LastLoaded(first, loads[..|loads| - 1])
  }

  /** A load that fails is as if it had not been; of those that succeed the last counts. */
  lemma {:induction false} LastLoadedMeaning(first: Configs, loads: seq<Load>, i: nat)
    requires i <= |loads| && forall j | i <= j < |loads| :: loads[j].cfgs.None?
    ensures i == 0 ==> LastLoaded(first, loads) == first
    ensures i > 0 && loads[i - 1].cfgs.Some? ==> LastLoaded(first, loads) == loads[i - 1].cfgs.value
  {
    if i < |loads| {
      LastLoadedMeaning(first, loads[..|loads| - 1], i);
    }
  }
}
