/**
 The reconciling manager of internal/proxy/manager.go: it adds and removes servers one at a time,
 keeping the managed records, the router and the readiness states in step.
 */
module Manager {
  import opened Prelude
  import opened Router
  import opened Routes
  import opened Readiness
  import opened ManagerWorld
  import opened Reconcile

  class ProxyManager {
    const env: Env
    const router: Mux
    const tracker: ReadinessTracker
    var servers: map<string, Managed>
    // The upstreams whose context is not cancelled.
    var live: set<nat>
    var nextId: nat
    // The state after each single mutation so far.
    ghost var trail: seq<World>

    ghost function State(): World
      reads this, router, tracker
    {
      World(servers, router.routes, tracker.upstreams, live, nextId)
    }

    ghost predicate Valid()
      reads this, router, tracker
    {
      router.Valid() && Agreed(env, State()) && Traced(trail, State())
    }

    constructor (env: Env)
      ensures Valid() && this.env == env && fresh(router) && fresh(tracker)
      ensures servers == map[] && !tracker.ready && tracker.upstreams == map[]
      ensures router.routes.Keys == {"/healthz", "/readyz"}
    {
      this.env := env;
      var mux := new Mux();
      mux.Handle("/healthz", 0);
      mux.Handle("/readyz", 1);
      router := mux;
      EmptyAgrees(env, mux.routes);
      tracker := new ReadinessTracker();
      servers, live, nextId := map[], {}, 2;
      trail := [World(map[], mux.routes, map[], {}, 2)];
    }

    // The single mutations. `w0` is the state in which the work on `name` began, `before` the trail then.

    ghost predicate Working(w0: World, before: seq<World>, name: string)
      reads this, router, tracker
    {
      Touches(env, w0, State(), name) && Steps(env, w0, before, trail, name) && Traced(trail, State())
    }

    method SetState(name: string, st: UpstreamState, ghost w0: World, ghost before: seq<World>)
      requires Working(w0, before, name)
      modifies this`trail, tracker`upstreams
      ensures State() == old(State()).(states := old(State()).states[name := st]) && Working(w0, before, name)
    {
      ghost var w1 := State();
      tracker.Set(name, st);
      TouchesOn(env, w0, w1, State(), name);
      TracedOn(trail, w1, State());
      trail := trail + [State()];
    }

    /** The context and the connections of the next upstream. */
    method Start(name: string, ghost w0: World, ghost before: seq<World>)
      requires Working(w0, before, name)
      modifies this`trail, this`live
      ensures State() == old(State()).(live := old(live) + {nextId}) && Working(w0, before, name)
    {
      ghost var w1 := State();
      live := live + {nextId};
      TouchesOn(env, w0, w1, State(), name);
      TracedOn(trail, w1, State());
      trail := trail + [State()];
    }

    method Mount(name: string, route: string, ghost w0: World, ghost before: seq<World>)
      requires router.Valid() && route == RouteOf(env, name) && Working(w0, before, name)
      modifies this`trail, router
      ensures router.Valid() && Working(w0, before, name)
      ensures State() == old(State()).(routes := old(State()).routes[route := nextId])
    {
      RouteTouched(env, w0, State(), name, nextId);
      ghost var w1 := State();
      router.Handle(route, nextId);
      TracedOn(trail, w1, State());
      trail := trail + [State()];
    }

    /** Records (or replaces) the managed entry for a name. */
    method Store(name: string, cfg: Cfg, route: string, ghost w0: World, ghost before: seq<World>)
      requires Working(w0, before, name)
      modifies this`trail, this`servers, this`nextId
      ensures State() == old(State()).(
                           servers := old(servers)[name := Managed(old(nextId), cfg, route)],
                           nextId := old(nextId) + 1)
      ensures Working(w0, before, name)
    {
      ghost var w1 := State();
      servers := servers[name := Managed(nextId, cfg, route)];
      nextId := nextId + 1;
      TouchesOn(env, w0, w1, State(), name);
      TracedOn(trail, w1, State());
      trail := trail + [State()];
    }

    /** Registers a server that is not mounted, so that a later reload sees a change of its config. */
    method Park(name: string, cfg: Cfg, st: UpstreamState, ghost w0: World, ghost before: seq<World>)
      requires Working(w0, before, name) && st.status != Connected
      modifies this`trail, this`servers, this`nextId, tracker`upstreams
      ensures Working(w0, before, name)
      ensures State() == Added(env, old(State()), name, cfg, st)
    {
      SetState(name, st, w0, before);
      Store(name, cfg, "", w0, before);
    }

    /** Mounts the route, then reports the server connected, then records it. */
    method Serve(name: string, cfg: Cfg, ghost w0: World, ghost before: seq<World>)
      requires router.Valid() && Working(w0, before, name)
      modifies this`trail, this`servers, this`live, this`nextId, router, tracker`upstreams
      ensures router.Valid() && Working(w0, before, name)
      ensures State() == Added(env, old(State()), name, cfg, UpstreamState(Connected, ""))
    {
      var route := RouteForServer(env.basePath, name, env.streamable);
      Start(name, w0, before);
      Mount(name, route, w0, before);
      SetState(name, UpstreamState(Connected, ""), w0, before);
      Store(name, cfg, route, w0, before);
    }

    /** The three ways in; the agreement of the maps is kept by AddedAgrees. */
    method AddServer(name: string, cfg: Cfg, dial: Dialer, bootFatal: bool) returns (err: Option<string>)
      requires router.Valid() && Traced(trail, State()) && name !in servers
      modifies this, router, tracker
      ensures router.Valid() && tracker.ready == old(tracker.ready)
      ensures State() == Added(env, old(State()), name, cfg, StateFor(env, dial, name, cfg))
      ensures err == if bootFatal && Fatal(env, dial, name, cfg) then dial(name, cfg) else None
      ensures err.Some? <==>
              && bootFatal && !cfg.options.plain.disabled && !env.isLazy(cfg.options.plain.idleTimeout)
              && dial(name, cfg).Some? && cfg.options.panicIfInvalid == Some(true)
      ensures Working(old(State()), old(trail), name)
    {
      ghost var w0, before := State(), trail;
      if cfg.options.plain.disabled {
        Park(name, cfg, UpstreamState(Disabled, ""), w0, before);
        return None;
      }
      if !env.isLazy(cfg.options.plain.idleTimeout) {
        var failure := dial(name, cfg);
        if failure.Some? {
          Park(name, cfg, UpstreamState(Failed, failure.value), w0, before);
          return if cfg.options.panicIfInvalid == Some(true) && bootFatal then failure else None;
        }
      }
      Serve(name, cfg, w0, before);
      return None;
    }

    method Unmount(name: string, route: string, ghost w0: World, ghost before: seq<World>)
      requires router.Valid() && route == RouteOf(env, name) && Working(w0, before, name)
      modifies this`trail, router
      ensures router.Valid() && Working(w0, before, name)
      ensures State() == old(State()).(routes := old(State()).routes - {route})
    {
      RouteTouched(env, w0, State(), name, 0);
      ghost var w1 := State();
      router.Remove(route);
      TracedOn(trail, w1, State());
      trail := trail + [State()];
    }

    /** Cancels the context of an upstream and closes its connections. */
    method Stop(name: string, id: nat, ghost w0: World, ghost before: seq<World>)
      requires Working(w0, before, name) && name in w0.servers && w0.servers[name].id == id
      modifies this`trail, this`live
      ensures State() == old(State()).(live := old(live) - {id}) && Working(w0, before, name)
    {
      ghost var w1 := State();
      live := live - {id};
      TouchesOn(env, w0, w1, State(), name);
      TracedOn(trail, w1, State());
      trail := trail + [State()];
    }

    method Forget(name: string, ghost w0: World, ghost before: seq<World>)
      requires Working(w0, before, name)
      modifies this`trail, this`servers
      ensures State() == old(State()).(servers := old(servers) - {name}) && Working(w0, before, name)
    {
      ghost var w1 := State();
      servers := servers - {name};
      TouchesOn(env, w0, w1, State(), name);
      TracedOn(trail, w1, State());
      trail := trail + [State()];
    }

    method DropState(name: string, ghost w0: World, ghost before: seq<World>)
      requires Working(w0, before, name)
      modifies this`trail, tracker`upstreams
      ensures State() == old(State()).(states := old(State()).states - {name}) && Working(w0, before, name)
    {
      ghost var w1 := State();
      tracker.Remove(name);
      TouchesOn(env, w0, w1, State(), name);
      TracedOn(trail, w1, State());
      trail := trail + [State()];
    }

    /**
     Unmounts, stops and forgets; an absent name is left alone. The agreement of the maps is kept by
     RemovedAgrees.
    */
    method RemoveServer(name: string)
      requires router.Valid() && Traced(trail, State())
      requires name in servers ==> servers[name].route in {"", RouteOf(env, name)}
      modifies this, router, tracker
      ensures router.Valid() && tracker.ready == old(tracker.ready)
      ensures State() == Removed(old(State()), name)
      ensures Working(old(State()), old(trail), name)
    {
      if name !in servers {
        return;
      }
      ghost var w0, before := State(), trail;
      var md := servers[name];
      Forget(name, w0, before);
      if md.route != "" {
        Unmount(name, md.route, w0, before);
        Stop(name, md.id, w0, before);
      }
      DropState(name, w0, before);
    }

    /** Connects every configured server, in any order; only a fatal failure is returned, after all are resolved. */
    method Boot(cfgs: Configs, dial: Dialer) returns (err: Option<string>)
      requires Valid() && servers == map[] && SimpleNames(cfgs)
      modifies this, router, tracker
      ensures Valid() && tracker.ready == old(tracker.ready)
      ensures Converged(env, dial, cfgs, State())
      ensures err.Some? <==> exists n | n in cfgs :: Fatal(env, dial, n, cfgs[n])
    {
      err := None;
      var todo := cfgs.Keys;
      while todo != {}
        invariant router.Valid() && Traced(trail, State()) && Booting(env, dial, cfgs, State(), todo)
                  && tracker.ready == old(tracker.ready)
        invariant err.Some? <==> exists n | n in cfgs && n !in todo :: Fatal(env, dial, n, cfgs[n])
        decreases todo
      {
        var name :| name in todo;
        BootStep(env, dial, cfgs, State(), todo, name);
        var e := AddServer(name, cfgs[name], dial, true);
        if err.None? {
          err := e;
        }
        todo := todo - {name};
      }
      BootDone(env, dial, cfgs, State());
    }

    /** Tears down what is gone from the config. */
    method Prune(cfgs: Configs)
      requires Valid()
      modifies this, router, tracker
      ensures router.Valid() && tracker.ready == old(tracker.ready) && Traced(trail, State())
      ensures PruneInv(env, cfgs, old(State()), State(), old(trail), trail, {})
    {
      ghost var w0, before := State(), trail;
      PruneLoopStarts(env, cfgs, w0, before);
      var todo := servers.Keys;
      while todo != {}
        invariant router.Valid() && Traced(trail, State()) && PruneInv(env, cfgs, w0, State(), before, trail, todo)
                  && tracker.ready == old(tracker.ready)
        decreases todo
      {
        var name :| name in todo;
        if name in cfgs {
          PruneLoopKeeps(env, cfgs, w0, State(), before, trail, todo, name);
        } else {
          ghost var w1, mid := State(), trail;
          StillThere(cfgs, w0, w1, todo, name);
          IsSimple(env, w1, name);
          RemoveServer(name);
          PruneLoopRemoves(env, cfgs, w0, w1, before, mid, trail, todo, name);
        }
        todo := todo - {name};
      }
    }

    /** Tears down and registers again a server whose config changed. */
    method Reregister(name: string, cfg: Cfg, dial: Dialer)
      requires Valid() && name in servers
      modifies this, router, tracker
      ensures router.Valid() && tracker.ready == old(tracker.ready) && Agreed(env, State())
      ensures State() == Added(env, Removed(old(State()), name), name, cfg, StateFor(env, dial, name, cfg))
      ensures Working(old(State()), old(trail), name)
    {
      ghost var w1, before := State(), trail;
      IsSimple(env, w1, name);
      RemovedAgrees(env, w1, name);
      RemoveServer(name);
      ghost var w2, mid := State(), trail;
      AddedAgrees(env, w2, name, cfg, StateFor(env, dial, name, cfg));
      var _ := AddServer(name, cfg, dial, false);
      StepsOn(env, w1, w2, State(), before, mid, trail, name);
    }

    /** Registers what is new in the config or has changed; `current` are the records from before the reload. */
    method Merge(cfgs: Configs, dial: Dialer, current: map<string, Managed>, ghost w0: World, ghost before: seq<World>)
      requires router.Valid() && Traced(trail, State()) && PruneInv(env, cfgs, w0, State(), before, trail, {})
      requires current == w0.servers && SimpleNames(cfgs)
      modifies this, router, tracker
      ensures router.Valid() && tracker.ready == old(tracker.ready) && Traced(trail, State())
      ensures MergeInv(env, dial, cfgs, w0, State(), before, trail, {})
    {
      MergeLoopStarts(env, dial, cfgs, w0, State(), before, trail);
      var todo := cfgs.Keys;
      while todo != {}
        invariant router.Valid() && Traced(trail, State())
                  && MergeInv(env, dial, cfgs, w0, State(), before, trail, todo) && tracker.ready == old(tracker.ready)
        decreases todo
      {
        var name :| name in todo;
        ghost var w1, mid := State(), trail;
        NotYet(env, dial, cfgs, w0, w1, todo, name);
        if name !in current {
          AddedAgrees(env, w1, name, cfgs[name], StateFor(env, dial, name, cfgs[name]));
          var _ := AddServer(name, cfgs[name], dial, false);
          FreshIsDone(env, dial, cfgs, w0, w1, name);
          MergeLoopAdds(env, dial, cfgs, w0, w1, State(), before, mid, trail, todo, name);
        } else if current[name].cfg != cfgs[name] {
          Reregister(name, cfgs[name], dial);
          FreshIsDone(env, dial, cfgs, w0, Removed(w1, name), name);
          MergeLoopAdds(env, dial, cfgs, w0, w1, State(), before, mid, trail, todo, name);
        } else {
          MergeLoopKeeps(env, dial, cfgs, w0, State(), before, trail, todo, name);
        }
        todo := todo - {name};
      }
    }

    /** A config that does not load changes nothing; one that does is reconciled with the running set. */
    method Reload(load: Load)
      requires Valid() && (load.cfgs.Some? ==> SimpleNames(load.cfgs.value))
      modifies this, router, tracker
      ensures Valid() && tracker.ready == old(tracker.ready)
      ensures load.cfgs.None? ==> State() == old(State()) && trail == old(trail)
      ensures load.cfgs.Some? ==>
                && ConfigsOf(State()) == load.cfgs.value
                && (forall n :: Done(env, load.dial, load.cfgs.value, old(State()), State(), n))
                && old(trail) <= trail
                && NoneDisturbed(env, load.cfgs.value, old(State()), trail, |old(trail)|)
    {
      if load.cfgs.None? {
        return;
      }
      ghost var w0, before := State(), trail;
      var current := servers;
      Prune(load.cfgs.value);
      Merge(load.cfgs.value, load.dial, current, w0, before);
      DoneConfigs(env, load.dial, load.cfgs.value, w0, State());
      CarefulMeansUndisturbed(env, load.cfgs.value, w0, State(), before, trail);
    }

    /**
     The reload loop: the managed servers follow the last config that loaded and, when the outcome of
     a connect is a function of the config, all three maps are those of a fresh boot of that config.
     */
    method WatchConfig(loads: seq<Load>, ghost dial: Dialer)
      requires Valid() && SimpleLoads(loads)
      modifies this, router, tracker
      ensures Valid() && tracker.ready == old(tracker.ready)
      ensures ConfigsOf(State()) == LastLoaded(ConfigsOf(old(State())), loads)
      ensures Converged(env, dial, ConfigsOf(old(State())), old(State()))
              && (forall i | 0 <= i < |loads| :: loads[i].dial == dial)
              ==> Converged(env, dial, LastLoaded(ConfigsOf(old(State())), loads), State())
    {
      ghost var first := ConfigsOf(State());
      ghost var steady := Converged(env, dial, first, State()) && forall i | 0 <= i < |loads| :: loads[i].dial == dial;
      var i := 0;
      assert loads[..0] == [];
      while i < |loads|
        invariant 0 <= i <= |loads| && Valid() && tracker.ready == old(tracker.ready)
        invariant ConfigsOf(State()) == LastLoaded(first, loads[..i])
        invariant steady ==> Converged(env, dial, ConfigsOf(State()), State())
      {
        ghost var w := State();
        Reload(loads[i]);
        if loads[i].cfgs.Some? && steady {
          DoneConverges(env, dial, ConfigsOf(w), loads[i].cfgs.value, w, State());
        }
        assert loads[..i + 1][..i] == loads[..i];
        i := i + 1;
      }
      assert loads[..i] == loads;
    }
  }
}
