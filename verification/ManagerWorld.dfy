/**
 The state the manager of internal/proxy/manager.go keeps in three places (managed servers, mounted
 routes, readiness states), as one value, and what adding and removing a server does to it.
 */
module ManagerWorld {
  import opened Prelude
  import opened Router
  import opened Routes
  import opened Readiness
  import Config

  /** One server entry with inheritance applied; reflect.DeepEqual is equality of these values. */
  datatype Cfg = Cfg(options: Config.Value, endpoint: string)

  /** A managed record; `id` is the identity of the record, its upstream and its handler. */
  datatype Managed = Managed(id: nat, cfg: Cfg, route: string)

  /**
   What does not change while the process runs; `isLazy` says whether an idleTimeout parses to a
   positive duration.
  */
  datatype Env = Env(basePath: string, streamable: bool, isLazy: string -> bool)

  /** The outcome of an eager connect: nothing, or the error. */
  type Dialer = (string, Cfg) -> Option<string>

  datatype World = World(
    servers: map<string, Managed>,
    routes: Table,
    states: map<string, UpstreamState>,
    live: set<nat>,
    nextId: nat)

  predicate IsDisabled(cfg: Cfg) {
    cfg.options.plain.disabled
  }

  predicate IsLazy(env: Env, cfg: Cfg) {
    env.isLazy(cfg.options.plain.idleTimeout)
  }

  /** The state a server is registered with. */
  function StateFor(env: Env, dial: Dialer, name: string, cfg: Cfg): UpstreamState {
    if IsDisabled(cfg) then UpstreamState(Disabled, "")
    else if IsLazy(env, cfg) || dial(name, cfg).None? then UpstreamState(Connected, "")
    else UpstreamState(Failed, dial(name, cfg).value)
  }

  /** Only a server that is neither disabled nor lazy is dialed, and only its dial decides how it is registered. */
  lemma StateForMeaning(env: Env, dial: Dialer, name: string, cfg: Cfg)
    ensures var st := StateFor(env, dial, name, cfg);
            var disabled := cfg.options.plain.disabled;
            var waits := env.isLazy(cfg.options.plain.idleTimeout);
            && (st.status == Disabled <==> disabled)
            && (st.status == Connected <==> !disabled && (waits || dial(name, cfg).None?))
            && (st.status == Failed <==> !disabled && !waits && dial(name, cfg).Some?)
            && st.error == (if st.status == Failed then dial(name, cfg).value else "")
            && (waits ==> forall other: Dialer :: StateFor(env, other, name, cfg) == st)
  {
  }

  function RouteOf(env: Env, name: string): string {
    RouteForServer(env.basePath, name, env.streamable)
  }

  function Added(env: Env, w: World, name: string, cfg: Cfg, st: UpstreamState): World {
    var up := st.status == Connected;
    World(
      w.servers[name := Managed(w.nextId, cfg, if up then RouteOf(env, name) else "")],
      if up then w.routes[RouteOf(env, name) := w.nextId] else w.routes,
      w.states[name := st],
      if up then w.live + {w.nextId} else w.live,
      w.nextId + 1)
  }

  function Removed(w: World, name: string): World {
    if name !in w.servers then w
    else
      var md := w.servers[name];
      World(
        w.servers - {name},
        if md.route != "" then w.routes - {md.route} else w.routes,
        w.states - {name},
        if md.route != "" then w.live - {md.id} else w.live,
        w.nextId)
  }

  // ---- the three maps agree ----

  /** The record of one name against its state and its route. */
  predicate EntryOk(env: Env, w: World, n: string) {
    && n in w.servers && n in w.states && Simple(n)
    && (w.states[n].status == Connected <==> w.servers[n].route != "")
    && (w.states[n].status == Disabled <==> IsDisabled(w.servers[n].cfg))
    && (w.servers[n].route != "" ==> w.servers[n].route == RouteOf(env, n))
    && (RouteOf(env, n) in w.routes <==> w.servers[n].route != "")
    && (w.servers[n].route != "" ==> w.routes[RouteOf(env, n)] == w.servers[n].id)
    && (w.servers[n].id in w.live <==> w.servers[n].route != "")
    && w.servers[n].id < w.nextId
  }

  predicate PatternOk(env: Env, w: World, p: string) {
    p in PROBES || exists n | n in w.servers :: w.servers[n].route == p != ""
  }

  predicate LiveOk(w: World, id: nat) {
    exists n | n in w.servers :: w.servers[n].id == id
  }

  ghost predicate DistinctIds(servers: map<string, Managed>) {
    forall n, m | n in servers && m in servers && servers[n].id == servers[m].id :: n == m
  }

  ghost predicate Agreed(env: Env, w: World) {
    && w.states.Keys == w.servers.Keys
    && (forall n | n in w.servers :: EntryOk(env, w, n))
    && DistinctIds(w.servers)
    && (forall p | p in w.routes :: PatternOk(env, w, p))
    && (forall p | p in PROBES :: p in w.routes)
    && (forall id | id in w.live :: LiveOk(w, id))
  }

  lemma EmptyAgrees(env: Env, routes: Table)
    requires routes.Keys == {"/healthz", "/readyz"}
    ensures Agreed(env, World(map[], routes, map[], {}, 2))
  {
    forall p | p in routes ensures p in PROBES {
      assert p in routes.Keys;
    }
    forall p | p in PROBES ensures p in routes {
      assert p in routes.Keys;
    }
  }

  lemma RoutesDiffer(env: Env, n: string, m: string)
    requires Simple(n) && Simple(m) && n != m
    ensures RouteOf(env, n) != RouteOf(env, m)
  {
    if RouteOf(env, n) == RouteOf(env, m) { RouteIsInjective(env.basePath, n, m, env.streamable); }
  }

  lemma RouteIsNoProbe(env: Env, n: string)
    requires Simple(n)
    ensures RouteOf(env, n) !in PROBES && RouteOf(env, n) != ""
  {
    RouteKind(env.basePath, n, env.streamable);
    if RouteOf(env, n) in PROBES { ProbesAreApart(env.basePath, n, env.streamable, RouteOf(env, n)); }
  }

  lemma NewRouteIsFree(env: Env, w: World, name: string)
    requires Agreed(env, w) && Simple(name) && name !in w.servers
    ensures RouteOf(env, name) !in w.routes && RouteOf(env, name) !in PROBES && RouteOf(env, name) != ""
  {
    RouteIsNoProbe(env, name);
    forall p | p in w.routes && p !in PROBES ensures p != RouteOf(env, name) {
      assert PatternOk(env, w, p);
      var m :| m in w.servers && w.servers[m].route == p != "";
      assert EntryOk(env, w, m);
      RoutesDiffer(env, name, m);
    }
  }

  lemma AddedEntry(env: Env, w: World, name: string, cfg: Cfg, st: UpstreamState, n: string)
    requires Agreed(env, w) && Simple(name) && name !in w.servers && (st.status == Disabled <==> IsDisabled(cfg))
    requires n == name || n in w.servers
    ensures EntryOk(env, Added(env, w, name, cfg, st), n)
  {
    NewRouteIsFree(env, w, name);
    if n != name {
      assert EntryOk(env, w, n);
      RoutesDiffer(env, name, n);
    } else {
      NextIdIsFree(env, w);
    }
  }

  lemma NextIdIsFree(env: Env, w: World)
    requires Agreed(env, w)
    ensures w.nextId !in w.live && forall n | n in w.servers :: w.servers[n].id != w.nextId
  {
    forall n | n in w.servers ensures w.servers[n].id < w.nextId {
      assert EntryOk(env, w, n);
    }
    forall id | id in w.live ensures id < w.nextId {
      assert LiveOk(w, id);
    }
  }

  lemma AddedPattern(env: Env, w: World, name: string, cfg: Cfg, st: UpstreamState, p: string)
    requires Agreed(env, w) && name !in w.servers && p in Added(env, w, name, cfg, st).routes
    ensures PatternOk(env, Added(env, w, name, cfg, st), p)
  {
    var v := Added(env, w, name, cfg, st);
    if p in w.routes {
      assert PatternOk(env, w, p);
      if p !in PROBES {
        var n :| n in w.servers && w.servers[n].route == p != "";
        assert v.servers[n] == w.servers[n];
      }
    } else if p != "" {
      assert v.servers[name].route == p;
    }
  }

  lemma AddedIds(env: Env, w: World, name: string, cfg: Cfg, st: UpstreamState)
    requires Agreed(env, w) && name !in w.servers
    ensures var v := Added(env, w, name, cfg, st);
            DistinctIds(v.servers) && forall id | id in v.live :: LiveOk(v, id)
  {
    var v := Added(env, w, name, cfg, st);
    NextIdIsFree(env, w);
    forall id | id in v.live ensures LiveOk(v, id) {
      if id in w.live {
        assert LiveOk(w, id);
        var n :| n in w.servers && w.servers[n].id == id;
        assert v.servers[n] == w.servers[n];
      } else {
        assert v.servers[name].id == id;
      }
    }
  }

  lemma AddedAgrees(env: Env, w: World, name: string, cfg: Cfg, st: UpstreamState)
    requires Agreed(env, w) && Simple(name) && name !in w.servers && (st.status == Disabled <==> IsDisabled(cfg))
    ensures Agreed(env, Added(env, w, name, cfg, st))
  {
    var v := Added(env, w, name, cfg, st);
    forall n | n in v.servers ensures EntryOk(env, v, n) {
      AddedEntry(env, w, name, cfg, st, n);
    }
    forall p | p in v.routes ensures PatternOk(env, v, p) {
      AddedPattern(env, w, name, cfg, st, p);
    }
    AddedIds(env, w, name, cfg, st);
    AddedKeys(env, w, name, cfg, st);
  }

  lemma AddedKeys(env: Env, w: World, name: string, cfg: Cfg, st: UpstreamState)
    requires w.states.Keys == w.servers.Keys && forall p | p in PROBES :: p in w.routes
    ensures var v := Added(env, w, name, cfg, st);
            v.states.Keys == v.servers.Keys && forall p | p in PROBES :: p in v.routes
  {
  }

  /**
   Mounted is exactly what is connected, at its own route and with its own handler; so a lazy server is,
   whatever its dial would say.
  */
  lemma AddedMeaning(env: Env, dial: Dialer, w: World, name: string, cfg: Cfg)
    requires Agreed(env, w) && Simple(name) && name !in w.servers
    ensures var v := Added(env, w, name, cfg, StateFor(env, dial, name, cfg));
            var route := RouteForServer(env.basePath, name, env.streamable);
            var up := !cfg.options.plain.disabled
              && (env.isLazy(cfg.options.plain.idleTimeout) || dial(name, cfg).None?);
            && v.servers[name].cfg == cfg && v.servers[name].route == (if up then route else "")
            && (route in v.routes <==> up) && (up ==> v.routes[route] == v.servers[name].id)
            && v.states[name].status
              == (if up then Connected else if cfg.options.plain.disabled then Disabled else Failed)
  {
    NewRouteIsFree(env, w, name);
    StateForMeaning(env, dial, name, cfg);
  }

  lemma RemovedEntry(env: Env, w: World, name: string, n: string)
    requires Agreed(env, w) && name in w.servers && n in w.servers && n != name
    ensures EntryOk(env, Removed(w, name), n)
  {
    assert EntryOk(env, w, name) && EntryOk(env, w, n);
    RoutesDiffer(env, name, n);
  }

  lemma RemovedPattern(env: Env, w: World, name: string, p: string)
    requires Agreed(env, w) && name in w.servers && p in Removed(w, name).routes
    ensures PatternOk(env, Removed(w, name), p)
  {
    var v := Removed(w, name);
    assert PatternOk(env, w, p);
    if p !in PROBES {
      var n :| n in w.servers && w.servers[n].route == p != "";
      assert v.servers[n] == w.servers[n];
    }
  }

  lemma RemovedIds(env: Env, w: World, name: string)
    requires Agreed(env, w) && name in w.servers
    ensures var v := Removed(w, name);
            DistinctIds(v.servers) && forall id | id in v.live :: LiveOk(v, id)
  {
    var v := Removed(w, name);
    assert EntryOk(env, w, name);
    forall id | id in v.live ensures LiveOk(v, id) {
      assert LiveOk(w, id);
      var n :| n in w.servers && w.servers[n].id == id;
      assert v.servers[n] == w.servers[n];
    }
  }

  lemma RemovedAgrees(env: Env, w: World, name: string)
    requires Agreed(env, w)
    ensures Agreed(env, Removed(w, name))
  {
    if name in w.servers {
      var v := Removed(w, name);
      forall n | n in v.servers ensures EntryOk(env, v, n) {
        RemovedEntry(env, w, name, n);
      }
      forall p | p in v.routes ensures PatternOk(env, v, p) {
        RemovedPattern(env, w, name, p);
      }
      RemovedIds(env, w, name);
      assert EntryOk(env, w, name);
      RouteIsNoProbe(env, name);
      assert forall p | p in PROBES :: p in v.routes;
    }
  }

  // ---- neighbours ----

  /**
   In `w` the server `n` of `w0` has its record, its state, its upstream and its handler, and its paths
   resolve to that handler.
  */
  ghost predicate Undisturbed(env: Env, w0: World, w: World, n: string)
    requires n in w0.servers && n in w0.states
  {
    && n in w.servers && w.servers[n] == w0.servers[n]
    && n in w.states && w.states[n] == w0.states[n]
    && (w0.servers[n].route != "" ==>
          && w0.servers[n].id in w.live
          && forall p | Under(w0.servers[n].route, env.streamable, p) :: Answers(w.routes, p, Some(w0.servers[n].id)))
  }

  lemma AgreedPatterns(env: Env, w: World)
    requires Agreed(env, w)
    ensures OnlyRoutes(w.routes, env.basePath, env.streamable)
  {
    forall p | p in w.routes && p !in PROBES
      ensures exists n :: Simple(n) && p == RouteForServer(env.basePath, n, env.streamable)
    {
      assert PatternOk(env, w, p);
      var n :| n in w.servers && w.servers[n].route == p != "";
      assert EntryOk(env, w, n);
    }
  }

  /** Any state in which the other server's own entries are still there leaves it undisturbed. */
  lemma StaysUndisturbed(env: Env, w0: World, w: World, n: string)
    requires Agreed(env, w0) && n in w0.servers
    requires n in w.servers && w.servers[n] == w0.servers[n] && n in w.states && w.states[n] == w0.states[n]
    requires w0.servers[n].route != "" ==>
               && w0.servers[n].id in w.live && OnlyRoutes(w.routes, env.basePath, env.streamable)
               && RouteOf(env, n) in w.routes && w.routes[RouteOf(env, n)] == w0.servers[n].id
    ensures EntryOk(env, w0, n) && Undisturbed(env, w0, w, n)
  {
    assert EntryOk(env, w0, n);
    if w0.servers[n].route != "" {
      forall p | Under(w0.servers[n].route, env.streamable, p)
        ensures Answers(w.routes, p, Some(w0.servers[n].id))
      {
        RouteDecides(w.routes, env.basePath, env.streamable, n, p);
      }
    }
  }
}
