# A model of proxy-mcp's stateful core

proxy-mcp fronts a changing set of MCP backends. This project models the machines inside it that
must agree with each other, and proves what their design promises.

**One upstream.** `UpstreamCore` holds the state of an upstream as a value and one function per
statement of the source that changes it. `UpstreamObject` is the object: a class whose methods are
the critical sections of `proxy.go` and `registry.go`. `Lifecycle` is the same upstream met by many
goroutines: request threads with program counters, on-demand connects, idle monitors, teardowns and
reapers, each step one statement or one access under a lock, built from the statement functions of
`UpstreamCore`. `LifecycleInvariant` and `LifecycleProof` carry the inductive invariant,
`LifecycleTheorems` what holds in every reachable state and along every run, and
`LifecycleRefinement` ties the machine's statement sequences to the methods of the object.
`ActivityTracker` is the activity tracker as an object, `Idle` the tracker and its monitor one atomic
operation at a time.

**All upstreams.** `Router` is the mutable router, `Routes` the patterns that upstreams are mounted
at, `Readiness` the readiness tracker. `ManagerWorld` and `Reconcile` state
on values what adding, removing and reloading do; `Manager` is the class that does it. `Boot` is the
parallel cold start. `Requests` is the handler chain of a route and the requests in it.

**The compilers and the rest.** `Glob` and `Filter` are the glob-to-regexp compiler and the compiled
rule; `Registry` is the mirror of a remote listing; `Roots` and
`RootsListing` the mirror of a client's roots; `Url`,
`Remote` and `RepoMatcher` are the identity of git remotes and the repository whitelist; `Config` is
option inheritance, on the heap, and `Respelling` what a reload makes of it.

The map iteration order of Go is an arbitrary choice in every loop over a map. Dialing, git, the
clock and the listing iterators are parameters, or the free choice of a transition.

Assumptions: distinct downstream sessions have distinct ids; a dial begun on a cancelled context
fails; upstream names are single path segments (non-empty, no "/", not "." or ".."); registration
does not panic; `touch` is one step on a monotone clock; the backend serves one process that is not
being shut down.

Where the code and its documentation disagree:

- `filter.go` says that `*` stands for any run of characters and `?` for any one. In the compiled
  expression neither matches a newline. `Glob.NewlineEscapesStar` is a concrete case,
  `Glob.NameIsSafeIff` and `Glob.GlobIsSafeIff` say exactly which names and which globs are treated as
  documented.
- `syncRoots` is said to keep an upstream that caches roots correct. It asks the client, swaps the
  remembered list under the lock and tells the upstream, with nothing held across these steps; so calls
  that overlap may swap in another order than they asked, and their updates may interleave. They leave
  the upstream with the client's last answer whatever happens exactly when all of them got the same
  answer (`RootsListing.OverlapIsLatestIff`). `RootsListing.StaleAnswerWins`, `Roots.DroppedRootStays` and
  `Roots.DroppedRootStaysInOrder` are runs after which a root stays that the client has dropped.
  `handleRootsChanged` (`internal/proxy/proxy.go:541-552`) makes calls overlap if the SDK delivers a
  second notification before the handler of the first has returned. The SDK's dispatch is not part of
  this model; that it may do so is an assumption.
- Nor is a change mirrored that the client makes while its connection is being dialed: `dial` has listed
  the roots already, and `handleRootsChanged` finds no connection until `commitSession` has stored it.
  `RootsListing.OpenedIsExactIff` says exactly when the upstream is exact all the same.
- `repo.go` says that the ssh and https forms of one repository compare equal. A URL's path is decoded and
  an scp path is not, so the same text of a path gives different keys as soon as it holds a percent sign:
  `Remote.EscapedPathsDiffer` is such an input, `Remote.SameTextSameKeyIff` the exact condition.
- `registry.go` says that a failing listing leaves the existing set intact. What was accepted before the
  failure has been added, and stays unless later complete listings name it and then drop it.
  `Registry.PartialListingLeavesStray` is a concrete case, `Registry.MirrorIsExactIff` says exactly which
  histories leave nothing behind.

## Model

| member | source | states |
|---|---|---|
| UpstreamObject.Upstream.EnsureConnected | internal/proxy/proxy.go:266-287 | a connected upstream only has its clock touched; otherwise the dialed template and its context become current, the clock is touched and a monitor started under that context; a failure leaves nothing but the cancelled context |
| UpstreamObject.Upstream.Close | internal/proxy/registry.go:116-129 | the template and every stored session are closed exactly once and nothing stays stored, in any map order |
| UpstreamObject.Upstream.Teardown | internal/proxy/proxy.go:293-310 | a connected backend is cancelled, its generation left and everything it owned closed once; otherwise nothing changes |
| UpstreamObject.Upstream.CommitSession | internal/proxy/proxy.go:472-486 | a fresh connection is stored only in its own generation and only if the client has none; a surplus one is closed once and the stored one answered |
| UpstreamObject.Upstream.ReapDeadSessions | internal/proxy/proxy.go:571-591 | exactly the clients absent from the snapshot leave the map and each of their connections is closed once |
| LifecycleProof.StepKeeps | internal/proxy/proxy.go:266-310 | every step of every goroutine keeps the invariant of the upstream |
| LifecycleProof.RunKeepsInv | internal/proxy/proxy.go:437-486 | the invariant holds at every point of every interleaving |
| LifecycleProof.MonitorNeverExitsEarly | internal/proxy/idle.go:99-117 | while the server context is live, an armed monitor's context is cancelled only by the teardown that the monitor itself causes |
| LifecycleTheorems.StoredSessionsAreCurrent | internal/proxy/proxy.go:437-486 | every session in the map was dialed under the published context and in the current generation, or, between a teardown's bump and the end of its close, in the one just left |
| LifecycleTheorems.GenNeverFalls | internal/proxy/proxy.go:305-309 | no step lowers the generation, and a map is only drained after a bump |
| LifecycleTheorems.CloseReturns | internal/proxy/registry.go:116-129 | when close returns, every dial made or in flight began in an earlier generation |
| LifecycleTheorems.NoEarlierDialAfterClose | internal/proxy/proxy.go:293-310 | no dial begun before a teardown is in the map once its close has returned, or ever after |
| LifecycleTheorems.OwnedExactlyOnce | internal/proxy/proxy.go:472-494 | at every step each opened connection is in exactly one of: held by its dial, in the map, on a reaper's dead list, the template, closed |
| LifecycleTheorems.ClosedAtMostOnce | internal/proxy/proxy.go:571-591 | no connection is closed twice, and no closed one is in the map while the lock is free |
| LifecycleTheorems.LifecycleAccounting | internal/proxy/proxy.go:266-310 | while the connect lock is free: successful connects = generation + 1 if connected; exactly one monitor exists iff connected; the live context and cancel function match |
| LifecycleTheorems.MonitorStopsItsOwnBackend | internal/proxy/idle.go:112-115 | a monitor whose teardown gets the lock finds the very backend it was armed for |
| LifecycleTheorems.SessionIsolation | internal/proxy/proxy.go:437-465 | a request is given its own client's session, the template or nothing; in shared mode never a per-client session (that it gets its own: `LifecycleRefinement.FirstCallDials`) |
| LifecycleTheorems.FirstCommitStays | internal/proxy/proxy.go:480-483 | until it is removed, the first session committed for a client stays in the map |
| LifecycleTheorems.FirstCommitWins | internal/proxy/proxy.go:437-486 | concurrent dials of one client in one generation are all answered with the first committed session |
| LifecycleTheorems.HolderCanMove | internal/proxy/proxy.go:266-310 | whenever a mutex is held, one of its holders can move: no deadlock between the two mutexes |
| LifecycleRefinement.TeardownStepRefines | internal/proxy/proxy.go:299-309 | no statement of a teardown changes what the teardown will leave, in any map order |
| LifecycleRefinement.TeardownRefines | internal/proxy/proxy.go:293-310 | an undisturbed teardown of the machine leaves what the method promises |
| LifecycleRefinement.CommitRefines | internal/proxy/proxy.go:472-486 | an undisturbed commit of the machine does what the method promises |
| LifecycleRefinement.ConnectRefines | internal/proxy/proxy.go:266-287 | an undisturbed connect of the machine, successful or not, does what the method promises |
| LifecycleRefinement.ReapRefines | internal/proxy/proxy.go:571-591 | an undisturbed reap of the machine, closing in any order, does what the method promises |
| LifecycleRefinement.FirstCallDials | internal/proxy/proxy.go:437-486 | the first call of a client, undisturbed, dials under the published context and is answered with the session it opened, which is then stored for it |
| LifecycleRefinement.FailedDialFallsBack | internal/proxy/proxy.go:452-456 | if its dial fails it is answered with the template |
| LifecycleRefinement.NoContextFallsBack | internal/proxy/proxy.go:442-456 | so it is without a live context to dial under |
| LifecycleRefinement.LaterCallsReuse | internal/proxy/proxy.go:441-448 | a client with a stored session is answered with it at once |
| LifecycleRefinement.SharedModeUsesTemplate | internal/proxy/proxy.go:438-440 | in shared mode every call is answered with the template, without a dial |
| LifecycleRefinement.FiredMonitorTakesOver | internal/proxy/idle.go:112-115 | an armed monitor of a connected upstream can fire and takes the lock for its teardown |
| LifecycleRefinement.TeardownFinishes | internal/proxy/proxy.go:293-310 | an undisturbed teardown gets to its end, with everything it owned closed and the upstream down |
| Idle.InflightCountsExchanges | internal/proxy/idle.go:42-53 | the counter is the number of exchanges between their increment and their decrement |
| Idle.IdleReadMeansNothingInFlight | internal/proxy/idle.go:105-111 | at a busy() read that lets the monitor go on, no counted exchange was in flight |
| Idle.DecisionIsSound | internal/proxy/idle.go:105-117 | a monitor that fires had nothing in flight at its busy() read, and every exchange over by then made its closing touch at least the timeout before the clock read |
| Idle.SwappedEndFiresTooEarly | internal/proxy/idle.go:47-50 | with the two statements of end() swapped there is a run that fires too early |
| Idle.SoundIffTouchFirst | internal/proxy/idle.go:47-50 | decisions are sound in all runs exactly when end() touches before it decrements |
| Idle.BeginRefines | internal/proxy/idle.go:42-45 | the two atomic operations of begin(), undisturbed, are what the tracker's method promises |
| Idle.EndRefines | internal/proxy/idle.go:47-50 | the two atomic operations of end(), in the order of the source and undisturbed, are what the tracker's method promises |
| Idle.IntervalMeaning | internal/proxy/idle.go:90-90 | the polling interval is a quarter of the timeout, but at least 100ms |
| Idle.MonitorIdle | internal/proxy/idle.go:85-119 | under an ideal ticker, the loop fires in the first round whose three reads find the tracker quiet, with immediate reads after the last exchange ends at L within [L+T, L+T+max(T/4, 100ms)), with later ones not before L+T; it gives up only when its context is over |
| Router.AnswersAreUnique | internal/proxy/router.go:57-67 | exact lookup, else longest prefix, else nothing: this determines one answer |
| Router.PrefixesAreUnique | internal/proxy/router.go:71-88 | the list of subtree routes holds every prefix once |
| Router.FirstIsLongest | internal/proxy/router.go:57-67 | the first prefix that matches in the list is the longest that matches in the table |
| Router.SortOrderCannotMatter | internal/proxy/router.go:84-86 | any two orders the unstable sort may leave resolve every path alike |
| Router.SortByLength | internal/proxy/router.go:84-86 | a permutation, longest prefix first |
| Router.Mux.Match | internal/proxy/router.go:57-67 | the answer of the table of latest registrations |
| Router.Mux.Handle | internal/proxy/router.go:71-88 | one pattern registered or replaced, no other changed, list still represents the table |
| Router.Mux.Remove | internal/proxy/router.go:91-104 | one pattern unmounted if present, no other changed, list still represents the table |
| Routes.RouteUnderBase | internal/proxy/http.go:86-92 | under no base, and under a base of simple segments, the route is base, "/", name, and "/mcp" or "/" |
| Routes.RouteElements | internal/proxy/http.go:86-92 | for any base, the elements of a route are the directories the base stands for, the name, and the tail |
| Routes.ResolveLaws | internal/proxy/http.go:87-87 | in a base path, empty elements and "." count for nothing, ".." takes an element back, a name adds one |
| Routes.UnderMeaning | internal/proxy/router.go:57-67 | a streamable route is for its own path alone, an SSE route for everything beneath it |
| Routes.RoutesAreApart | internal/proxy/http.go:86-92 | no path lies under the routes of two different names |
| Routes.RouteIsInjective | internal/proxy/http.go:86-92 | different simple names have different routes, for every base path and server type |
| Routes.ProbesAreApart | internal/proxy/readiness.go:93-109 | no probe is a route or lies under one |
| Routes.RouteDecides | internal/proxy/router.go:57-67 | in a table of routes and probes a path under a mounted route resolves to that route's handler, whatever else is mounted |
| Readiness.ReadinessTracker.Set | internal/proxy/readiness.go:53-61 | one state set, the others unchanged |
| Readiness.ReadinessTracker.Remove | internal/proxy/readiness.go:113-117 | one state dropped, the others unchanged |
| Readiness.ReadinessTracker.MakeReport | internal/proxy/readiness.go:70-84 | a copy of all states; degraded exactly when some upstream failed |
| ManagerWorld.AddedAgrees | internal/proxy/manager.go:90-131 | adding a server keeps records, states and mounted routes in step: same names, connected iff the record has a route iff that route is mounted with its handler |
| ManagerWorld.AddedMeaning | internal/proxy/manager.go:90-131 | a server is mounted, at its own route and with its own handler, exactly if it is not disabled and is lazy or connects; a lazy one whatever a dial would say |
| ManagerWorld.StateForMeaning | internal/proxy/manager.go:90-131 | disabled, connected and failed are told apart by the config and, for an eager server alone, by its dial |
| ManagerWorld.RemovedAgrees | internal/proxy/manager.go:136-155 | removing a server keeps them in step |
| ManagerWorld.StaysUndisturbed | internal/proxy/manager.go:191-207 | where a server's own entries are untouched, every path under its route resolves to its handler |
| Reconcile.StatesDecidePatterns | internal/proxy/manager.go:90-131 | agreeing records and states of a config determine the mounted patterns |
| Reconcile.DoneConfigs | internal/proxy/manager.go:191-207 | after a reload the managed names and configs are those loaded, however the connects went |
| Reconcile.DoneConverges | internal/proxy/manager.go:172-208 | from a converged state a reload converges to the states and patterns of the new config |
| Reconcile.LastLoadedMeaning | internal/proxy/manager.go:176-180 | of a sequence of loads the last that succeeds counts, and none if all fail |
| Reconcile.ReplacedAreStopped | internal/proxy/manager.go:136-155 | an upstream from before the reload is still running exactly when its server was mounted and its config is unchanged |
| Reconcile.SameConfigIsNoOp | internal/proxy/manager.go:191-207 | loading what is managed already changes no record, state or mounted pattern |
| Reconcile.KeepsOn | internal/proxy/manager.go:191-207 | work on one name keeps every other server's record, state, upstream and handler |
| Reconcile.CarefulMeansUndisturbed | internal/proxy/manager.go:191-207 | in no recorded intermediate state is an unchanged server disturbed |
| Manager.ProxyManager.constructor | internal/proxy/http.go:204-232 | /healthz and /readyz are mounted and nothing else, nothing is managed, the three maps agree |
| Manager.ProxyManager.AddServer | internal/proxy/manager.go:90-131 | disabled, lazy, connected and failed servers each end as specified, touching one name only; an error exactly when, during boot, an enabled eager server that must be valid does not connect |
| Manager.ProxyManager.RemoveServer | internal/proxy/manager.go:136-155 | the server is unmounted, stopped and forgotten, touching one name only; an unknown name changes nothing |
| Manager.ProxyManager.Boot | internal/proxy/manager.go:60-82 | all servers, added one at a time in any order, end converged; an error exactly when some fatal server fails (every interleaving ends there too: `Boot.ParallelIsSequential`) |
| Manager.ProxyManager.Reload | internal/proxy/manager.go:172-208 | a failed load changes nothing; otherwise each name is gone, kept as it was, or new, and none of the states on the way, one mutation apart, disturbs an unchanged server |
| Manager.ProxyManager.WatchConfig | internal/proxy/manager.go:213-228 | after any sequence of reloads the managed configs are the last that loaded; with connects a function of config, everything is as a fresh boot leaves it |
| Boot.StepKeepsInv | internal/proxy/manager.go:60-131 | every step of the start, by whichever goroutine, keeps the invariant |
| Boot.ConnectedMeansMounted | internal/proxy/manager.go:125-129 | in every interleaving a server reported connected has its own route mounted already |
| Boot.ReadyMeansResolved | internal/proxy/http.go:234-245 | once ready, every server's record, state and mounted route with its own handler are those of its config, and no failure was fatal |
| Boot.ParallelIsSequential | internal/proxy/manager.go:60-131 | a parallel boot that got ready has the states, the mounted patterns and the recorded routes of the manager that adds the same servers one at a time |
| Boot.ActivatedAcceptsWhenResolved | internal/proxy/http.go:161-167 | a socket-activated server has accepted nothing before that |
| Boot.BootFailsIff | internal/proxy/manager.go:117-119 | the boot fails exactly when some enabled eager server that must be valid does not connect |
| Boot.BootNeverStuck | internal/proxy/manager.go:67-81 | until it is ready or has failed, the boot can move |
| Boot.AddProgresses | internal/proxy/manager.go:90-131 | every step brings its server nearer to the end and leaves the others where they are, so the boot ends |
| Boot.ServerServes | internal/proxy/http.go:153-173 | a self-bound server accepts from the start, an activated one once the gate is open |
| Requests.ChainMiddleware | internal/proxy/http.go:24-29 | a request meets the middlewares last to first, then the handler |
| Requests.RouteHandler | internal/proxy/manager.go:282-297 | activity outermost, then auth, then the log, recovery around the core |
| Requests.NewTokenSet | internal/proxy/http.go:31-35 | exactly the configured tokens |
| Requests.PassesIff | internal/proxy/http.go:38-49 | exactly the non-empty configured tokens without blanks at their ends pass, with or without "Bearer ", between blanks |
| Requests.RunKeepsInv | internal/proxy/manager.go:282-321 | the invariant of the chain holds at every point of every interleaving of requests |
| Requests.AttemptsAreAllowedCalls | internal/proxy/manager.go:304-321 | a connect attempt comes only from a request that passed auth and is no GET, on a lazy route |
| Requests.OnlyAllowedAreServed | internal/proxy/http.go:38-50 | only requests that pass reach the server, the others are answered 401, and no panic leaves the chain |
| Requests.AllowedIsServed | internal/proxy/manager.go:304-321 | an allowed request, met by no other, gets through: one connect attempt exactly if it is a call on a lazy route, 503 if that is refused, 500 on a panic, otherwise what the server answers |
| Requests.OthersAreRejected | internal/proxy/http.go:38-49 | any other request, met by no other, is answered 401 without a connect and without the server |
| Requests.BearerPasses | internal/proxy/http.go:39-48 | a configured token without blanks at its ends passes behind "Bearer " |
| Requests.LogIffEnabled | internal/proxy/manager.go:284-286 | the request log is a layer exactly if it is switched on |
| Requests.InflightIsOpenCalls | internal/proxy/idle.go:66-78 | the in-flight count of a lazy upstream is the number of open exchanges that are no GETs |
| Requests.GetChangesNothing | internal/proxy/idle.go:69-72 | no step of a GET changes clock, count or connection, whatever else is under way |
| Requests.GetTrafficChangesNothing | internal/proxy/manager.go:306-318 | GET-only traffic leaves connection, clocks and counts as they were |
| Requests.ReturningWasCounted | internal/proxy/idle.go:55-57 | every call that returns, even one rejected by auth, was counted and touched the clock when it came in |
| Requests.ReturnCounts | internal/proxy/idle.go:73-75 | a call on its way out is uncounted and touches the clock again |
| Glob.TextIsTokenwise | internal/proxy/filter.go:66-71 | quoting and two replacements produce the token-by-token translation, for every pattern |
| Glob.EveryGlobCompiles | internal/proxy/filter.go:66-71 | quoting makes every glob compile; only the size limit can refuse one |
| Glob.AcceptsLineMatches | internal/proxy/filter.go:66-71 | the compiled expression is the direct matcher whose wildcards exclude newlines |
| Glob.CompilationPreservesMeaning | internal/proxy/filter.go:61-71 | on newline-free names the compiled expression accepts exactly what the glob means |
| Glob.GlobLaws | internal/proxy/filter.go:61-65 | "*" is any run, "?" any one character, anything else itself, and nothing matches nothing |
| Glob.NewlineEscapesStar | internal/proxy/filter.go:61-71 | a name with a newline that "*" should match and does not |
| Glob.NameIsSafeIff | internal/proxy/filter.go:61-71 | all globs treat a name as documented exactly when it has no newline |
| Glob.GlobIsSafeIff | internal/proxy/filter.go:61-71 | a glob treats all names as documented exactly when it has no wildcard |
| Filter.CompileRule | internal/proxy/filter.go:29-47 | the compiled filter is the usable part of the rule; without one it lets all pass |
| Filter.Allows | internal/proxy/filter.go:48-58 | the closure exposes a name exactly when the rule does |
| Filter.RuleMeaning | internal/proxy/filter.go:29-59 | an allow rule exposes the names that some glob which compiles matches, a rule whose mode is "block" up to case the others, and a rule without a glob that compiles all |
| Registry.ComputeMissing | internal/proxy/registry.go:132-144 | what was remembered and is not listed now, in order |
| Registry.MissingElements | internal/proxy/registry.go:132-144 | as sets this is the difference |
| Registry.AcceptedIff | internal/proxy/registry.go:33-43 | exactly the items that pass the filter and are listed before any error are accepted |
| Registry.PassingInOrder | internal/proxy/registry.go:33-43 | they come in the order of the listing, each as often as it is listed |
| Registry.Mirror.Register | internal/proxy/registry.go:30-52 | one pass: after a complete listing exactly the listed names that pass are remembered, and they are on the server; a failed one remembers nothing new; nothing else is added |
| Registry.Capabilities.RegisterCapabilities | internal/proxy/registry.go:16-28 | each of the four kinds is synchronised on its own; nothing happens without a template |
| Registry.CleanRunsAgree | internal/proxy/registry.go:30-113 | over listings that complete or fail at once the server holds the remembered names, the filtered last complete listing |
| Registry.OnlyFilteredIsRegistered | internal/proxy/registry.go:30-113 | over all runs everything registered passes the filter and what is remembered is registered |
| Registry.FailedPassExactIff | internal/proxy/registry.go:36-40 | a failing listing leaves the mirror exact exactly when it was exact and what was accepted before the failure is remembered already |
| Registry.StraysAreLeft | internal/proxy/registry.go:30-52 | over all histories, a name is on the server without being remembered exactly when some failed listing accepted it while it was not remembered and no later complete listing accepted it |
| Registry.MirrorIsExactIff | internal/proxy/registry.go:30-52 | over all histories the mirror is exact exactly when the listings contain no such name |
| Registry.ExactAgainIff | internal/proxy/registry.go:42-51 | a complete listing makes the mirror exact exactly when it lists every stray left by failed ones |
| Registry.PartialListingLeavesStray | internal/proxy/registry.go:36-40 | a listing that fails part-way does leave a stray |
| Roots.Session.SyncRoots | internal/proxy/proxy.go:510-537 | a call met by no other leaves the upstream with exactly the listed roots; a failed listing changes nothing |
| Roots.InOrderIsExact | internal/proxy/proxy.go:527-536 | from the swap on: calls that each finish before the next one tells the upstream anything leave it with the list remembered last |
| Roots.OverlapIsExactIff | internal/proxy/proxy.go:527-536 | from the swap on: calls that swap in a given order leave the upstream with the list remembered last in every schedule exactly when each list is within that one and drops nothing of it that the one before had |
| Roots.TwoCallsAreExactIff | internal/proxy/proxy.go:527-536 | the same for two calls: the list swapped in first is within the second, which brings nothing back that the first dropped |
| Roots.DroppedRootStays | internal/proxy/proxy.go:531-536 | a run in which a later call overtakes an earlier one and a dropped root stays |
| Roots.DroppedRootStaysInOrder | internal/proxy/proxy.go:531-536 | a run in which the calls return in order, with interleaved updates, and a dropped root stays |
| RootsListing.InTurnIsExact | internal/proxy/proxy.go:519-536 | calls that swap in the order in which they listed, and each finish before the next one tells the upstream anything, leave it with the client's last answer |
| RootsListing.OverlapIsLatestIff | internal/proxy/proxy.go:519-536 | over every order of swaps and every schedule of any number of overlapping calls, the upstream ends with the client's last answer exactly when all calls got that answer |
| RootsListing.StaleAnswerWins | internal/proxy/proxy.go:519-530 | a run in which the call that listed first swaps last and a dropped root stays, though in the order of the swaps nothing comes back |
| RootsListing.OpenedIsExactIff | internal/proxy/proxy.go:541-552 | a change that the client makes between the listing in dial and the commit is lost: the upstream is exact exactly when the roots at the commit are those of the listing, or the client changes them again later |
| RootsListing.ChangeWhileDialing | internal/proxy/proxy.go:541-552 | a run in which a root dropped while dialing stays |
| Config.Options.NormalizeFilter | internal/proxy/config_deprecated.go:116-127 | the deprecated rule is folded into the filter, through the pointer |
| Config.ResolveOptions | internal/proxy/config.go:356-377 | in any map order and with shared filters, each upstream ends with its own tokens, flags and rules where it sets them and the proxy's where it does not, and with its other options as they were; the result can be resolved again |
| Config.EffectiveIff | internal/proxy/config.go:364-377 | that describes one value |
| Config.ProxyOptionReaches | internal/proxy/config.go:368-377 | a change of the proxy's tokens, or of one of its flags, changes exactly the upstreams that do not set it themselves |
| Config.PassIsIdempotent | internal/proxy/config.go:356-377 | a second pass changes nothing |
| Config.SpellingsLoadEqual | internal/proxy/config_deprecated.go:116-127 | for every block without a tool rule of its own, other filters or not, the deprecated and the current spelling of a tool filter mean the same; an explicit rule wins over the deprecated one |
| Config.FoldingIsCanonical | internal/proxy/config_deprecated.go:116-127 | folding keeps what a block means (its rules, whether it has a filter block, its other options), and two blocks mean the same exactly when they fold to the same |
| Config.LoadEqualIff | internal/proxy/config.go:356-377 | two blocks load deep-equal under every proxy's options exactly when they mean the same |
| Config.ProxyFilterReaches | internal/proxy/config.go:364-367 | a change of the proxy's filter changes exactly the upstreams without a filter block of their own, in either spelling |
| Respelling.RespellingIsNoOp | internal/proxy/manager.go:202 | a reload from one spelling of a config file to another changes no record, no state and no mounted pattern, and stops no upstream |
| Respelling.ModernizingIsRespelling | internal/proxy/config_deprecated.go:116-127 | moving the tool filter of a server or of the proxy to the current spelling is such a change |
| Respelling.LoadedMeaning | internal/proxy/config.go:356-377 | loading keeps every server and its endpoint, and gives it what it does not set itself |
| Url.WrittenParses | internal/proxy/repo.go:175-177 | a URL of well-formed scheme, user, host and port (section 3.2 of RFC 3986, the user with or without escapes) parses to its host with port and to what its path spells, and does not parse exactly when an escape in the path is broken |
| Url.EscapesSpell | internal/proxy/repo.go:175-177 | escapes, in capitals or in lower case, spell the bytes they were made from |
| Url.FragmentIsDropped | internal/proxy/repo.go:175-177 | a fragment makes no difference to a parsed URL |
| Url.QueryIsDropped | internal/proxy/repo.go:175-177 | nor does a query |
| Url.StripPortName | internal/proxy/repo.go:156-161 | a name loses its port and nothing else |
| Url.StripPortLiteral | internal/proxy/repo.go:156-161 | an address literal loses its brackets and its port |
| Remote.SpelledKey | internal/proxy/repo.go:166-181 | every spelling of a remote has the key host, port and path in lower case, whatever scheme, user, escapes in a URL, ".git" or trailing slashes; the path is what the text spells |
| Remote.KeysAreLower | internal/proxy/repo.go:179-180 | no key holds a capital, whatever it is made from |
| Strings.LowerSameIff | internal/proxy/repo.go:179-179 | two texts are the same in lower case exactly when they differ in nothing but the case of letters |
| Remote.SpellingsAgree | internal/proxy/repo.go:163-181 | scp, ssh and https spellings of one host, port and path have one key |
| Remote.SameTextSameKeyIff | internal/proxy/repo.go:168-177 | the same text of a path gives the scp and the URL spelling the same key exactly when it holds no percent sign, whole escapes or broken ones |
| Remote.EscapedPathsDiffer | internal/proxy/repo.go:168-177 | git@h:a%20b and https://h/a%20b have different keys, for any user, scheme and host |
| Remote.NoUserSameKeyIff | internal/proxy/repo.go:169-173 | an scp form without a user has the key of its host and path exactly when the path holds no "@" |
| Remote.SameKeyIff | internal/proxy/repo.go:166-181 | two remotes share a key exactly when the ports are equal and host and path agree up to case |
| Remote.SpelledHost | internal/proxy/repo.go:149-152 | the host of a key is the host of the remote, whatever port it has |
| Remote.SpelledEntry | internal/proxy/repo.go:128-145 | every spelling of a host entry gates that host |
| Remote.HostMatchesIff | internal/proxy/repo.go:122-152 | a host entry matches a remote exactly when the hosts agree up to case |
| RepoMatcher.RemoteFormIff | internal/proxy/repo.go:107-120 | an entry is a remote exactly if it holds "://" or has the form user@host:path with the colon before any slash |
| RepoMatcher.NoHostEntry | internal/proxy/repo.go:137-143 | a path, an scp form and a name without a dot inside are no hosts |
| RepoMatcher.AddEntry | internal/proxy/repo.go:48-70 | an entry is read as a host, a remote, a local repository or a bare host, in that order, or ignored |
| RepoMatcher.NewRepoMatcher | internal/proxy/repo.go:39-79 | no matcher for an empty list; otherwise its sets hold exactly what the entries are read as |
| RepoMatcher.AdvertiseTo | internal/proxy/proxy.go:724-732 | the whole gate: a client is admitted exactly when there is no whitelist or some entry admits one of its directories |
| RepoMatcher.Matches | internal/proxy/repo.go:83-102 | true exactly when some directory is admitted by its common dir, a remote's key or a remote's host |
| RepoMatcher.WhitelistMeaning | internal/proxy/repo.go:39-102 | a directory is admitted exactly when one entry admits it |
| RepoMatcher.FailsClosed | internal/proxy/repo.go:71-77 | a whitelist without a usable entry admits nobody |
| RepoMatcher.RepositoryEntry | internal/proxy/repo.go:53-60 | a spelled repository is read as its key, never as a host; an scp form without a user is not read as a repository |
| RepoMatcher.RepositoryAdmitsIff | internal/proxy/repo.go:81-102 | a repository entry admits a clone exactly when one of its remotes has the entry's port, and host and path up to case, however all are spelled |
| RepoMatcher.HostAdmitsIff | internal/proxy/repo.go:81-102 | a host entry, a bare one if it is no local repository, admits exactly the clones one of whose remotes is on that host, by any scheme, user and port |
| RepoMatcher.LocalAdmitsIff | internal/proxy/repo.go:61-64 | a local repository admits exactly the directories with its common dir, even if the entry looks like a host |

## Left out

- `watchTemplate` and `reconnect`: `connect` publishes a context and a template without looking at the generation, so with a reconnect racing a teardown "not connected implies no template" is not an invariant. The lifecycle has no reconnect.
- `removeServer` and `closeAll` racing a dial: their `close()` does not advance the generation; generation safety is stated for `teardown` only.
- "No call in flight is ever torn down": a request can begin between the monitor's decision and the teardown's lock. The soundness of the decision is stated instead.
- "The reaper never closes a live client": the live set is read before the lock is taken. The reaper is stated to remove exactly the ids absent from its snapshot.
- Idempotence of `normalizeRemote`: false for keys with a port and for a path that ends in ".git.git".
- V1 config adaptation: it drops fields, so it is not meaning-preserving.
- 64-bit wrap-around of the generation and of nanosecond clocks: both are unbounded integers.
- Strings outside ASCII: lower-casing is of ASCII letters only, and strings are sequences of characters, not UTF-8 bytes. White space is that of `unicode.IsSpace`.
- regexp: of its syntax only what a compiled glob can hold; its size limit is a parameter.
- net/url: only the host and the path of a parsed URL, with names, ports, users, escapes, queries and fragments; IPv6 zones and the validity of address literals are not part of this model.
- Remote.SpelledKey: for hosts that are registered names without escapes (Go accepts escapes in a host only of bytes outside ASCII and of the percent sign); an IPv6 literal is covered by `Url.StripPortLiteral` alone.
- Idle.MonitorIdle: the ticker is ideal, so a round must be shorter than an interval; ticks that are dropped are not modelled.
- RootsListing.OpenedIsExactIff: the calls that mirror later changes run one at a time; that overlapping ones go wrong is `RootsListing.OverlapIsLatestIff`.
- LifecycleRefinement.NoContextFallsBack: a dial before any context was published is taken to fail like one on a cancelled context; what Go does with a nil context there is not part of this model.
- Manager.ProxyManager.AddServer: one server at a time; the interleaving of the parallel boot is in `Boot`. The source's single methods are split into one method per mutation, so that the state after each can be recorded.
- Boot.ReadyMeansResolved: a panic during registration, which `boot` recovers and marks failed, is not modelled.
- Requests.AttemptsAreAllowedCalls: an attempt is a call of `ensureConnected`; whether it finds a live backend is the lifecycle's concern. `begin` and `end` are single steps here; their two atomic operations are in `Idle`.
- RepoMatcher.AdvertiseTo: the client's directories are a parameter; `clientRepoDirs`, which collects them, is not modelled.
- `clientRepoDirs`, header replay, resource subscriptions, completion and log relay: they only pass values on.
- SDK transports, HTTP serving, process groups, git processes, signals, file polling, systemd and launchd: I/O or foreign calls.
