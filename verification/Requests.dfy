/**
 The handler chain of one route (internal/proxy/manager.go, internal/proxy/http.go and the
 middleware of internal/proxy/idle.go), and the requests that run through it concurrently.
 */
module Requests {
  import opened Strings
  import opened ActivityTracker

  // ---- building the chain ----

  datatype Kind = OfProcess | OfUpstream

  datatype Middleware = Recover | Log | Auth(tokens: seq<string>) | Activity(kind: Kind)

  datatype Handler = Core | Wrapped(mw: Middleware, next: Handler)

  /** What decides the chain of a route; `isLazy` routes end in the on-demand connect. */
  datatype Route = Route(logEnabled: bool, tokens: seq<string>, processIdle: bool, isLazy: bool)

  method Middlewares(r: Route) returns (mws: seq<Middleware>)
    ensures mws == Listed(r)
  {
    mws := [Recover];
    if r.logEnabled {
      mws := mws + [Log];
    }
    if |r.tokens| > 0 {
      mws := mws + [Auth(r.tokens)];
    }
    if r.processIdle {
      mws := mws + [Activity(OfProcess)];
    }
    if r.isLazy {
      mws := mws + [Activity(OfUpstream)];
    }
  }

  function Listed(r: Route): seq<Middleware> {
    [Recover]
    + (if r.logEnabled then [Log] else [])
    + (if |r.tokens| > 0 then [Auth(r.tokens)] else [])
    + (if r.processIdle then [Activity(OfProcess)] else [])
    + (if r.isLazy then [Activity(OfUpstream)] else [])
  }

  /** The middlewares a request meets, in the order it meets them. */
  function Layers(h: Handler): seq<Middleware> {
    match h
    case Core => []
    case Wrapped(mw, next) => [mw] + Layers(next)
  }

  function Reversed(s: seq<Middleware>): seq<Middleware> {
    if s == [] then [] else [s[|s| - 1]] + Reversed(s[..|s| - 1])
  }

  /** The last middleware becomes the outermost. */
  method ChainMiddleware(h: Handler, mws: seq<Middleware>) returns (r: Handler)
    ensures Layers(r) == Reversed(mws) + Layers(h)
  {
    r := h;
    var i := 0;
    while i < |mws|
      invariant 0 <= i <= |mws| && Layers(r) == Reversed(mws[..i]) + Layers(h)
    {
      ReversedNext(mws, i, Layers(h));
      r := Wrapped(mws[i], r);
      i := i + 1;
    }
    assert mws[..i] == mws;
  }

  lemma ReversedNext(mws: seq<Middleware>, i: nat, rest: seq<Middleware>)
    requires i < |mws|
    ensures [mws[i]] + (Reversed(mws[..i]) + rest) == Reversed(mws[..i + 1]) + rest
  {
    assert mws[..i + 1][..i] == mws[..i];
    var s := Reversed(mws[..i]);
    assert [mws[i]] + (s + rest) == [mws[i]] + s + rest;
  }

  method RouteHandler(r: Route) returns (h: Handler)
    ensures Layers(h) == Stack(r)
  {
    var mws := Middlewares(r);
    h := ChainMiddleware(Core, mws);
    StackIsReversed(r);
  }

  /** Activity outermost, then auth, then the log, with the recovery around the core alone. */
  function Stack(r: Route): seq<Middleware> {
    (if r.isLazy then [Activity(OfUpstream)] else [])
    + (if r.processIdle then [Activity(OfProcess)] else [])
    + (if |r.tokens| > 0 then [Auth(r.tokens)] else [])
    + (if r.logEnabled then [Log] else [])
    + [Recover]
  }

  lemma {:induction false} ReversedConcat(s: seq<Middleware>, t: seq<Middleware>)
    ensures Reversed(s + t) == Reversed(t) + Reversed(s)
  {
    if t == [] {
      assert s + t == s;
    } else {
      assert (s + t)[..|s + t| - 1] == s + t[..|t| - 1];
      ReversedConcat(s, t[..|t| - 1]);
    }
  }

  lemma ReversedOne(b: bool, m: Middleware)
    ensures Reversed(if b then [m] else []) == if b then [m] else []
  {
    assert [m][..0] == [];
  }

  lemma ReversedFive(a: seq<Middleware>, b: seq<Middleware>, c: seq<Middleware>, d: seq<Middleware>, e: seq<Middleware>)
    ensures Reversed(a + b + c + d + e) == Reversed(e) + Reversed(d) + Reversed(c) + Reversed(b) + Reversed(a)
  {
    ReversedConcat(a + b + c + d, e);
    ReversedConcat(a + b + c, d);
    ReversedConcat(a + b, c);
    ReversedConcat(a, b);
    Associate(Reversed(e), Reversed(d), Reversed(c), Reversed(b), Reversed(a));
  }

  lemma Associate(a: seq<Middleware>, b: seq<Middleware>, c: seq<Middleware>, d: seq<Middleware>, e: seq<Middleware>)
    ensures a + (b + (c + (d + e))) == a + b + c + d + e
  {
    assert b + (c + (d + e)) == b + c + (d + e);
    assert b + c + (d + e) == b + c + d + e;
    assert a + (b + c + d + e) == a + b + c + d + e;
  }

  lemma StackIsReversed(r: Route)
    ensures Reversed(Listed(r)) == Stack(r)
  {
    ReversedFive([Recover],
                 if r.logEnabled then [Log] else [],
                 if |r.tokens| > 0 then [Auth(r.tokens)] else [],
                 if r.processIdle then [Activity(OfProcess)] else [],
                 if r.isLazy then [Activity(OfUpstream)] else []);
    ReversedOne(true, Recover);
    ReversedOne(r.logEnabled, Log);
    ReversedOne(|r.tokens| > 0, Auth(r.tokens));
    ReversedOne(r.processIdle, Activity(OfProcess));
    ReversedOne(r.isLazy, Activity(OfUpstream));
  }

  // ---- who may pass ----

  method NewTokenSet(tokens: seq<string>) returns (tokenSet: set<string>)
    ensures tokenSet == set t | t in tokens
  {
    tokenSet := {};
    var i := 0;
    while i < |tokens|
      invariant 0 <= i <= |tokens| && tokenSet == set t | t in tokens[..i]
    {
      assert tokens[..i + 1] == tokens[..i] + [tokens[i]];
      tokenSet := tokenSet + {tokens[i]};
      i := i + 1;
    }
    assert tokens[..i] == tokens;
  }

  const BEARER := "Bearer "

  predicate Passes(tokens: seq<string>, authorization: string) {
    |tokens| != 0 ==>
      var token := TrimSpace(TrimPrefix(authorization, BEARER));
      token != "" && token in tokens
  }

  /**
   Exactly the configured tokens that have no blanks at their ends pass, with or without "Bearer ",
   between blanks.
  */
  lemma PassesIff(tokens: seq<string>, authorization: string)
    ensures Passes(tokens, authorization) <==>
            tokens == [] || exists t, a, b ::
                t in tokens && t != "" && IsTrimmed(t, IsSpace) && All(a, IsSpace) && All(b, IsSpace)
                                              && TrimPrefix(authorization, BEARER) == a + t + b
  {
    var rest := TrimPrefix(authorization, BEARER);
    TrimIff(rest, TrimSpace(rest), IsSpace);
    forall t, a, b | t in tokens && t != "" && IsTrimmed(t, IsSpace) && All(a, IsSpace) && All(b, IsSpace)
      && rest == a + t + b
      ensures TrimSpace(rest) == t
    {
      TrimOf(a, t, b, IsSpace);
    }
  }

  // ---- requests in the chain ----

  datatype Req = Req(verb: string, authorization: string)

  /** Going down through the layers, in the core, or returning with `d` layers still to return from. */
  datatype At = Down(d: nat) | Inside | Up(d: nat, code: nat, panicking: bool)

  datatype Exchange = Exchange(req: Req, at: At)

  datatype Answer = Answer(req: Req, code: nat, panicking: bool)

  datatype Gateway = Gateway(
    open: map<nat, Exchange>,
    process: Meter,
    upstream: Meter,
    attempts: seq<Req>,
    served: seq<Req>,
    answers: seq<Answer>)

  /** How the on-demand connect goes: a live backend, an error, or a panic. */
  datatype Outcome = Ready | Refused | Panics

  datatype Action =
    | Arrive(id: nat, req: Req)
    | Enter(id: nat, now: int)
    | Connect(id: nat, now: int, outcome: Outcome)
    | Reply(id: nat, code: nat, panics: bool)
    | Leave(id: nat, now: int)
    | Finish(id: nat)

  function Init(now: int): Gateway {
    Gateway(map[], Meter(0, now), Meter(0, now), [], [], [])
  }

  predicate AtDown(g: Gateway, id: nat) {
    id in g.open && g.open[id].at.Down?
  }

  predicate AtUp(g: Gateway, id: nat) {
    id in g.open && g.open[id].at.Up?
  }

  predicate Enabled(r: Route, g: Gateway, a: Action) {
    match a
    case Arrive(id, _) => id !in g.open
    case Enter(id, _) => AtDown(g, id) && g.open[id].at.d < |Stack(r)|
    case Connect(id, _, _) => AtDown(g, id) && g.open[id].at.d == |Stack(r)|
    case Reply(id, _, _) => id in g.open && g.open[id].at == Inside
    case Leave(id, _) => AtUp(g, id) && 0 < g.open[id].at.d <= |Stack(r)|
    case Finish(id) => AtUp(g, id) && g.open[id].at.d == 0
  }

  function Move(g: Gateway, id: nat, at: At): Gateway
    requires id in g.open
  {
    g.(open := g.open[id := g.open[id].(at := at)])
  }

  function MeterOf(g: Gateway, k: Kind): Meter {
    if k.OfProcess? then g.process else g.upstream
  }

  function WithMeter(g: Gateway, k: Kind, m: Meter): Gateway {
    if k.OfProcess? then g.(process := m) else g.(upstream := m)
  }

  function EnterLayer(g: Gateway, id: nat, mw: Middleware, d: nat, now: int): Gateway
    requires id in g.open
  {
    match mw
    case Recover | Log => Move(g, id, Down(d + 1))
    case Auth(tokens) =>
      Move(g, id, if Passes(tokens, g.open[id].req.authorization) then Down(d + 1) else Up(d, 401, false))
    case Activity(k) =>
      if g.open[id].req.verb == "GET" then Move(g, id, Down(d + 1))
      else WithMeter(Move(g, id, Down(d + 1)), k, Begun(MeterOf(g, k), now))
  }

  /** The innermost handler: only a lazy route, and only for a request that is not a bare GET, connects first. */
  function EnterCore(r: Route, g: Gateway, id: nat, now: int, outcome: Outcome): Gateway
    requires id in g.open
  {
    if r.isLazy && g.open[id].req.verb != "GET" then
      var tried := g.(attempts := g.attempts + [g.open[id].req]);
      match outcome
      case Ready => Move(tried.(upstream := Touched(tried.upstream, now)), id, Inside)
      case Refused => Move(tried, id, Up(|Stack(r)|, 503, false))
      case Panics => Move(tried, id, Up(|Stack(r)|, 0, true))
    else Move(g, id, Inside)
  }

  function LeaveLayer(g: Gateway, id: nat, mw: Middleware, up: At, now: int): Gateway
    requires id in g.open && up.Up? && up.d > 0
  {
    match mw
    case Recover => Move(g, id, if up.panicking then Up(up.d - 1, 500, false) else Up(up.d - 1, up.code, false))
    case Log | Auth(_) => Move(g, id, Up(up.d - 1, up.code, up.panicking))
    case Activity(k) =>
      if g.open[id].req.verb == "GET" then Move(g, id, Up(up.d - 1, up.code, up.panicking))
      else WithMeter(Move(g, id, Up(up.d - 1, up.code, up.panicking)), k, Ended(MeterOf(g, k), now))
  }

  function Apply(r: Route, g: Gateway, a: Action): Gateway
    requires Enabled(r, g, a)
  {
    match a
    case Arrive(id, req) => g.(open := g.open[id := Exchange(req, Down(0))])
    case Enter(id, now) => EnterLayer(g, id, Stack(r)[g.open[id].at.d], g.open[id].at.d, now)
    case Connect(id, now, outcome) => EnterCore(r, g, id, now, outcome)
    case Reply(id, code, panics) =>
      Move(g, id, Up(|Stack(r)|, code, panics)).(served := g.served + [g.open[id].req])
    case Leave(id, now) => LeaveLayer(g, id, Stack(r)[g.open[id].at.d - 1], g.open[id].at, now)
    case Finish(id) =>
      var e := g.open[id];
      g.(open := g.open - {id}, answers := g.answers + [Answer(e.req, e.at.code, e.at.panicking)])
  }

  ghost predicate IsRun(r: Route, run: seq<Gateway>, acts: seq<Action>) {
    && |run| == |acts| + 1 && (exists now :: run[0] == Init(now))
    && forall i | 0 <= i < |acts| :: Enabled(r, run[i], acts[i]) && run[i + 1] == Apply(r, run[i], acts[i])
  }

  // ---- where each layer is ----

  predicate Tracks(r: Route, k: Kind) {
    if k.OfUpstream? then r.isLazy else r.processIdle
  }

  function TrackPos(r: Route, k: Kind): nat {
    if k.OfProcess? && r.isLazy then 1 else 0
  }

  function AuthPos(r: Route): nat {
    (if r.isLazy then 1 else 0) + (if r.processIdle then 1 else 0)
  }

  lemma StackShape(r: Route, i: nat)
    requires i < |Stack(r)|
    ensures forall k :: Stack(r)[i] == Activity(k) <==> Tracks(r, k) && i == TrackPos(r, k)
    ensures Stack(r)[i].Auth? <==> |r.tokens| > 0 && i == AuthPos(r)
    ensures Stack(r)[i].Auth? ==> Stack(r)[i] == Auth(r.tokens)
    ensures Stack(r)[i].Recover? <==> i == |Stack(r)| - 1
  {
  }

  lemma StackLength(r: Route)
    ensures |Stack(r)| > AuthPos(r) && (|r.tokens| > 0 ==> |Stack(r)| > AuthPos(r) + 1)
  {
  }

  function Depth(r: Route, e: Exchange): nat {
    match e.at
    case Down(d) => d
    case Inside => |Stack(r)|
    case Up(d, _, _) => d
  }

  // ---- the invariant ----

  predicate Allowed(r: Route, req: Req) {
    Passes(r.tokens, req.authorization)
  }

  /** How far a request gets that may not pass, and how far a panic does. */
  predicate ExchangeOk(r: Route, e: Exchange) {
    && Depth(r, e) <= |Stack(r)|
    && (!Allowed(r, e.req) ==>
          && Depth(r, e) <= AuthPos(r) && !e.at.Inside?
          && (e.at.Up? ==> e.at.code == 401 && !e.at.panicking))
    && (e.at.Up? && e.at.panicking ==> e.at.d == |Stack(r)|)
  }

  /** The exchange has entered the activity layer and not left it. */
  predicate Counts(r: Route, e: Exchange, k: Kind) {
    e.req.verb != "GET" && Tracks(r, k) && Depth(r, e) > TrackPos(r, k)
  }

  function Counter(r: Route, k: Kind): Exchange -> bool {
    e => Counts(r, e, k)
  }

  function Where(open: map<nat, Exchange>, p: Exchange -> bool): set<nat> {
    set id | id in open && p(open[id])
  }

  lemma WhereMove(open: map<nat, Exchange>, id: nat, e: Exchange, p: Exchange -> bool)
    requires id in open
    ensures |Where(open[id := e], p)| == |Where(open, p)| + (if p(e) then 1 else 0) - (if p(open[id]) then 1 else 0)
  {
    assert Where(open[id := e], p) == Where(open, p) - {id} + if p(e) then {id} else {};
  }

  function Counted(r: Route, open: map<nat, Exchange>, k: Kind): nat {
    |Where(open, Counter(r, k))|
  }

  predicate HistoryOk(r: Route, g: Gateway) {
    && (forall q | q in g.attempts :: r.isLazy && q.verb != "GET" && Allowed(r, q))
    && (forall q | q in g.served :: Allowed(r, q))
    && forall w | w in g.answers :: !w.panicking && (!Allowed(r, w.req) ==> w.code == 401)
  }

  ghost predicate Inv(r: Route, g: Gateway) {
    && (forall id | id in g.open :: ExchangeOk(r, g.open[id]))
    && HistoryOk(r, g)
    && forall k :: MeterOf(g, k).inflight == Counted(r, g.open, k)
  }

  function One(b: bool): int {
    if b then 1 else 0
  }

  /** One exchange moves and the trackers follow. */
  lemma MoveKeeps(r: Route, g: Gateway, h: Gateway, id: nat, e: Exchange)
    requires Inv(r, g) && id in g.open && h.open == g.open[id := e]
    requires ExchangeOk(r, e) && HistoryOk(r, h)
    requires forall k ::
               MeterOf(h, k).inflight == MeterOf(g, k).inflight + One(Counts(r, e, k)) - One(Counts(r, g.open[id], k))
    ensures Inv(r, h)
  {
    forall k ensures MeterOf(h, k).inflight == Counted(r, h.open, k) {
      WhereMove(g.open, id, e, Counter(r, k));
    }
  }

  lemma EnterKeeps(r: Route, g: Gateway, a: Action)
    requires Inv(r, g) && a.Enter? && Enabled(r, g, a)
    ensures Inv(r, Apply(r, g, a))
  {
    var e := g.open[a.id];
    EnterOne(r, g, a, e);
    MoveKeeps(r, g, Apply(r, g, a), a.id, Apply(r, g, a).open[a.id]);
  }

  lemma EnterOne(r: Route, g: Gateway, a: Action, e: Exchange)
    requires a.Enter? && Enabled(r, g, a) && e == g.open[a.id] && ExchangeOk(r, e) && HistoryOk(r, g)
    ensures var h := Apply(r, g, a);
            && h.open == g.open[a.id := h.open[a.id]]
            && ExchangeOk(r, h.open[a.id]) && HistoryOk(r, h)
            && forall k ::
                MeterOf(h, k).inflight
                  == MeterOf(g, k).inflight + One(Counts(r, h.open[a.id], k)) - One(Counts(r, e, k))
  {
    StackShape(r, e.at.d);
    StackLength(r);
  }

  lemma ConnectKeeps(r: Route, g: Gateway, a: Action)
    requires Inv(r, g) && a.Connect? && Enabled(r, g, a)
    ensures Inv(r, Apply(r, g, a))
  {
    ConnectOne(r, g, a, g.open[a.id]);
    MoveKeeps(r, g, Apply(r, g, a), a.id, Apply(r, g, a).open[a.id]);
  }

  lemma ConnectOne(r: Route, g: Gateway, a: Action, e: Exchange)
    requires a.Connect? && Enabled(r, g, a) && e == g.open[a.id] && ExchangeOk(r, e) && HistoryOk(r, g)
    ensures var h := Apply(r, g, a);
            && h.open == g.open[a.id := h.open[a.id]]
            && ExchangeOk(r, h.open[a.id]) && HistoryOk(r, h) && Depth(r, h.open[a.id]) == Depth(r, e)
            && h.open[a.id].req == e.req && forall k :: MeterOf(h, k).inflight == MeterOf(g, k).inflight
  {
    StackLength(r);
  }

  lemma ReplyKeeps(r: Route, g: Gateway, a: Action)
    requires Inv(r, g) && a.Reply? && Enabled(r, g, a)
    ensures Inv(r, Apply(r, g, a))
  {
    MoveKeeps(r, g, Apply(r, g, a), a.id, Apply(r, g, a).open[a.id]);
  }

  lemma LeaveKeeps(r: Route, g: Gateway, a: Action)
    requires Inv(r, g) && a.Leave? && Enabled(r, g, a)
    ensures Inv(r, Apply(r, g, a))
  {
    LeaveOne(r, g, a, g.open[a.id]);
    LeaveCount(r, g, a, g.open[a.id]);
    MoveKeeps(r, g, Apply(r, g, a), a.id, Apply(r, g, a).open[a.id]);
  }

  lemma LeaveOne(r: Route, g: Gateway, a: Action, e: Exchange)
    requires a.Leave? && Enabled(r, g, a) && e == g.open[a.id] && ExchangeOk(r, e) && HistoryOk(r, g)
    ensures var h := Apply(r, g, a);
            h.open == g.open[a.id := h.open[a.id]] && ExchangeOk(r, h.open[a.id]) && HistoryOk(r, h)
  {
    StackShape(r, e.at.d - 1);
    LeaveLayerOne(r, g, a.id, Stack(r)[e.at.d - 1], e, a.now);
  }

  lemma LeaveLayerOne(r: Route, g: Gateway, id: nat, mw: Middleware, e: Exchange, now: int)
    requires id in g.open && g.open[id] == e && e.at.Up? && e.at.d > 0 && ExchangeOk(r, e) && HistoryOk(r, g)
    requires mw.Recover? <==> e.at.d == |Stack(r)|
    ensures var h := LeaveLayer(g, id, mw, e.at, now);
            h.open == g.open[id := h.open[id]] && ExchangeOk(r, h.open[id]) && HistoryOk(r, h)
  {
  }

  lemma LeaveCount(r: Route, g: Gateway, a: Action, e: Exchange)
    requires a.Leave? && Enabled(r, g, a) && e == g.open[a.id]
    ensures var h := Apply(r, g, a);
            forall k ::
                MeterOf(h, k).inflight
                  == MeterOf(g, k).inflight + One(Counts(r, h.open[a.id], k)) - One(Counts(r, e, k))
  {
    StackShape(r, e.at.d - 1);
    LeaveLayerCount(r, g, a.id, Stack(r)[e.at.d - 1], e, a.now);
  }

  lemma LeaveLayerCount(r: Route, g: Gateway, id: nat, mw: Middleware, e: Exchange, now: int)
    requires id in g.open && g.open[id] == e && e.at.Up? && e.at.d > 0
    requires forall k :: mw == Activity(k) <==> Tracks(r, k) && e.at.d - 1 == TrackPos(r, k)
    ensures var h := LeaveLayer(g, id, mw, e.at, now);
            forall k ::
                MeterOf(h, k).inflight == MeterOf(g, k).inflight + One(Counts(r, h.open[id], k)) - One(Counts(r, e, k))
  {
  }

  lemma EdgeKeeps(r: Route, g: Gateway, a: Action)
    requires Inv(r, g) && (a.Arrive? || a.Finish?) && Enabled(r, g, a)
    ensures Inv(r, Apply(r, g, a))
  {
    StackLength(r);
    forall k ensures MeterOf(Apply(r, g, a), k).inflight == Counted(r, Apply(r, g, a).open, k) {
      assert MeterOf(g, k).inflight == Counted(r, g.open, k);
      assert Where(Apply(r, g, a).open, Counter(r, k)) == Where(g.open, Counter(r, k));
    }
  }

  lemma {:induction false} RunKeepsInv(r: Route, run: seq<Gateway>, acts: seq<Action>, i: nat)
    requires IsRun(r, run, acts) && i < |run|
    ensures Inv(r, run[i])
  {
    if i > 0 {
      RunKeepsInv(r, run, acts, i - 1);
      match acts[i - 1]
      case Enter(_, _) => EnterKeeps(r, run[i - 1], acts[i - 1]);
      case Connect(_, _, _) => ConnectKeeps(r, run[i - 1], acts[i - 1]);
      case Reply(_, _, _) => ReplyKeeps(r, run[i - 1], acts[i - 1]);
      case Leave(_, _) => LeaveKeeps(r, run[i - 1], acts[i - 1]);
      case _ => EdgeKeeps(r, run[i - 1], acts[i - 1]);
    } else {
      assert forall k :: Where(run[0].open, Counter(r, k)) == {};
    }
  }

  // ---- what every run promises ----

  /** A backend is started only for a request that passed auth and is not a bare GET, on a lazy route. */
  lemma AttemptsAreAllowedCalls(r: Route, run: seq<Gateway>, acts: seq<Action>, i: nat, q: Req)
    requires IsRun(r, run, acts) && i < |run| && q in run[i].attempts
    ensures r.isLazy && q.verb != "GET" && Passes(r.tokens, q.authorization)
  {
    RunKeepsInv(r, run, acts, i);
  }

  /** Only allowed requests reach the server; the others are answered 401; no panic leaves the chain. */
  lemma OnlyAllowedAreServed(r: Route, run: seq<Gateway>, acts: seq<Action>, i: nat)
    requires IsRun(r, run, acts) && i < |run|
    ensures forall q | q in run[i].served :: Passes(r.tokens, q.authorization)
    ensures forall w | w in run[i].answers :: !w.panicking && (!Passes(r.tokens, w.req.authorization) ==> w.code == 401)
  {
    RunKeepsInv(r, run, acts, i);
  }

  /** The exchanges inside the handler that are not bare GETs. */
  function OpenCalls(r: Route, g: Gateway): set<nat> {
    set id | id in g.open && g.open[id].req.verb != "GET" && Depth(r, g.open[id]) > 0
  }

  /** The in-flight count of a lazy upstream is the number of open exchanges that are not bare GETs. */
  lemma InflightIsOpenCalls(r: Route, run: seq<Gateway>, acts: seq<Action>, i: nat)
    requires IsRun(r, run, acts) && i < |run|
    ensures run[i].upstream.inflight ==
            if r.isLazy then |OpenCalls(r, run[i])| else 0
  {
    RunKeepsInv(r, run, acts, i);
    var g := run[i];
    assert MeterOf(g, OfUpstream).inflight == Counted(r, g.open, OfUpstream);
    var counted := Where(g.open, Counter(r, OfUpstream));
    if r.isLazy {
      assert counted == OpenCalls(r, g);
    } else {
      assert counted == {};
    }
  }

  /** The exchange an action is about. */
  function Subject(g: Gateway, a: Action): Req
    requires a.Arrive? || a.id in g.open
  {
    if a.Arrive? then a.req else g.open[a.id].req
  }

  /** Whatever else is under way, a bare GET connects nothing, touches no clock and is not counted. */
  lemma GetChangesNothing(r: Route, g: Gateway, a: Action)
    requires Enabled(r, g, a) && Subject(g, a).verb == "GET"
    ensures var h := Apply(r, g, a);
            h.process == g.process && h.upstream == g.upstream && h.attempts == g.attempts
  {
  }

  /** GET-only traffic leaves the connection, the clocks and the counts as they were. */
  lemma {:induction false} GetTrafficChangesNothing(r: Route, run: seq<Gateway>, acts: seq<Action>, i: nat)
    requires IsRun(r, run, acts) && i < |run|
    requires forall a | a in acts && a.Arrive? :: a.req.verb == "GET"
    ensures run[i].process == run[0].process && run[i].upstream == run[0].upstream && run[i].attempts == []
    ensures forall id | id in run[i].open :: run[i].open[id].req.verb == "GET"
  {
    if i > 0 {
      GetTrafficChangesNothing(r, run, acts, i - 1);
      var a := acts[i - 1];
      assert a in acts;
      assert Enabled(r, run[i - 1], a);
      GetChangesNothing(r, run[i - 1], a);
    }
  }

  /** Any call counts as contact before auth looks at it, on a route that tracks its activity. */
  lemma ContactCounts(r: Route, g: Gateway, a: Action, k: Kind)
    requires Enabled(r, g, a) && a.Enter? && Subject(g, a).verb != "GET" && Tracks(r, k)
             && g.open[a.id].at.d == TrackPos(r, k)
    ensures MeterOf(Apply(r, g, a), k) == Meter(MeterOf(g, k).inflight + 1, a.now)
    ensures |r.tokens| > 0 ==> TrackPos(r, k) < AuthPos(r)
  {
    StackShape(r, g.open[a.id].at.d);
  }

  /** On its way out through the layer it is uncounted, and the clock is touched again. */
  lemma ReturnCounts(r: Route, g: Gateway, a: Action, k: Kind)
    requires Enabled(r, g, a) && a.Leave? && Subject(g, a).verb != "GET" && Tracks(r, k)
             && g.open[a.id].at.d == TrackPos(r, k) + 1
    ensures MeterOf(Apply(r, g, a), k) == Meter(MeterOf(g, k).inflight - 1, a.now)
  {
    StackShape(r, g.open[a.id].at.d - 1);
  }

  /** Past the activity layer, or returning. */
  predicate WentPast(r: Route, e: Exchange, k: Kind) {
    e.at.Up? || Depth(r, e) > TrackPos(r, k)
  }

  /** The action lets this call enter the activity layer, and it is counted. */
  predicate IsCounted(r: Route, g: Gateway, a: Action, h: Gateway, id: nat, req: Req, k: Kind) {
    && a.Enter? && a.id == id && id in g.open && g.open[id] == Exchange(req, Down(TrackPos(r, k)))
    && MeterOf(h, k) == Meter(MeterOf(g, k).inflight + 1, a.now)
  }

  /** Every call past the activity layer, and every call that returns, rejected or not, was counted when it came in. */
  lemma {:induction false} ReturningWasCounted(r: Route, run: seq<Gateway>, acts: seq<Action>, i: nat, id: nat, k: Kind)
    returns (j: nat)
    requires IsRun(r, run, acts) && i < |run| && id in run[i].open && Tracks(r, k)
    requires run[i].open[id].req.verb != "GET" && WentPast(r, run[i].open[id], k)
    ensures j < i && IsCounted(r, run[j], acts[j], run[j + 1], id, run[i].open[id].req, k)
  {
    assert i > 0;
    assert Enabled(r, run[i - 1], acts[i - 1]) && run[i] == Apply(r, run[i - 1], acts[i - 1]);
    var before := WasCounted(r, run[i - 1], acts[i - 1], run[i], id, k);
    if before {
      j := ReturningWasCounted(r, run, acts, i - 1, id, k);
    } else {
      j := i - 1;
    }
  }

  /** Before the action the call was past the layer already, or the action counts it. */
  lemma WasCounted(r: Route, g: Gateway, a: Action, h: Gateway, id: nat, k: Kind) returns (before: bool)
    requires Enabled(r, g, a) && h == Apply(r, g, a) && id in h.open && Tracks(r, k)
    requires h.open[id].req.verb != "GET" && WentPast(r, h.open[id], k)
    ensures before ==> id in g.open && g.open[id].req == h.open[id].req && WentPast(r, g.open[id], k)
    ensures !before ==> IsCounted(r, g, a, h, id, h.open[id].req, k)
  {
    before := !(a.Enter? && a.id == id && g.open[id].at.d == TrackPos(r, k));
    if before {
      WasPast(r, g, a, id, k);
    } else {
      ContactCounts(r, g, a, k);
      KeepsRequest(r, g, a);
    }
  }

  lemma KeepsRequest(r: Route, g: Gateway, a: Action)
    requires Enabled(r, g, a) && a.Enter?
    ensures a.id in Apply(r, g, a).open && Apply(r, g, a).open[a.id].req == g.open[a.id].req
  {
  }

  lemma WasPast(r: Route, g: Gateway, a: Action, id: nat, k: Kind)
    requires Enabled(r, g, a) && id in Apply(r, g, a).open && Tracks(r, k) && WentPast(r, Apply(r, g, a).open[id], k)
    requires !(a.Enter? && a.id == id && g.open[id].at.d == TrackPos(r, k))
    ensures id in g.open && g.open[id].req == Apply(r, g, a).open[id].req && WentPast(r, g.open[id], k)
  {
    StackLength(r);
    if a.Enter? {
      StackShape(r, g.open[a.id].at.d);
    }
  }

  // ---- what one request comes to ----

  ghost predicate StepAt(r: Route, tr: seq<Gateway>, acts: seq<Action>, i: int) {
    0 <= i < |acts| && i + 1 < |tr| && Enabled(r, tr[i], acts[i]) && tr[i + 1] == Apply(r, tr[i], acts[i])
  }

  ghost predicate IsPath(r: Route, id: nat, g: Gateway, h: Gateway, tr: seq<Gateway>, acts: seq<Action>) {
    && |tr| == |acts| + 1 && tr[0] == g && tr[|acts|] == h
    && forall i | 0 <= i < |acts| :: StepAt(r, tr, acts, i) && acts[i].id == id
  }

  /** The steps of this one exchange, met by no other, lead from `g` to `h`. */
  ghost predicate Leads(r: Route, id: nat, g: Gateway, h: Gateway) {
    exists tr, acts :: IsPath(r, id, g, h, tr, acts)
  }

  lemma LeadsSelf(r: Route, id: nat, g: Gateway)
    ensures Leads(r, id, g, g)
  {
    assert IsPath(r, id, g, g, [g], []);
  }

  lemma StepStays(r: Route, tr: seq<Gateway>, acts: seq<Action>, n: Gateway, a: Action, i: nat)
    requires StepAt(r, tr, acts, i)
    ensures StepAt(r, tr + [n], acts + [a], i)
  {
    var tr2, acts2 := tr + [n], acts + [a];
    assert tr2[i] == tr[i] && tr2[i + 1] == tr[i + 1] && acts2[i] == acts[i];
  }

  lemma PathOn(r: Route, g: Gateway, h: Gateway, tr: seq<Gateway>, acts: seq<Action>, a: Action)
    requires IsPath(r, a.id, g, h, tr, acts) && Enabled(r, h, a)
    ensures IsPath(r, a.id, g, Apply(r, h, a), tr + [Apply(r, h, a)], acts + [a])
  {
    var n := Apply(r, h, a);
    var tr2, acts2 := tr + [n], acts + [a];
    assert tr2[|acts|] == h && tr2[|acts| + 1] == n && acts2[|acts|] == a;
    forall i | 0 <= i < |acts| ensures StepAt(r, tr2, acts2, i) && acts2[i].id == a.id {
      StepStays(r, tr, acts, n, a, i);
      assert acts2[i] == acts[i];
    }
  }

  lemma LeadsOn(r: Route, g: Gateway, h: Gateway, a: Action)
    requires Leads(r, a.id, g, h) && Enabled(r, h, a)
    ensures Leads(r, a.id, g, Apply(r, h, a))
  {
    var tr, acts :| IsPath(r, a.id, g, h, tr, acts);
    PathOn(r, g, h, tr, acts, a);
  }

  ghost predicate Closed(r: Route, id: nat, p: Gateway -> bool) {
    forall h, a | p(h) && Enabled(r, h, a) && a.id == id :: p(Apply(r, h, a))
  }

  ghost function LeadsFrom(r: Route, id: nat, g: Gateway): Gateway -> bool {
    h => Leads(r, id, g, h)
  }

  lemma LeadsIsClosed(r: Route, id: nat, g: Gateway)
    ensures Closed(r, id, LeadsFrom(r, id, g)) && LeadsFrom(r, id, g)(g)
  {
    LeadsSelf(r, id, g);
    forall h, a | Leads(r, id, g, h) && Enabled(r, h, a) && a.id == id ensures Leads(r, id, g, Apply(r, h, a)) {
      LeadsOn(r, g, h, a);
    }
  }

  /** Between the two nothing but the place of the exchange, clocks and counts has changed. */
  predicate OnlyMoved(g: Gateway, h: Gateway, id: nat, e: Exchange) {
    h.open == g.open[id := e] && h.attempts == g.attempts && h.served == g.served && h.answers == g.answers
  }

  /** An exchange that may pass, or has not come to the auth layer yet, goes down to any layer. */
  lemma {:induction false} GoesDown(r: Route, g: Gateway, p: Gateway -> bool, id: nat, d: nat,
                                    now: int) returns (h: Gateway)
    requires Closed(r, id, p)
    requires id in g.open && g.open[id].at.Down? && g.open[id].at.d <= d <= |Stack(r)| && p(g)
    requires Allowed(r, g.open[id].req) || d <= AuthPos(r)
    ensures p(h) && OnlyMoved(g, h, id, g.open[id].(at := Down(d)))
    decreases d - g.open[id].at.d
  {
    if g.open[id].at.d == d {
      h := g;
      assert g.open == g.open[id := g.open[id].(at := Down(d))];
    } else {
      var n := DownOne(r, g, id, now);
      assert p(Apply(r, g, Enter(id, now)));
      h := GoesDown(r, n, p, id, d, now);
    }
  }

  lemma DownOne(r: Route, g: Gateway, id: nat, now: int) returns (n: Gateway)
    requires Enabled(r, g, Enter(id, now)) && (Allowed(r, g.open[id].req) || g.open[id].at.d < AuthPos(r))
    ensures n == Apply(r, g, Enter(id, now)) && OnlyMoved(g, n, id, g.open[id].(at := Down(g.open[id].at.d + 1)))
  {
    StackShape(r, g.open[id].at.d);
    n := Apply(r, g, Enter(id, now));
  }

  /** A returning exchange gets out; the recovery, which is innermost, turns a panic into 500. */
  lemma {:induction false} GetsOut(r: Route, g: Gateway, p: Gateway -> bool, id: nat, now: int) returns (h: Gateway)
    requires Closed(r, id, p)
    requires id in g.open && g.open[id].at.Up? && g.open[id].at.d <= |Stack(r)| && p(g)
    requires g.open[id].at.panicking ==> g.open[id].at.d == |Stack(r)|
    ensures p(h)
    ensures var at := g.open[id].at;
            OnlyMoved(g, h, id, g.open[id].(at := Up(0, if at.panicking then 500 else at.code, false)))
    decreases g.open[id].at.d
  {
    StackLength(r);
    if g.open[id].at.d == 0 {
      h := g;
      assert g.open == g.open[id := g.open[id].(at := Up(0, g.open[id].at.code, false))];
    } else {
      var n := UpOne(r, g, id, now);
      assert p(Apply(r, g, Leave(id, now)));
      h := GetsOut(r, n, p, id, now);
    }
  }

  lemma UpOne(r: Route, g: Gateway, id: nat, now: int) returns (n: Gateway)
    requires Enabled(r, g, Leave(id, now)) && (g.open[id].at.panicking ==> g.open[id].at.d == |Stack(r)|)
    ensures n == Apply(r, g, Leave(id, now))
    ensures var at := g.open[id].at;
            OnlyMoved(g, n, id, g.open[id].(at := Up(at.d - 1, if at.panicking then 500 else at.code, false)))
  {
    StackShape(r, g.open[id].at.d - 1);
    n := Apply(r, g, Leave(id, now));
  }

  lemma ComesTo(r: Route, g: Gateway, p: Gateway -> bool, id: nat, req: Req, d: nat, now: int) returns (h: Gateway)
    requires Closed(r, id, p) && p(g) && id !in g.open && d <= |Stack(r)|
    requires Allowed(r, req) || d <= AuthPos(r)
    ensures p(h) && OnlyMoved(g, h, id, Exchange(req, Down(d)))
  {
    var g1 := ComesIn(r, g, p, id, req);
    h := GoesDown(r, g1, p, id, d, now);
    assert g.open[id := Exchange(req, Down(0))][id := Exchange(req, Down(d))] == g.open[id := Exchange(req, Down(d))];
  }

  lemma GoesOut(r: Route, g: Gateway, p: Gateway -> bool, id: nat, now: int) returns (h: Gateway)
    requires Closed(r, id, p) && p(g) && id in g.open && g.open[id].at.Up? && g.open[id].at.d <= |Stack(r)|
    requires g.open[id].at.panicking ==> g.open[id].at.d == |Stack(r)|
    ensures p(h) && h.open == g.open - {id} && h.attempts == g.attempts && h.served == g.served
    ensures var at := g.open[id].at;
            h.answers == g.answers + [Answer(g.open[id].req, if at.panicking then 500 else at.code, false)]
  {
    var g1 := GetsOut(r, g, p, id, now);
    h := Ends(r, g1, p, id);
    assert g1.open - {id} == g.open - {id};
  }

  /** What an allowed request is answered: a call on a lazy route depends on the connect first. */
  function CodeFor(r: Route, req: Req, outcome: Outcome, code: nat, panics: bool): nat {
    if r.isLazy && req.verb != "GET" && outcome == Refused then 503
    else if r.isLazy && req.verb != "GET" && outcome == Panics then 500
    else if panics then 500 else code
  }

  /** The server behind the route sees the request. */
  predicate Reaches(r: Route, req: Req, outcome: Outcome) {
    r.isLazy && req.verb != "GET" ==> outcome == Ready
  }

  /**
   An allowed request, met by no other: it gets past every layer, makes one connect attempt exactly if
   it is a call on a lazy route, is served unless that fails, and is answered what the server says.
  */
  lemma AllowedIsServed(r: Route, g: Gateway, id: nat, req: Req, now: int, outcome: Outcome, code: nat, panics: bool)
    returns (h: Gateway)
    requires id !in g.open && Passes(r.tokens, req.authorization)
    ensures Leads(r, id, g, h) && h.open == g.open
    ensures h.attempts == g.attempts + if r.isLazy && req.verb != "GET" then [req] else []
    ensures h.served == g.served + if Reaches(r, req, outcome) then [req] else []
    ensures h.answers == g.answers + [Answer(req, CodeFor(r, req, outcome, code, panics), false)]
  {
    var p := LeadsFrom(r, id, g);
    LeadsIsClosed(r, id, g);
    var g1 := ComesTo(r, g, p, id, req, |Stack(r)|, now);
    var g2 := Connects(r, g1, p, id, now, outcome);
    var g3 := g2;
    if Reaches(r, req, outcome) {
      g3 := Replies(r, g2, p, id, code, panics);
    }
    h := GoesOut(r, g3, p, id, now);
    assert h.open == g.open;
  }

  lemma ComesIn(r: Route, g: Gateway, p: Gateway -> bool, id: nat, req: Req) returns (h: Gateway)
    requires Closed(r, id, p) && p(g) && id !in g.open
    ensures p(h) && OnlyMoved(g, h, id, Exchange(req, Down(0)))
  {
    assert Enabled(r, g, Arrive(id, req));
    h := Apply(r, g, Arrive(id, req));
  }

  lemma Connects(r: Route, g: Gateway, p: Gateway -> bool, id: nat, now: int, outcome: Outcome) returns (h: Gateway)
    requires Closed(r, id, p)
    requires p(g) && id in g.open && g.open[id].at == Down(|Stack(r)|)
    ensures p(h)
    ensures var req := g.open[id].req;
            && h.served == g.served && h.answers == g.answers
            && h.attempts == g.attempts + (if r.isLazy && req.verb != "GET" then [req] else [])
            && h.open == g.open[id := Exchange(req, AfterConnect(r, req, outcome))]
  {
    assert p(Apply(r, g, Connect(id, now, outcome)));
    h := Apply(r, g, Connect(id, now, outcome));
    assert g.attempts + [] == g.attempts;
  }

  /** Inside, or returning with 503, or in a panic. */
  function AfterConnect(r: Route, req: Req, outcome: Outcome): At {
    if Reaches(r, req, outcome) then Inside
    else if outcome == Refused then Up(|Stack(r)|, 503, false)
    else Up(|Stack(r)|, 0, true)
  }

  lemma Replies(r: Route, g: Gateway, p: Gateway -> bool, id: nat, code: nat, panics: bool) returns (h: Gateway)
    requires Closed(r, id, p)
    requires p(g) && id in g.open && g.open[id].at == Inside
    ensures p(h)
    ensures h.open == g.open[id := Exchange(g.open[id].req, Up(|Stack(r)|, code, panics))]
    ensures h.served == g.served + [g.open[id].req] && h.answers == g.answers && h.attempts == g.attempts
  {
    assert p(Apply(r, g, Reply(id, code, panics)));
    h := Apply(r, g, Reply(id, code, panics));
  }

  lemma Ends(r: Route, g: Gateway, p: Gateway -> bool, id: nat) returns (h: Gateway)
    requires Closed(r, id, p)
    requires p(g) && id in g.open && g.open[id].at.Up? && g.open[id].at.d == 0
    ensures p(h) && h.open == g.open - {id} && h.attempts == g.attempts && h.served == g.served
    ensures h.answers == g.answers + [Answer(g.open[id].req, g.open[id].at.code, g.open[id].at.panicking)]
  {
    assert p(Apply(r, g, Finish(id)));
    h := Apply(r, g, Finish(id));
  }

  /** A request that may not pass, met by no other, is answered 401, without a connect and without the server. */
  lemma OthersAreRejected(r: Route, g: Gateway, id: nat, req: Req, now: int) returns (h: Gateway)
    requires id !in g.open && !Passes(r.tokens, req.authorization)
    ensures Leads(r, id, g, h) && h.open == g.open && h.attempts == g.attempts && h.served == g.served
    ensures h.answers == g.answers + [Answer(req, 401, false)]
  {
    StackLength(r);
    var p := LeadsFrom(r, id, g);
    LeadsIsClosed(r, id, g);
    var g1 := ComesTo(r, g, p, id, req, AuthPos(r), now);
    var g2 := IsTurnedBack(r, g1, p, id, now);
    h := GoesOut(r, g2, p, id, now);
    assert h.open == g.open;
  }

  lemma IsTurnedBack(r: Route, g: Gateway, p: Gateway -> bool, id: nat, now: int) returns (h: Gateway)
    requires Closed(r, id, p)
    requires p(g) && id in g.open && g.open[id].at == Down(AuthPos(r))
    requires !Passes(r.tokens, g.open[id].req.authorization)
    ensures p(h) && OnlyMoved(g, h, id, g.open[id].(at := Up(AuthPos(r), 401, false)))
  {
    StackLength(r);
    StackShape(r, AuthPos(r));
    assert p(Apply(r, g, Enter(id, now)));
    h := Apply(r, g, Enter(id, now));
  }

  /** A configured token passes behind "Bearer ", if it has no blanks at its ends. */
  lemma BearerPasses(tokens: seq<string>, token: string)
    requires token in tokens && token != "" && IsTrimmed(token, IsSpace)
    ensures Passes(tokens, "Bearer " + token)
  {
    assert ("Bearer " + token)[|"Bearer "|..] == token;
    assert "Bearer " <= "Bearer " + token;
    TrimOf("", token, "", IsSpace);
    assert "" + token + "" == token;
  }

  /** The log is a layer exactly if it is switched on. */
  lemma LogIffEnabled(r: Route)
    ensures Log in Stack(r) <==> r.logEnabled
  {
    assert r.logEnabled ==> Stack(r)[|Stack(r)| - 2] == Log;
  }
}
