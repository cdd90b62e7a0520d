/**
 The activity tracker and idle monitor of internal/proxy/idle.go, one atomic operation at a time.

 Exchanges and the monitor interleave freely; `touch` is one step on a monotone clock.  The order
 of the two statements of `end` is a parameter, so that what depends on it can be stated.
 */
module Idle {
  import opened Prelude
  import opened ActivityTracker

  type Exchange = nat

  /** How far an exchange got; `at` is the time of its closing touch. */
  datatype Phase =
    | Entered
    | Running
    | Touched(at: int)
    | Uncounted
    | Finished(at: int)

  /** The polling goroutine; `done` are the exchanges that were over at its `busy()` read. */
  datatype Monitor =
    | Polling
    | SawIdle(done: set<Exchange>)
    | ReadClock(done: set<Exchange>, now: int)
    | Fired(done: set<Exchange>, now: int)

  datatype State = State(now: int, last: int, inflight: int, exchanges: map<Exchange, Phase>, monitor: Monitor)

  datatype Action =
    | Tick(d: nat)
    | Touch
    | BeginAdd(x: Exchange)
    | BeginTouch(x: Exchange)
    | EndTouch(x: Exchange)
    | EndSub(x: Exchange)
    | ReadBusy
    | ReadNow
    | ReadLast

  /** `touchFirst` is the order of the source: `end` touches and then decrements. */
  datatype Setup = Setup(touchFirst: bool, timeout: int)

  predicate IsCounted(p: Phase) {
    p.Entered? || p.Running? || p.Touched?
  }

  function Counted(s: State): set<Exchange> {
    set x | x in s.exchanges && IsCounted(s.exchanges[x])
  }

  function Over(s: State): set<Exchange> {
    set x | x in s.exchanges && !IsCounted(s.exchanges[x])
  }

  predicate Init(s: State) {
    s.last == s.now && s.inflight == 0 && s.exchanges == map[] && s.monitor == Polling
  }

  predicate Enabled(u: Setup, s: State, a: Action) {
    match a
    case Tick(_) | Touch => true
    case BeginAdd(x) => x !in s.exchanges
    case BeginTouch(x) => x in s.exchanges && s.exchanges[x] == Entered
    case EndTouch(x) => x in s.exchanges && s.exchanges[x] == (if u.touchFirst then Running else Uncounted)
    case EndSub(x) => x in s.exchanges && (if u.touchFirst then s.exchanges[x].Touched? else s.exchanges[x] == Running)
    case ReadBusy => s.monitor == Polling
    case ReadNow => s.monitor.SawIdle?
    case ReadLast => s.monitor.ReadClock?
  }

  function Apply(u: Setup, s: State, a: Action): State
    requires Enabled(u, s, a)
  {
    match a
    case Tick(d) => s.(now := s.now + d)
    case Touch => s.(last := s.now)
    case BeginAdd(x) => s.(inflight := s.inflight + 1, exchanges := s.exchanges[x := Entered])
    case BeginTouch(x) => s.(last := s.now, exchanges := s.exchanges[x := Running])
    case EndTouch(x) =>
      s.(last := s.now, exchanges := s.exchanges[x := if u.touchFirst then Touched(s.now) else Finished(s.now)])
    case EndSub(x) =>
      s.(inflight := s.inflight - 1,
      exchanges := s.exchanges[x := if u.touchFirst then Finished(s.exchanges[x].at) else Uncounted])
    case ReadBusy => if s.inflight > 0 then s else s.(monitor := SawIdle(Over(s)))
    case ReadNow => s.(monitor := ReadClock(s.monitor.done, s.now))
    case ReadLast =>
      s.(monitor := if s.monitor.now - s.last >= u.timeout then Fired(s.monitor.done, s.monitor.now) else Polling)
  }

  ghost predicate StepAt(u: Setup, tr: seq<State>, acts: seq<Action>, i: int) {
    0 <= i < |acts| && i + 1 < |tr| && Enabled(u, tr[i], acts[i]) && tr[i + 1] == Apply(u, tr[i], acts[i])
  }

  ghost predicate IsRun(u: Setup, tr: seq<State>, acts: seq<Action>) {
    |tr| == |acts| + 1 && Init(tr[0]) && forall i | 0 <= i < |acts| :: StepAt(u, tr, acts, i)
  }

  ghost predicate Reachable(u: Setup, s: State) {
    exists tr, acts :: IsRun(u, tr, acts) && s == tr[|acts|]
  }

  // ---- the counter ----

  lemma CountedStep(u: Setup, s: State, a: Action)
    requires Enabled(u, s, a)
    ensures Counted(Apply(u, s, a)) ==
            match a
            case BeginAdd(x) => Counted(s) + {x}
            case EndSub(x) => Counted(s) - {x}
            case _ => Counted(s)
    ensures a.BeginAdd? ==> a.x !in Counted(s)
    ensures a.EndSub? ==> a.x in Counted(s)
  {
  }

  ghost predicate ClockInv(u: Setup, s: State) {
    && s.last <= s.now
    && (forall x | x in s.exchanges && (s.exchanges[x].Touched? || s.exchanges[x].Finished?) ::
        s.exchanges[x].at <= s.last)
    && (u.touchFirst ==> forall x | x in s.exchanges :: !s.exchanges[x].Uncounted?)
  }

  ghost predicate Inv(u: Setup, s: State) {
    s.inflight == |Counted(s)| && ClockInv(u, s) && DecisionInv(u, s)
  }

  ghost predicate DecisionInv(u: Setup, s: State) {
    match s.monitor
    case Polling => true
    case SawIdle(done) => done <= Over(s)
    case ReadClock(done, now) => done <= Over(s) && now <= s.now
    case Fired(done, now) =>
      u.touchFirst ==>
        forall x | x in done ::
          x in s.exchanges && s.exchanges[x].Finished? && s.exchanges[x].at <= now - u.timeout
  }

  lemma CountKeeps(u: Setup, s: State, a: Action)
    requires s.inflight == |Counted(s)| && Enabled(u, s, a)
    ensures Apply(u, s, a).inflight == |Counted(Apply(u, s, a))|
  {
    CountedStep(u, s, a);
  }

  lemma ClockKeeps(u: Setup, s: State, a: Action)
    requires ClockInv(u, s) && Enabled(u, s, a)
    ensures ClockInv(u, Apply(u, s, a))
  {
  }

  /** An exchange that is over stays over. */
  lemma OverGrows(u: Setup, s: State, a: Action)
    requires Enabled(u, s, a)
    ensures Over(s) <= Over(Apply(u, s, a))
  {
  }

  lemma DecisionKeeps(u: Setup, s: State, a: Action)
    requires ClockInv(u, s) && DecisionInv(u, s) && Enabled(u, s, a)
    ensures DecisionInv(u, Apply(u, s, a))
  {
    OverGrows(u, s, a);
  }

  lemma StepKeeps(u: Setup, s: State, a: Action)
    requires Inv(u, s) && Enabled(u, s, a)
    ensures Inv(u, Apply(u, s, a))
  {
    CountKeeps(u, s, a);
    ClockKeeps(u, s, a);
    DecisionKeeps(u, s, a);
  }

  lemma {:induction false} RunKeeps(u: Setup, tr: seq<State>, acts: seq<Action>, i: nat)
    requires IsRun(u, tr, acts) && i < |tr|
    ensures Inv(u, tr[i])
  {
    if i > 0 {
      RunKeeps(u, tr, acts, i - 1);
      assert StepAt(u, tr, acts, i - 1);
      StepKeeps(u, tr[i - 1], acts[i - 1]);
    }
  }

  lemma ReachableInv(u: Setup, s: State)
    requires Reachable(u, s)
    ensures Inv(u, s)
  {
    var tr, acts :| IsRun(u, tr, acts) && s == tr[|acts|];
    RunKeeps(u, tr, acts, |acts|);
  }

  /** In flight is the number of exchanges between their two counter updates, in every reachable state. */
  lemma InflightCountsExchanges(u: Setup, s: State)
    requires Reachable(u, s)
    ensures s.inflight == |Counted(s)|
  {
    ReachableInv(u, s);
  }

  /** A monitor that goes on from its `busy()` read read it while no counted exchange was in flight. */
  lemma IdleReadMeansNothingInFlight(u: Setup, s: State)
    requires Reachable(u, s) && Enabled(u, s, ReadBusy)
    ensures Apply(u, s, ReadBusy).monitor != Polling <==> Counted(s) == {}
    ensures Counted(s) == {} ==> Apply(u, s, ReadBusy).monitor == SawIdle(s.exchanges.Keys)
  {
    ReachableInv(u, s);
    forall x | x in s.exchanges ensures x in Counted(s) || x in Over(s) {
    }
  }

  // ---- the decision ----

  /** Every exchange over at the `busy()` read did its closing touch at least the timeout before the clock was read. */
  predicate DecidedSoundly(u: Setup, s: State) {
    s.monitor.Fired? ==>
      forall x | x in s.monitor.done ::
        x in s.exchanges && s.exchanges[x].Finished? && s.exchanges[x].at <= s.monitor.now - u.timeout
  }

  lemma DecisionIsSound(u: Setup, s: State)
    requires Reachable(u, s) && u.touchFirst
    ensures DecidedSoundly(u, s)
  {
    ReachableInv(u, s);
  }

  lemma Extends(u: Setup, s: State, a: Action)
    requires Reachable(u, s) && Enabled(u, s, a)
    ensures Reachable(u, Apply(u, s, a))
  {
    var tr, acts :| IsRun(u, tr, acts) && s == tr[|acts|];
    var tr', acts' := tr + [Apply(u, s, a)], acts + [a];
    forall i | 0 <= i < |acts'| ensures StepAt(u, tr', acts', i) {
      assert i < |acts| ==> StepAt(u, tr, acts, i);
    }
    assert IsRun(u, tr', acts') && tr'[|acts'|] == Apply(u, s, a);
  }

  /** With the two statements of `end` swapped, a monitor can fire on an exchange that has only just ended. */
  lemma SwappedEndFiresTooEarly(u: Setup) returns (s: State)
    requires !u.touchFirst && u.timeout > 0
    ensures Reachable(u, s) && !DecidedSoundly(u, s)
  {
    s := State(0, 0, 0, map[], Polling);
    assert IsRun(u, [s], []);
    Extends(u, s, BeginAdd(0));
    s := Apply(u, s, BeginAdd(0));
    Extends(u, s, BeginTouch(0));
    s := Apply(u, s, BeginTouch(0));
    Extends(u, s, Tick(u.timeout));
    s := Apply(u, s, Tick(u.timeout));
    Extends(u, s, EndSub(0));
    s := Apply(u, s, EndSub(0));
    Extends(u, s, ReadBusy);
    s := Apply(u, s, ReadBusy);
    Extends(u, s, ReadNow);
    s := Apply(u, s, ReadNow);
    Extends(u, s, ReadLast);
    s := Apply(u, s, ReadLast);
    assert 0 in s.monitor.done && s.exchanges[0] == Uncounted;
  }

  /** The decision is sound in every run exactly because `end` touches before it decrements. */
  lemma SoundIffTouchFirst(u: Setup)
    requires u.timeout > 0
    ensures (forall s | Reachable(u, s) :: DecidedSoundly(u, s)) <==> u.touchFirst
  {
    if u.touchFirst {
      forall s | Reachable(u, s) ensures DecidedSoundly(u, s) { DecisionIsSound(u, s); }
    } else {
      var s := SwappedEndFiresTooEarly(u);
    }
  }

  // ---- the object ----

  function MeterOf(s: State): Meter {
    Meter(s.inflight, s.last)
  }

  /** The two atomic operations of `begin`, met by no other, do what the method promises. */
  lemma BeginRefines(u: Setup, s: State, x: Exchange)
    requires Enabled(u, s, BeginAdd(x))
    ensures var t := Apply(u, s, BeginAdd(x));
            Enabled(u, t, BeginTouch(x)) && MeterOf(Apply(u, t, BeginTouch(x))) == Begun(MeterOf(s), s.now)
  {
  }

  /** So do those of `end`, in the order of the source. */
  lemma EndRefines(u: Setup, s: State, x: Exchange)
    requires u.touchFirst && Enabled(u, s, EndTouch(x))
    ensures var t := Apply(u, s, EndTouch(x));
            Enabled(u, t, EndSub(x)) && MeterOf(Apply(u, t, EndSub(x))) == Ended(MeterOf(s), s.now)
  {
  }

  // ---- how long a quiet backend lives ----

  /**
   What the monitor would read of the tracker at each instant, whether its context is over, and how
   long after a tick it reads the clock, and after that the last touch.
  */
  datatype Traffic = Traffic(busy: int -> bool, last: int -> int, over: int -> bool, toClock: int -> nat,
                             toLast: int -> nat)

  const FLOOR := 100_000_000  // 100ms in nanoseconds

  function Interval(timeout: int): int {
    if timeout / 4 > FLOOR then timeout / 4 else FLOOR
  }

  /** A quarter of the timeout, but at least 100ms. */
  lemma IntervalMeaning(timeout: int)
    ensures Interval(timeout) >= 100_000_000 && Interval(timeout) >= timeout / 4
    ensures Interval(timeout) == 100_000_000 || Interval(timeout) == timeout / 4
  {
  }

  /** When the round of the tick `at` reads the clock. */
  function ClockAt(t: Traffic, at: int): int {
    at + t.toClock(at)
  }

  /** The round of the tick finds the tracker quiet: three reads, at three instants. */
  predicate Idle(t: Traffic, timeout: int, at: int) {
    !t.busy(at) && ClockAt(t, at) - t.last(ClockAt(t, at) + t.toLast(at)) >= timeout
  }

  /** The k-th tick of a ticker started at `start`. */
  function TickTime(start: int, timeout: int, k: nat): int {
    start + (k + 1) * Interval(timeout)
  }

  /** No tick before the k-th was idle. */
  ghost predicate QuietBefore(t: Traffic, timeout: int, start: int, k: nat) {
    forall j: nat | j < k :: !Idle(t, timeout, TickTime(start, timeout, j))
  }

  /**
   The polling loop under an ideal ticker, when the last exchange (or the monitor's own touch) ends
   at time `end` and none follows.  It fires in the first round that finds the tracker quiet, at most
   one interval after the timeout; if no round begun before `end` does, not before the timeout.  It
   gives up only at a tick at which its context is over.  `fired` is the instant the clock is read.
  */
  method MonitorIdle(t: Traffic, timeout: int, start: int, ghost end: int) returns (fired: Option<int>)
    requires timeout > 0 && start <= end
    requires forall i | i >= end :: !t.busy(i) && t.last(i) == end
    ensures exists k: nat :: QuietBefore(t, timeout, start, k) &&
                             var at := TickTime(start, timeout, k);
                             if fired.Some? then
                               fired.value == ClockAt(t, at) && Idle(t, timeout, at)
                                 && at < end + timeout + Interval(timeout)
                             else t.over(at)
    ensures fired.Some? && NoRoundTooEarly(t, timeout, start, end) ==> end + timeout <= fired.value
    ensures fired.Some? && (forall i :: t.toClock(i) == 0) ==> fired.value < end + timeout + Interval(timeout)
  {
    var interval := Interval(timeout);
    var at := start + interval;
    ghost var k: nat := 0;
    while true
      invariant at == TickTime(start, timeout, k) && QuietBefore(t, timeout, start, k)
      invariant at < end + timeout + interval
      decreases end + timeout + interval - at
    {
      if t.over(at) {
        if * {
          return None;
        }
      }
      if !t.busy(at) {
        var now := at + t.toClock(at);
        if now - t.last(now + t.toLast(at)) >= timeout {
          return Some(now);
        }
      }
      assert at < end + timeout;
      at := at + interval;
      NextTick(start, timeout, k);
      k := k + 1;
    }
  }

  /** No round that begins before the last exchange ends finds the tracker quiet. */
  ghost predicate NoRoundTooEarly(t: Traffic, timeout: int, start: int, end: int) {
    forall k: nat | TickTime(start, timeout, k) < end :: !Idle(t, timeout, TickTime(start, timeout, k))
  }

  lemma NextTick(start: int, timeout: int, k: nat)
    ensures TickTime(start, timeout, k + 1) == TickTime(start, timeout, k) + Interval(timeout)
  {
    assert (k + 2) * Interval(timeout) == (k + 1) * Interval(timeout) + Interval(timeout);
  }
}
