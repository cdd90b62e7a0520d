/** The activity tracker of internal/proxy/idle.go as an object that one goroutine uses at a time. */
module ActivityTracker {
  /** Exchanges in flight and the time of the last touch. */
  datatype Meter = Meter(inflight: int, last: int)

  function Touched(m: Meter, now: int): Meter {
    m.(last := now)
  }

  function Begun(m: Meter, now: int): Meter {
    Meter(m.inflight + 1, now)
  }

  function Ended(m: Meter, now: int): Meter {
    Meter(m.inflight - 1, now)
  }

  class Tracker {
    var lastNano: int
    var inflight: int

    function View(): Meter
      reads this
    {
      Meter(inflight, lastNano)
    }

    constructor (now: int)
      ensures View() == Meter(0, now)
    {
      lastNano, inflight := now, 0;
    }

    method Touch(now: int)
      modifies this`lastNano
      ensures View() == Touched(old(View()), now)
      ensures inflight == old(inflight) && lastNano == now
    {
      lastNano := now;
    }

    method Begin(now: int)
      modifies this
      ensures View() == Begun(old(View()), now)
      ensures inflight == old(inflight) + 1 && lastNano == now
    {
      inflight := inflight + 1;
      Touch(now);
    }

    method End(now: int)
      modifies this
      ensures View() == Ended(old(View()), now)
      ensures inflight == old(inflight) - 1 && lastNano == now
    {
      Touch(now);
      inflight := inflight - 1;
    }
  }
}
