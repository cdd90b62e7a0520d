/** The readiness tracker of internal/proxy/readiness.go. */
module Readiness {
  datatype Status = Connected | Failed | Disabled

  datatype UpstreamState = UpstreamState(status: Status, error: string)

  datatype Report = Report(ready: bool, degraded: bool, upstreams: map<string, UpstreamState>)

  class ReadinessTracker {
    var upstreams: map<string, UpstreamState>
    var ready: bool

    constructor ()
      ensures upstreams == map[] && !ready
    {
      upstreams, ready := map[], false;
    }

    method Set(name: string, st: UpstreamState)
      modifies this`upstreams
      ensures upstreams == old(upstreams)[name := st]
    {
      upstreams := upstreams[name := st];
    }

    method Remove(name: string)
      modifies this`upstreams
      ensures upstreams == old(upstreams) - {name}
    {
      upstreams := upstreams - {name};
    }

    /** A copy of the states; degraded exactly when some upstream failed. */
    method MakeReport() returns (r: Report)
      ensures r.ready == ready && r.upstreams == upstreams
      ensures r.degraded <==> exists n | n in upstreams :: upstreams[n].status == Failed
    {
      var copied: map<string, UpstreamState> := map[];
      var degraded := false;
      var todo := upstreams.Keys;
      while todo != {}
        invariant todo <= upstreams.Keys
        invariant copied == map n | n in upstreams && n !in todo :: upstreams[n]
        invariant degraded <==> exists n | n in upstreams && n !in todo :: upstreams[n].status == Failed
        decreases todo
      {
        var n :| n in todo;
        copied := copied[n := upstreams[n]];
        if upstreams[n].status == Failed {
          degraded := true;
        }
        todo := todo - {n};
      }
      return Report(ready, degraded, copied);
    }
  }
}
