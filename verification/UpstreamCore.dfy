/**
 The shared fields of one upstream and the single statements that change them.

 Contexts, connections and downstream client sessions are represented by identifiers.  The
 functions below are one assignment or one close of the source each, so that the sequential
 object (UpstreamObject) and the interleaving machine (Lifecycle) are built from the same
 statements.
 */
module UpstreamCore {
  import opened Prelude

  type Ctx = nat
  type Conn = nat
  type ClientId = string

  /**
   `connCancel` is the context that the stored cancel function belongs to; `cancelled` and
   `closes` record the two effects a statement has outside the struct: contexts cancelled, and
   calls of `Close` on a connection (with multiplicity).
   */
  datatype Core = Core(
    connected: bool,
    connCancel: Option<Ctx>,
    gen: nat,
    baseCtx: Option<Ctx>,
    tmpl: Option<Conn>,
    sessions: map<ClientId, Conn>,
    cancelled: set<Ctx>,
    closes: multiset<Conn>)

  const EMPTY := Core(false, None, 0, None, None, map[], {}, multiset{})

  function CancelConn(c: Core): Core {
    if c.connCancel.Some? then
      c.(cancelled := c.cancelled + {c.connCancel.value}, connCancel := None)
    else c
  }

  function BumpGen(c: Core): Core {
    c.(gen := c.gen + 1)
  }

  function CloseConn(c: Core, conn: Conn): Core {
    c.(closes := c.closes + multiset{conn})
  }

  function CloseTemplate(c: Core): Core {
    if c.tmpl.Some? then CloseConn(c, c.tmpl.value).(tmpl := None) else c
  }

  function DropSession(c: Core, id: ClientId): Core {
    c.(sessions := c.sessions - {id})
  }

  function Publish(c: Core, ctx: Ctx, conn: Conn): Core {
    c.(baseCtx := Some(ctx), tmpl := Some(conn))
  }

  function MarkConnected(c: Core, ctx: Ctx): Core {
    c.(connCancel := Some(ctx), connected := true)
  }

  /** The sessions whose client is in `live`. */
  function Surviving(sessions: map<ClientId, Conn>, live: set<ClientId>): map<ClientId, Conn> {
    map id | id in sessions && id in live :: sessions[id]
  }

  /** The connections of the clients that are not in `live`. */
  function Orphaned(sessions: map<ClientId, Conn>, live: set<ClientId>): set<Conn> {
    set id | id in sessions && id !in live :: sessions[id]
  }

  /** No connection serves two clients. */
  ghost predicate Injective(sessions: map<ClientId, Conn>) {
    forall i, j | i in sessions && j in sessions && sessions[i] == sessions[j] :: i == j
  }

  /** What closing everything does: each connection held is closed once and nothing stays. */
  function Closed(c: Core): Core {
    var t := CloseTemplate(c);
    t.(sessions := map[], closes := t.closes + multiset(c.sessions.Values))
  }

  /** What a complete idle teardown does to a connected upstream. */
  function TornDown(c: Core): Core {
    Closed(BumpGen(CancelConn(c).(connected := false)))
  }
}
