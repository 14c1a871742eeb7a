/**
 * One run's slice of the `EventHub`: the hub cursor, its out-of-order buffer and
 * its drain, and every client scoped to the run. Each function below is one
 * stretch of code that runs between two `await`s, so a step is atomic.
 */
module HubModel {
  import opened Common
  import opened Events

  type ClientId = nat

  const REPLAY_PAGE: nat := 1000
  const DRAIN_PAGE: nat := 200
  const MAX_HELD: nat := 2000

  /**
   * Where a client's `replay` call stands. `Paging` waits for a history page that
   * was asked for when `issued` events were committed; `Live` has handed over;
   * `Ended` returned early because the client was gone.
   */
  datatype Replay = Paging(after: nat, issued: nat) | Live | Ended

  /**
   * A client scoped to the run, with its transport. The transport accepts `room`
   * more frames; the next one closes it, silently or (`throws`) with an exception,
   * and a closed transport delivers nothing ever again. `from` is the cursor the
   * client joined with, `sent` what its transport accepted. `lo` and `hi` are
   * history: the hub has fanned out exactly the sequence numbers in (lo, hi] to it.
   */
  datatype Client = Client(
    from: nat, cursor: nat, replay: Replay, held: map<nat, Event>, registered: bool,
    open: bool, room: nat, throws: bool, sent: seq<Row>, lo: nat, hi: nat)

  /** `Reading`: a drain awaits a page after `since`. `Exiting`: its loop is over, its `finally` has not run. */
  datatype Drain = Idle | Reading(since: nat, issued: nat) | Exiting

  /** `asked` is history: how much was committed at the latest drain request since the run became watched. */
  datatype Hub = Hub(
    log: seq<Event>, clients: map<ClientId, Client>, globals: nat,
    cursor: nat, held: map<nat, Event>, dirty: bool, drain: Drain, asked: nat)

  const NEW_HUB := Hub([], map[], 0, 0, map[], false, Idle, 0)

  predicate Scoped(h: Hub) { exists id :: id in h.clients && h.clients[id].registered }

  predicate Watched(h: Hub) { h.globals > 0 || Scoped(h) }

  /* ---------------------------- one client ---------------------------- */

  function SendNow(c: Client, row: Row): Client {
    if row.seqNo <= c.cursor then c
    else if c.open && c.room > 0 then c.(sent := c.sent + [row], cursor := row.seqNo, room := c.room - 1)
    else if c.throws then c.(open := false, registered := false)
    else c.(open := false, cursor := row.seqNo)
  }

  function SendAll(c: Client, rows: seq<Row>): Client
    decreases |rows|
  {
    if rows == [] then c else SendAll(SendNow(c, rows[0]), rows[1..])
  }

  /** What one advance of the hub cursor does to a registered client. */
  function FanOne(c: Client, row: Row): Client {
    var c' := c.(hi := row.seqNo);
    if c.replay.Live? then SendNow(c', row)
    else
      var held := c.held[row.seqNo := row.event];
      if |held| > MAX_HELD then c'.(held := held, open := false, registered := false) else c'.(held := held)
  }

  /** Held events sorted by sequence number. */
  ghost function InOrder(held: map<nat, Event>): seq<Row>
    decreases held.Keys
  {
    if held.Keys == {} then []
    else
      var k := Least(held.Keys);
      assert k in held.Keys && k !in (held - {k}).Keys;
      [Row(k, held[k])] + InOrder(held - {k})
  }

  /** The hand-over: everything held during the replay goes out in order, then the client is live. */
  ghost function HandOver(c: Client): Client {
    SendAll(c, InOrder(c.held)).(held := map[], replay := Live)
  }

  /** A history page arrives. `now` is how much is committed when the next page is asked for. */
  ghost function PageArrives(c: Client, page: seq<Row>, now: nat): Client
    requires c.replay.Paging?
  {
    var c' := SendAll(c, page);
    if |page| < REPLAY_PAGE then HandOver(c')
    else if c'.registered then c'.(replay := Paging(c.replay.after + |page|, now))
    else c'.(replay := Ended)
  }

  /* ------------------------------ the hub ------------------------------ */

  function FanOut(clients: map<ClientId, Client>, row: Row): map<ClientId, Client> {
    map id | id in clients :: if clients[id].registered then FanOne(clients[id], row) else clients[id]
  }

  function Advance(h: Hub, row: Row): Hub {
    h.(held := h.held - {row.seqNo}, cursor := row.seqNo, clients := FanOut(h.clients, row))
  }

  function Flush(h: Hub): Hub
    decreases h.held.Keys
  {
    var k := h.cursor + 1;
    if k in h.held then Flush(Advance(h, Row(k, h.held[k]))) else h
  }

  /** The top of the drain's outer loop: go round again if a request arrived meanwhile. */
  function LoopTop(h: Hub): Hub {
    if h.dirty && Watched(h) then h.(dirty := false, drain := Reading(h.cursor, |h.log|))
    else h.(dirty := false, drain := Exiting)
  }

  function RequestDrain(h: Hub): Hub {
    if !Watched(h) then h
    else
      var h' := h.(dirty := true, asked := |h.log|);
      if h.drain.Idle? then LoopTop(h') else h'
  }

  function Ingest(h: Hub, row: Row): Hub {
    if !Watched(h) || row.seqNo <= h.cursor then h
    else if row.seqNo != h.cursor + 1 then RequestDrain(h.(held := h.held[row.seqNo := row.event]))
    else Flush(Advance(h, row))
  }

  function IngestAll(h: Hub, rows: seq<Row>): Hub
    decreases |rows|
  {
    if rows == [] then h else IngestAll(Ingest(h, rows[0]), rows[1..])
  }

  function DrainPageArrives(h: Hub, page: seq<Row>): Hub {
    var h' := IngestAll(h, page);
    if |page| < DRAIN_PAGE then LoopTop(h')
    else if Watched(h') then h'.(drain := Reading(h'.cursor, |h'.log|))
    else LoopTop(h')
  }

  function DrainFinally(h: Hub): Hub {
    var h' := h.(drain := Idle);
    if h'.dirty then RequestDrain(h') else h'
  }

  function Join(h: Hub, id: ClientId, from: nat, room: nat, throws: bool): Hub {
    h.(clients := h.clients[id :=
      Client(from, from, Paging(from, |h.log|), map[], true, true, room, throws, [], h.cursor, h.cursor)])
  }

  /** After a client leaves: an unwatched run loses its cursor, and the last client of all takes the marks with it. */
  function Prune(h: Hub, everyone: bool): Hub {
    if Watched(h) then h
    else h.(cursor := 0,
            held := if h.cursor > 0 || everyone then map[] else h.held,
            dirty := h.dirty && !everyone)
  }

  /* ------------------------------- steps ------------------------------- */

  datatype Step =
    | Commit(event: Event)
    | Publish(seqNo: nat)
    | Notify(seqNo: nat)
    | Poll
    | DrainPage(seen: nat)
    | DrainSettles
    | JoinClient(id: ClientId, from: nat, room: nat, throws: bool)
    | ReplayPage(id: ClientId, seen: nat)
    | Remove(id: ClientId, everyone: bool)
    | Weather(id: ClientId, room: nat, throws: bool)
    | Disconnect(id: ClientId)
    | GlobalClients(count: nat, everyone: bool)
    | Evict

  /** The step's effect on the hub, before the history variable is brought up to date. */
  ghost function Effect(h: Hub, s: Step): Hub {
    match s
    case Commit(e) => h.(log := h.log + [e])
    case Publish(k) => if 0 < k <= |h.log| then Ingest(h, Row(k, h.log[k - 1])) else h
    case Notify(k) => if k <= h.cursor then h else RequestDrain(h)
    case Poll => RequestDrain(h)
    case DrainPage(seen) =>
      if h.drain.Reading? && h.drain.issued <= seen <= |h.log|
      then DrainPageArrives(h, Page(h.log, seen, h.drain.since, DRAIN_PAGE)) else h
    case DrainSettles => if h.drain.Exiting? then DrainFinally(h) else h
    case JoinClient(id, from, room, throws) => if id in h.clients then h else Join(h, id, from, room, throws)
    case ReplayPage(id, seen) =>
      if id in h.clients && h.clients[id].replay.Paging? && h.clients[id].replay.issued <= seen <= |h.log| then
        var c := h.clients[id];
        h.(clients := h.clients[id := PageArrives(c, Page(h.log, seen, c.replay.after, REPLAY_PAGE), |h.log|)])
      else h
    case Remove(id, everyone) =>
      if id in h.clients
      then Prune(h.(clients := h.clients[id := h.clients[id].(registered := false)]), everyone) else h
    case Weather(id, room, throws) =>
      if id in h.clients then h.(clients := h.clients[id := h.clients[id].(room := room, throws := throws)]) else h
    case Disconnect(id) =>
      if id in h.clients then h.(clients := h.clients[id := h.clients[id].(open := false)]) else h
    case GlobalClients(n, everyone) => Prune(h.(globals := n), everyone)
    case Evict => if Scoped(h) then h else h.(cursor := 0, held := map[], asked := 0)
  }

  ghost function Next(h: Hub, s: Step): Hub {
    var h' := Effect(h, s);
    if Watched(h') then h' else h'.(asked := 0)
  }

  ghost function Run(h: Hub, steps: seq<Step>): Hub
    decreases |steps|
  {
    if steps == [] then h else Run(Next(h, steps[0]), steps[1..])
  }
}
