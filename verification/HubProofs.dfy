/** What every run of the hub keeps: exact delivery, and no lost wake-up. */
module HubProofs {
  import opened Common
  import opened Events
  import opened HubModel

  /* -------------------------- the invariants -------------------------- */

  /** `rows` are the log's events from position `a` on, in order. */
  predicate RowsFrom(log: seq<Event>, rows: seq<Row>, a: nat) {
    forall i :: 0 <= i < |rows| ==> rows[i].seqNo == a + 1 + i && Genuine(log, rows[i])
  }

  /** The transport was given exactly the events after `from`, in order, without gap or repeat. */
  predicate Delivered(log: seq<Event>, c: Client) { RowsFrom(log, c.sent, c.from) }

  predicate InStep(log: seq<Event>, c: Client) {
    Delivered(log, c) && (c.open ==> c.cursor == c.from + |c.sent|)
  }

  ghost predicate Holds(log: seq<Event>, held: map<nat, Event>, lo: nat, hi: nat) {
    hi <= |log| && forall k :: (k in held <==> lo < k <= hi) && (k in held ==> held[k] == log[k - 1])
  }

  ghost predicate ClientOk(log: seq<Event>, c: Client) {
    && InStep(log, c)
    && c.lo <= c.hi <= |log|
    && (c.replay.Paging? ==>
          && Holds(log, c.held, c.lo, c.hi)
          && c.lo <= c.replay.issued <= |log|
          && (c.open ==> c.cursor == c.replay.after))
    && (c.replay.Live? && c.open && c.registered ==> c.hi <= c.cursor)
    && (c.replay.Ended? ==> !c.registered)
  }

  ghost predicate HubOk(h: Hub) {
    && h.cursor <= |h.log|
    && (forall k :: k in h.held ==> 0 < k <= |h.log| && h.held[k] == h.log[k - 1])
    && (forall id :: id in h.clients ==> ClientOk(h.log, h.clients[id]))
    && (forall id :: id in h.clients && h.clients[id].registered ==> h.clients[id].hi == h.cursor)
    && (h.drain.Reading? ==> h.drain.since <= h.drain.issued <= |h.log|)
  }

  /** Nothing asked for is forgotten: it was reached, or a mark or a page still on its way will reach it. */
  predicate WakeOk(h: Hub) {
    && h.asked <= |h.log|
    && (h.asked > 0 && !h.dirty ==>
          match h.drain
          case Reading(since, issued) => h.asked <= issued && since <= h.cursor
          case _ => h.asked <= h.cursor)
  }

  /* ---------------------------- one client ---------------------------- */

  lemma TailRows(log: seq<Event>, rows: seq<Row>, a: nat)
    requires RowsFrom(log, rows, a) && rows != []
    ensures rows[0].seqNo == a + 1 && Genuine(log, rows[0]) && RowsFrom(log, rows[1..], a + 1)
  {
    forall i | 0 <= i < |rows[1..]| ensures rows[1..][i].seqNo == a + 1 + 1 + i && Genuine(log, rows[1..][i]) {
      assert rows[1..][i] == rows[i + 1];
    }
  }

  lemma {:induction false} SendAllKeeps(log: seq<Event>, c: Client, rows: seq<Row>, a: nat)
    requires InStep(log, c) && RowsFrom(log, rows, a) && (c.open ==> a <= c.cursor)
    ensures var c' := SendAll(c, rows);
      && InStep(log, c')
      && (c'.open ==> c.open && c'.cursor == Max(c.cursor, a + |rows|))
      && (c'.registered ==> c.registered)
      && c' == c.(cursor := c'.cursor, open := c'.open, room := c'.room, registered := c'.registered, sent := c'.sent)
    decreases |rows|
  {
    if rows != [] {
      var c1 := SendNow(c, rows[0]);
      TailRows(log, rows, a);
      SendAllKeeps(log, c1, rows[1..], a + 1);
    }
  }

  /** A contiguous buffer comes out as the log itself. */
  lemma {:induction false} InOrderIsLog(log: seq<Event>, held: map<nat, Event>, lo: nat, hi: nat)
    requires Holds(log, held, lo, hi) && lo <= hi
    ensures RowsFrom(log, InOrder(held), lo) && |InOrder(held)| == hi - lo
    decreases hi - lo
  {
    if lo < hi {
      assert lo + 1 in held.Keys;
      assert Least(held.Keys) == lo + 1;
      InOrderIsLog(log, held - {lo + 1}, lo + 1, hi);
    } else {
      assert held.Keys == {};
    }
  }

  /** The hand-over leaves no gap and no repeat: everything fanned out meanwhile goes out once, after the history. */
  lemma {:induction false} HandOverKeeps(log: seq<Event>, c: Client)
    requires InStep(log, c) && Holds(log, c.held, c.lo, c.hi) && c.lo <= c.hi && (c.open ==> c.lo <= c.cursor)
    ensures ClientOk(log, HandOver(c)) && HandOver(c).hi == c.hi && HandOver(c).from == c.from
    ensures HandOver(c).registered ==> c.registered
  {
    InOrderIsLog(log, c.held, c.lo, c.hi);
    SendAllKeeps(log, c, InOrder(c.held), c.lo);
  }

  lemma {:induction false} PageArrivesKeeps(log: seq<Event>, c: Client, seen: nat)
    requires ClientOk(log, c) && c.replay.Paging? && c.replay.issued <= seen <= |log|
    ensures var c' := PageArrives(c, Page(log, seen, c.replay.after, REPLAY_PAGE), |log|);
      ClientOk(log, c') && c'.hi == c.hi && c'.from == c.from && (c'.registered ==> c.registered)
  {
    var page := Page(log, seen, c.replay.after, REPLAY_PAGE);
    SendAllKeeps(log, c, page, c.replay.after);
    if |page| < REPLAY_PAGE { HandOverKeeps(log, SendAll(c, page)); }
  }

  lemma {:induction false} FanOneKeeps(log: seq<Event>, c: Client, row: Row)
    requires ClientOk(log, c) && c.registered && Genuine(log, row) && row.seqNo == c.hi + 1
    ensures ClientOk(log, FanOne(c, row)) && FanOne(c, row).hi == row.seqNo
  {
    if c.replay.Live? {
      assert c.open ==> RowsFrom(log, [row], row.seqNo - 1);
    }
  }

  lemma {:induction false} LogGrows(log: seq<Event>, e: Event, c: Client)
    requires ClientOk(log, c)
    ensures ClientOk(log + [e], c)
  {}

  /* ------------------------------ the hub ------------------------------ */

  /** What a stretch of ingesting may do besides moving the cursor forward. */
  ghost predicate Forward(h: Hub, h': Hub) {
    && h'.log == h.log && h'.globals == h.globals
    && h.cursor <= h'.cursor
    && h'.clients.Keys == h.clients.Keys
    && forall id :: id in h.clients && h'.clients[id].registered ==> h.clients[id].registered
  }

  lemma {:induction false} AdvanceKeeps(h: Hub, row: Row)
    requires HubOk(h) && Genuine(h.log, row) && row.seqNo == h.cursor + 1
    ensures HubOk(Advance(h, row)) && Forward(h, Advance(h, row))
  {
    forall id | id in h.clients && h.clients[id].registered
      ensures ClientOk(h.log, FanOne(h.clients[id], row)) && FanOne(h.clients[id], row).hi == row.seqNo
    { FanOneKeeps(h.log, h.clients[id], row); }
  }

  lemma {:induction false} FlushKeeps(h: Hub)
    requires HubOk(h)
    ensures HubOk(Flush(h)) && Forward(h, Flush(h))
    ensures Flush(h).dirty == h.dirty && Flush(h).drain == h.drain && Flush(h).asked == h.asked
    decreases h.held.Keys
  {
    var k := h.cursor + 1;
    if k in h.held {
      AdvanceKeeps(h, Row(k, h.held[k]));
      FlushKeeps(Advance(h, Row(k, h.held[k])));
    }
  }

  lemma {:induction false} IngestKeeps(h: Hub, row: Row)
    requires HubOk(h) && WakeOk(h) && Genuine(h.log, row)
    ensures var h' := Ingest(h, row);
      && HubOk(h') && Forward(h, h') && WakeOk(h')
      && (h.drain.Reading? ==> h'.drain == h.drain && (!h'.dirty ==> !h.dirty && h'.asked == h.asked))
      && (Watched(h') && row.seqNo <= h.cursor + 1 ==> row.seqNo <= h'.cursor)
  {
    if Watched(h) && row.seqNo == h.cursor + 1 {
      AdvanceKeeps(h, row);
      FlushKeeps(Advance(h, row));
    }
  }

  lemma WatchedBefore(h: Hub, h': Hub)
    requires Forward(h, h') && Watched(h')
    ensures Watched(h)
  {
    if h'.globals == 0 {
      var id :| id in h'.clients && h'.clients[id].registered;
      assert h.clients[id].registered;
    }
  }

  /** A page read after the cursor carries the cursor to the page's end, as long as someone still watches. */
  lemma {:induction false} IngestAllKeeps(h: Hub, rows: seq<Row>, a: nat)
    requires HubOk(h) && WakeOk(h) && RowsFrom(h.log, rows, a)
    ensures var h' := IngestAll(h, rows);
      && HubOk(h') && Forward(h, h') && WakeOk(h')
      && (h.drain.Reading? ==> h'.drain == h.drain && (!h'.dirty ==> !h.dirty && h'.asked == h.asked))
      && (Watched(h') && a <= h.cursor ==> a + |rows| <= h'.cursor)
    decreases |rows|
  {
    if rows != [] {
      TailRows(h.log, rows, a);
      IngestKeeps(h, rows[0]);
      var h1 := Ingest(h, rows[0]);
      IngestAllKeeps(h1, rows[1..], a + 1);
      if Watched(IngestAll(h1, rows[1..])) { WatchedBefore(h1, IngestAll(h1, rows[1..])); }
    }
  }

  lemma {:induction false} LoopTopKeeps(h: Hub)
    requires HubOk(h) && WakeOk(h) && (!h.dirty ==> h.asked <= h.cursor)
    ensures HubOk(LoopTop(h)) && (Watched(h) ==> WakeOk(LoopTop(h)))
  {
    assert Scoped(LoopTop(h)) == Scoped(h);
  }

  lemma {:induction false} DrainPageKeeps(h: Hub, seen: nat)
    requires HubOk(h) && WakeOk(h) && h.drain.Reading? && h.drain.issued <= seen <= |h.log|
    ensures var h' := DrainPageArrives(h, Page(h.log, seen, h.drain.since, DRAIN_PAGE));
      HubOk(h') && (Watched(h') ==> WakeOk(h'))
  {
    var page := Page(h.log, seen, h.drain.since, DRAIN_PAGE);
    IngestAllKeeps(h, page, h.drain.since);
    var h1 := IngestAll(h, page);
    NextRead(h1);
    if Watched(h1) && |page| < DRAIN_PAGE { ShortPage(h, seen, h1); }
    LoopTopFrame(h1);
  }

  /** A short page means that everything committed when it was asked for has been ingested. */
  lemma ShortPage(h: Hub, seen: nat, h1: Hub)
    requires WakeOk(h) && h.drain.Reading? && h.drain.since <= h.drain.issued <= seen <= |h.log|
    requires h1 == IngestAll(h, Page(h.log, seen, h.drain.since, DRAIN_PAGE)) && HubOk(h1) && WakeOk(h1) && Watched(h1)
    requires |Page(h.log, seen, h.drain.since, DRAIN_PAGE)| < DRAIN_PAGE
    requires h1.drain == h.drain && (!h1.dirty ==> !h.dirty && h1.asked == h.asked)
    requires h.drain.since <= h.cursor ==> h.drain.since + |Page(h.log, seen, h.drain.since, DRAIN_PAGE)| <= h1.cursor
    ensures HubOk(LoopTop(h1)) && WakeOk(LoopTop(h1))
  {
    LoopTopKeeps(h1);
  }

  lemma NextRead(h: Hub)
    requires HubOk(h) && WakeOk(h)
    ensures var h' := h.(drain := Reading(h.cursor, |h.log|)); HubOk(h') && WakeOk(h') && Watched(h') == Watched(h)
  {
    assert Scoped(h.(drain := Reading(h.cursor, |h.log|))) == Scoped(h);
  }

  lemma LoopTopFrame(h: Hub)
    requires HubOk(h)
    ensures HubOk(LoopTop(h)) && Watched(LoopTop(h)) == Watched(h)
  {
    assert Scoped(LoopTop(h)) == Scoped(h);
  }

  lemma {:induction false} ReplayPageKeeps(h: Hub, id: ClientId, seen: nat)
    requires HubOk(h) && WakeOk(h)
    ensures HubOk(Effect(h, ReplayPage(id, seen))) && WakeOk(Effect(h, ReplayPage(id, seen)))
  {
    if id in h.clients && h.clients[id].replay.Paging? && h.clients[id].replay.issued <= seen <= |h.log| {
      PageArrivesKeeps(h.log, h.clients[id], seen);
    }
  }

  lemma {:induction false} RequestDrainKeeps(h: Hub)
    requires HubOk(h) && WakeOk(h)
    ensures HubOk(RequestDrain(h)) && WakeOk(RequestDrain(h))
  {}

  lemma {:induction false} PruneKeeps(h: Hub, everyone: bool)
    requires HubOk(h) && (Watched(h) ==> WakeOk(h))
    ensures var h' := Prune(h, everyone); HubOk(h') && Watched(h') == Watched(h) && (Watched(h') ==> WakeOk(h'))
  {
    assert Scoped(Prune(h, everyone)) == Scoped(h);
  }

  lemma {:induction false} OneClient(h: Hub, id: ClientId, c: Client)
    requires HubOk(h) && ClientOk(h.log, c) && (c.registered ==> c.hi == h.cursor)
    ensures HubOk(h.(clients := h.clients[id := c])) && WakeOk(h.(clients := h.clients[id := c])) == WakeOk(h)
  {}

  lemma {:induction false} EvictKeeps(h: Hub)
    requires HubOk(h) && WakeOk(h)
    ensures HubOk(Effect(h, Evict)) && WakeOk(Effect(h, Evict))
  {
    if !Scoped(h) {
      assert forall id :: id in h.clients ==> !h.clients[id].registered;
    }
  }

  lemma {:induction false} CommitKeeps(h: Hub, e: Event)
    requires HubOk(h) && WakeOk(h)
    ensures HubOk(Effect(h, Commit(e))) && WakeOk(Effect(h, Commit(e)))
  {
    forall id | id in h.clients ensures ClientOk(h.log + [e], h.clients[id]) { LogGrows(h.log, e, h.clients[id]); }
  }

  lemma {:induction false} RemoveKeeps(h: Hub, id: ClientId, everyone: bool)
    requires HubOk(h) && WakeOk(h) && id in h.clients
    ensures var h' := Effect(h, Remove(id, everyone)); HubOk(h') && (Watched(h') ==> WakeOk(h'))
  {
    OneClient(h, id, h.clients[id].(registered := false));
    PruneKeeps(h.(clients := h.clients[id := h.clients[id].(registered := false)]), everyone);
  }

  lemma {:induction false} GlobalsKeep(h: Hub, n: nat, everyone: bool)
    requires HubOk(h) && WakeOk(h)
    ensures var h' := Effect(h, GlobalClients(n, everyone)); HubOk(h') && (Watched(h') ==> WakeOk(h'))
  {
    PruneKeeps(h.(globals := n), everyone);
  }

  lemma {:induction false} SettlesKeeps(h: Hub)
    requires HubOk(h) && WakeOk(h) && h.drain.Exiting?
    ensures HubOk(DrainFinally(h)) && WakeOk(DrainFinally(h))
  {
    RequestDrainKeeps(h.(drain := Idle));
  }

  /** One step of the hub keeps the hub exact and, while the run is watched, awake. */
  lemma {:induction false} EffectKeeps(h: Hub, s: Step)
    requires HubOk(h) && WakeOk(h)
    ensures HubOk(Effect(h, s)) && (Watched(Effect(h, s)) ==> WakeOk(Effect(h, s)))
  {
    assert forall id :: id in h.clients ==>
      ClientOk(h.log, h.clients[id]) && (h.clients[id].registered ==> h.clients[id].hi == h.cursor);
    hide HubOk, WakeOk, Watched;
    match s
    case Commit(e) => CommitKeeps(h, e);
    case Publish(k) => if 0 < k <= |h.log| { IngestKeeps(h, Row(k, h.log[k - 1])); }
    case Notify(k) => RequestDrainKeeps(h);
    case Poll => RequestDrainKeeps(h);
    case DrainPage(seen) =>
      if h.drain.Reading? && h.drain.issued <= seen <= |h.log| { DrainPageKeeps(h, seen); }
    case DrainSettles => if h.drain.Exiting? { SettlesKeeps(h); }
    case JoinClient(id, from, room, throws) => JoinKeeps(h, id, from, room, throws);
    case ReplayPage(id, seen) => ReplayPageKeeps(h, id, seen);
    case Remove(id, everyone) => if id in h.clients { RemoveKeeps(h, id, everyone); }
    case Weather(id, room, throws) =>
      if id in h.clients { OneClient(h, id, h.clients[id].(room := room, throws := throws)); }
    case Disconnect(id) => if id in h.clients { OneClient(h, id, h.clients[id].(open := false)); }
    case GlobalClients(n, everyone) => GlobalsKeep(h, n, everyone);
    case Evict => EvictKeeps(h);
  }

  lemma {:induction false} JoinKeeps(h: Hub, id: ClientId, from: nat, room: nat, throws: bool)
    requires HubOk(h) && WakeOk(h)
    ensures var h' := Effect(h, JoinClient(id, from, room, throws)); HubOk(h') && WakeOk(h')
  {
    if id !in h.clients { OneClient(h, id, Join(h, id, from, room, throws).clients[id]); }
  }

  lemma {:induction false} NextKeeps(h: Hub, s: Step)
    requires HubOk(h) && WakeOk(h)
    ensures HubOk(Next(h, s)) && WakeOk(Next(h, s))
  {
    EffectKeeps(h, s);
  }

  lemma {:induction false} RunKeeps(h: Hub, steps: seq<Step>)
    requires HubOk(h) && WakeOk(h)
    ensures HubOk(Run(h, steps)) && WakeOk(Run(h, steps))
    decreases |steps|
  {
    if steps != [] {
      NextKeeps(h, steps[0]);
      RunKeeps(Next(h, steps[0]), steps[1..]);
    }
  }

  /* --------------------------- main theorems --------------------------- */

  /**
   * Exact delivery. After any interleaving of commits, publishes, notifications,
   * drain and replay pages, joins, removals and transport failures, what a client's
   * transport accepted is exactly the log after the cursor the client joined with.
   * A live client whose transport is up has everything the hub's cursor has passed.
   */
  lemma {:induction false} ExactDelivery(steps: seq<Step>, id: ClientId)
    requires id in Run(NEW_HUB, steps).clients
    ensures Delivered(Run(NEW_HUB, steps).log, Run(NEW_HUB, steps).clients[id])
    ensures var h := Run(NEW_HUB, steps); var c := h.clients[id];
      c.registered && c.open && c.replay.Live? ==> h.cursor <= c.from + |c.sent|
  {
    RunKeeps(NEW_HUB, steps);
    assert ClientOk(Run(NEW_HUB, steps).log, Run(NEW_HUB, steps).clients[id]);
  }

  /**
   * No lost wake-up. While the run stays watched, whenever no drain is active and
   * the run is not marked dirty, the hub cursor has reached everything that was
   * committed before the latest drain request, whenever that request came.
   */
  lemma {:induction false} NoLostWakeup(steps: seq<Step>)
    ensures var h := Run(NEW_HUB, steps); h.drain.Idle? && !h.dirty ==> h.asked <= h.cursor <= |h.log|
  {
    RunKeeps(NEW_HUB, steps);
  }

/* ---------------------------- recovery ---------------------------- */

  /** A request for everything up to `goal` is under way, or has been met. */
  predicate Asked(h: Hub, goal: nat) { goal <= h.asked && (h.drain.Idle? ==> !h.dirty) }

  /** How many pages lead from `since` to `goal`. */
  function Pages(goal: nat, since: nat): nat { if goal <= since then 0 else (goal - since - 1) / DRAIN_PAGE + 1 }

  /** How many turns of its drain the hub needs at most until its cursor has reached `goal`. */
  function Need(h: Hub, goal: nat): nat {
    if goal <= h.cursor then 0
    else if h.drain.Reading? && h.drain.since <= h.cursor && goal <= h.drain.issued
      then Min(Pages(goal, h.drain.since), 1 + Pages(goal, h.cursor))
    else 1 + Pages(goal, h.cursor)
  }

  /** The drain itself takes a turn: its page arrives, or its `finally` runs. */
  predicate Turn(h: Hub, s: Step) {
    || (s.DrainPage? && h.drain.Reading? && h.drain.issued <= s.seen <= |h.log|)
    || (s.DrainSettles? && h.drain.Exiting?)
  }

  ghost function Turns(h: Hub, steps: seq<Step>): nat
    decreases |steps|
  {
    if steps == [] then 0 else (if Turn(h, steps[0]) then 1 else 0) + Turns(Next(h, steps[0]), steps[1..])
  }

  /** Somebody keeps watching the run, and its cursor is not evicted. */
  ghost predicate Attended(h: Hub, steps: seq<Step>)
    decreases |steps|
  {
    Watched(h) &&
    (steps == [] || ((steps[0].Evict? ==> Scoped(h)) && Attended(Next(h, steps[0]), steps[1..])))
  }

  /** What one step does for a request: it is not forgotten, and a turn of the drain brings it closer. */
  predicate Closer(h: Hub, h': Hub, goal: nat, turns: nat) {
    && Asked(h', goal) && h.cursor <= h'.cursor
    && (goal <= h'.cursor || Need(h', goal) + turns <= Need(h, goal))
  }

  lemma {:induction false} RequestCloser(h: Hub, goal: nat)
    requires WakeOk(h) && Watched(h) && Asked(h, goal)
    ensures Closer(h, RequestDrain(h), goal, 0) && RequestDrain(h).cursor == h.cursor
    ensures h.drain.Reading? ==> RequestDrain(h).drain == h.drain
  {
    hide Watched;
    assert Watched(h.(dirty := true, asked := |h.log|)) by { SameWatch(h, h.(dirty := true, asked := |h.log|)); }
  }

  lemma SameWatch(h: Hub, h': Hub)
    requires h'.clients == h.clients && h'.globals == h.globals
    ensures Watched(h') == Watched(h)
  {
    assert Scoped(h') == Scoped(h);
  }

  lemma {:induction false} IngestCloser(h: Hub, row: Row, goal: nat)
    requires HubOk(h) && WakeOk(h) && Genuine(h.log, row) && Asked(h, goal)
    ensures Asked(Ingest(h, row), goal) && h.cursor <= Ingest(h, row).cursor
    ensures Watched(h) ==> Closer(h, Ingest(h, row), goal, 0)
  {
    if Watched(h) && row.seqNo == h.cursor + 1 {
      AdvanceKeeps(h, row);
      FlushKeeps(Advance(h, row));
      hide HubOk, Flush, Watched;
    } else if Watched(h) && row.seqNo > h.cursor {
      SameWatch(h, h.(held := h.held[row.seqNo := row.event]));
      RequestCloser(h.(held := h.held[row.seqNo := row.event]), goal);
      hide HubOk, RequestDrain, Watched;
    }
  }

  lemma {:induction false} IngestAllAsked(h: Hub, rows: seq<Row>, a: nat, goal: nat)
    requires HubOk(h) && WakeOk(h) && RowsFrom(h.log, rows, a) && Asked(h, goal)
    ensures Asked(IngestAll(h, rows), goal)
    decreases |rows|
  {
    if rows != [] {
      TailRows(h.log, rows, a);
      IngestKeeps(h, rows[0]);
      IngestCloser(h, rows[0], goal);
      hide HubOk, WakeOk, Ingest, Asked, Watched;
      IngestAllAsked(Ingest(h, rows[0]), rows[1..], a + 1, goal);
    }
  }

  lemma {:induction false} PageCloser(h: Hub, seen: nat, goal: nat)
    requires HubOk(h) && WakeOk(h) && Asked(h, goal) && h.drain.Reading? && h.drain.issued <= seen <= |h.log|
    ensures var h' := DrainPageArrives(h, Page(h.log, seen, h.drain.since, DRAIN_PAGE));
      Watched(h') ==> Closer(h, h', goal, 1)
  {
    var page := Page(h.log, seen, h.drain.since, DRAIN_PAGE);
    var h1 := IngestAll(h, page);
    IngestAllKeeps(h, page, h.drain.since);
    IngestAllAsked(h, page, h.drain.since, goal);
    LoopTopFrame(h1);
    NextRead(h1);
    hide HubOk, Watched, IngestAll, RowsFrom;
  }

  lemma {:induction false} SettlesCloser(h: Hub, goal: nat)
    requires WakeOk(h) && Watched(h) && Asked(h, goal) && h.drain.Exiting?
    ensures Closer(h, DrainFinally(h), goal, 1)
  {
    SameWatch(h, h.(drain := Idle));
    SameWatch(h, h.(drain := Idle, dirty := true, asked := |h.log|));
    hide Watched;
  }

  lemma {:induction false} QuietCloser(h: Hub, s: Step, goal: nat)
    requires Asked(h, goal) && Watched(Effect(h, s)) && (s.Evict? ==> Scoped(h))
    requires !s.Publish? && !s.Notify? && !s.Poll? && !s.DrainPage? && !s.DrainSettles?
    ensures Closer(h, Effect(h, s), goal, 0)
  {
    match s
    case ReplayPage(id, seen) =>
    case Remove(id, everyone) => if id in h.clients {
      PruneIdle(h.(clients := h.clients[id := h.clients[id].(registered := false)]), everyone);
    }
    case GlobalClients(n, everyone) => PruneIdle(h.(globals := n), everyone);
    case _ =>
  }

  lemma PruneIdle(h: Hub, everyone: bool)
    requires Watched(Prune(h, everyone))
    ensures Prune(h, everyone) == h
  {
    if !Watched(h) { SameWatch(h, Prune(h, everyone)); }
  }

  lemma {:induction false} StepCloser(h: Hub, s: Step, goal: nat)
    requires HubOk(h) && WakeOk(h) && Asked(h, goal) && Watched(h) && Watched(Next(h, s)) && (s.Evict? ==> Scoped(h))
    ensures Closer(h, Next(h, s), goal, if Turn(h, s) then 1 else 0)
  {
    assert Watched(Effect(h, s)) && Next(h, s) == Effect(h, s) by { StillWatched(h, s); }
    hide HubOk, WakeOk, Asked, Watched, Next, Closer, Need;
    match s
    case Publish(k) => if 0 < k <= |h.log| { IngestCloser(h, Row(k, h.log[k - 1]), goal); } else { Same(h, goal); }
    case Notify(k) => RequestCloser(h, goal); Same(h, goal);
    case Poll => RequestCloser(h, goal);
    case DrainPage(seen) => if Turn(h, s) { PageCloser(h, seen, goal); } else { Same(h, goal); }
    case DrainSettles => if Turn(h, s) { SettlesCloser(h, goal); } else { Same(h, goal); }
    case _ => QuietCloser(h, s, goal);
  }

  lemma StillWatched(h: Hub, s: Step)
    requires Watched(Next(h, s))
    ensures Watched(Effect(h, s)) && Next(h, s) == Effect(h, s)
  {
    SameWatch(Effect(h, s), Effect(h, s).(asked := 0));
  }

  lemma Same(h: Hub, goal: nat)
    requires Asked(h, goal)
    ensures Closer(h, h, goal, 0)
  {}

  /**
   * Whatever happens meanwhile, commits, publishes, joins, replays, failures and further
   * requests, each turn of the drain brings a request closer, and nothing takes it back.
   */
  lemma {:induction false} DrainArrives(h: Hub, steps: seq<Step>, goal: nat)
    requires HubOk(h) && WakeOk(h) && Asked(h, goal) && Attended(h, steps)
    ensures var h' := Run(h, steps);
      HubOk(h') && WakeOk(h') && Asked(h', goal) && (Turns(h, steps) >= Need(h, goal) ==> goal <= h'.cursor)
    ensures goal <= h.cursor ==> goal <= Run(h, steps).cursor
    decreases |steps|
  {
    if steps != [] {
      NextKeeps(h, steps[0]);
      AttendedNext(h, steps);
      StepCloser(h, steps[0], goal);
      hide HubOk, WakeOk, Asked, Watched, Next, Need, Turn;
      DrainArrives(Next(h, steps[0]), steps[1..], goal);
    }
  }

  lemma AttendedNext(h: Hub, steps: seq<Step>)
    requires Attended(h, steps) && steps != []
    ensures Watched(h) && Watched(Next(h, steps[0])) && (steps[0].Evict? ==> Scoped(h))
    ensures Attended(Next(h, steps[0]), steps[1..])
  {}

  lemma {:induction false} PollAsks(h: Hub)
    requires HubOk(h) && WakeOk(h) && Watched(h)
    ensures var h1 := Next(h, Poll);
      HubOk(h1) && WakeOk(h1) && Asked(h1, |h.log|) && Need(h1, |h.log|) <= 1 + Pages(|h.log|, h.cursor)
  {
    NextKeeps(h, Poll);
    SameWatch(h, h.(dirty := true, asked := |h.log|));
    SameWatch(h, RequestDrain(h));
    hide HubOk, Watched;
  }

  /**
   * Polling is a complete recovery path. In any reachable state in which the run is
   * watched, whatever its drain is doing, one poll is enough: while somebody keeps
   * watching, the drain does not rest before the hub's cursor has reached everything
   * committed before the poll, and it gets there within one turn and one for each page
   * in between, whatever else happens. Every live client has it then.
   */
  lemma {:induction false} PollCatchesUp(before: seq<Step>, after: seq<Step>)
    requires Watched(Run(NEW_HUB, before)) && Attended(Next(Run(NEW_HUB, before), Poll), after)
    ensures var h := Run(NEW_HUB, before); var h' := Run(Next(h, Poll), after);
      && (h'.drain.Idle? ==> |h.log| <= h'.cursor)
      && (Turns(Next(h, Poll), after) >= 1 + Pages(|h.log|, h.cursor) ==> |h.log| <= h'.cursor)
      && (|h.log| <= h'.cursor ==>
            forall id ::
              id in h'.clients && h'.clients[id].registered && h'.clients[id].open && h'.clients[id].replay.Live? ==>
                |h.log| <= h'.clients[id].from + |h'.clients[id].sent|)
  {
    var h := Run(NEW_HUB, before);
    RunKeeps(NEW_HUB, before);
    PollAsks(h);
    hide HubOk, Watched, Attended, Next, Run, Turns, Need;
    DrainArrives(Next(h, Poll), after, |h.log|);
    LiveAreDone(Run(Next(h, Poll), after));
  }

  lemma LiveAreDone(h: Hub)
    requires HubOk(h)
    ensures forall id ::
      id in h.clients && h.clients[id].registered && h.clients[id].open && h.clients[id].replay.Live? ==>
        h.cursor <= h.clients[id].from + |h.clients[id].sent|
  {
    forall id | id in h.clients ensures ClientOk(h.log, h.clients[id]) {}
  }
}
