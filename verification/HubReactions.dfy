/**
 * What the hub does with what it is told, and what it never does to a client: the
 * positive side of the promises in `HubProofs`.
 */
module HubReactions {
  import opened Common
  import opened Events
  import opened HubModel
  import opened HubProofs

  /* ----------------------------- what it is told ----------------------------- */

  /** The hub learns of a committed event it cannot deliver yet: out of order, or only told about. */
  predicate Learns(h: Hub, s: Step) {
    || (s.Publish? && h.cursor + 1 < s.seqNo <= |h.log|)
    || (s.Notify? && h.cursor < s.seqNo <= |h.log|)
  }

  lemma {:induction false} LearningAsks(h: Hub, s: Step)
    requires HubOk(h) && WakeOk(h) && Watched(h) && Learns(h, s)
    ensures var h1 := Next(h, s);
      && HubOk(h1) && WakeOk(h1) && h1.log == h.log && h1.cursor == h.cursor
      && h1.asked == |h.log| && !h1.drain.Idle? && (s.Publish? ==> s.seqNo in h1.held)
    ensures Asked(Next(h, s), |h.log|) && Need(Next(h, s), |h.log|) <= 1 + Pages(|h.log|, h.cursor)
  {
    NextKeeps(h, s);
    var held := if s.Publish? then h.(held := h.held[s.seqNo := h.log[s.seqNo - 1]]) else h;
    SameWatch(h, held);
    SameWatch(h, held.(dirty := true, asked := |h.log|));
    SameWatch(h, RequestDrain(held));
    hide HubOk, Watched;
  }

  /**
   * Nothing the hub hears of is lost. In any reachable state in which the run is watched,
   * an event published out of order, or a notification of one the hub has not reached,
   * asks for everything committed so far, whatever the drain is doing. While somebody
   * keeps watching, the drain does not rest before the cursor is there, it is there within
   * one turn of the drain and one for each page in between, and every live client has it.
   */
  lemma {:induction false} MissedIsFetched(before: seq<Step>, s: Step, after: seq<Step>)
    requires Watched(Run(NEW_HUB, before)) && Learns(Run(NEW_HUB, before), s)
    requires Attended(Next(Run(NEW_HUB, before), s), after)
    ensures var h := Run(NEW_HUB, before); var h1 := Next(h, s);
      h1.asked == |h.log| && !h1.drain.Idle?
    ensures var h := Run(NEW_HUB, before); var h' := Run(Next(h, s), after);
      && (h'.drain.Idle? ==> |h.log| <= h'.cursor)
      && (Turns(Next(h, s), after) >= 1 + Pages(|h.log|, h.cursor) ==> |h.log| <= h'.cursor)
      && (|h.log| <= h'.cursor ==>
            forall id ::
              id in h'.clients && h'.clients[id].registered && h'.clients[id].open && h'.clients[id].replay.Live? ==>
                |h.log| <= h'.clients[id].from + |h'.clients[id].sent|)
  {
    var h := Run(NEW_HUB, before);
    RunKeeps(NEW_HUB, before);
    LearningAsks(h, s);
    hide HubOk, Watched, Attended, Next, Run, Turns, Need;
    DrainArrives(Next(h, s), after, |h.log|);
    LiveAreDone(Run(Next(h, s), after));
  }

  lemma {:induction false} FlushForward(h: Hub)
    ensures h.cursor <= Flush(h).cursor && Flush(h).cursor + 1 !in h.held
    ensures forall i :: h.cursor < i <= Flush(h).cursor ==> i in h.held
    ensures forall i :: Flush(h).cursor < i ==> (i in Flush(h).held <==> i in h.held)
    decreases h.held.Keys
  {
    var k := h.cursor + 1;
    if k in h.held { FlushForward(Advance(h, Row(k, h.held[k]))); }
  }

  lemma {:induction false} PublishesNext(h: Hub)
    requires Watched(h) && h.cursor < |h.log|
    ensures var k := h.cursor + 1; var h' := Next(h, Publish(k));
      var flushed := Flush(Advance(h, Row(k, h.log[k - 1])));
      h'.cursor == flushed.cursor && h'.held == flushed.held
  {
    hide Flush, Advance, Watched;
  }

  /**
   * The next event in line goes out at once, and with it everything that was waiting
   * behind it: the cursor moves over the published event and over exactly the contiguous
   * events held out of order.
   */
  lemma {:induction false} NextInLine(h: Hub)
    requires HubOk(h) && WakeOk(h) && Watched(h) && h.cursor < |h.log|
    ensures var k := h.cursor + 1; var h' := Next(h, Publish(k));
      && k <= h'.cursor && (forall i :: k < i <= h'.cursor ==> i in h.held) && h'.cursor + 1 !in h.held
      && forall i :: h'.cursor < i && i in h.held ==> i in h'.held
  {
    var k := h.cursor + 1;
    var row := Row(k, h.log[h.cursor]);
    var h1 := Advance(h, row);
    FlushForward(h1);
    assert h1.cursor == k && forall i :: i in h1.held <==> i in h.held && i != k;
    PublishesNext(h);
    hide *;
  }

  /** What the hub has passed already is not sent again, and changes nothing. */
  lemma {:induction false} OldNews(h: Hub, k: nat)
    requires Watched(h) && k <= h.cursor
    ensures Next(h, Publish(k)) == h && Next(h, Notify(k)) == h
  {}

  /* ---------------------------- how clients end ---------------------------- */

  /** A client loses its transport only when that takes no more, or when too much piles up during its replay. */
  predicate Spends(c: Client, c': Client) {
    && c'.room + |c'.sent| == c.room + |c.sent| && c'.throws == c.throws
    && (c.open && !c'.open ==> c'.room == 0 || |c'.held| > MAX_HELD)
    && (c'.open ==> c.open) && (c'.registered ==> c.registered)
    && (c.registered && !c'.registered ==> !c'.open)
    && (c.open && !c'.open && c.throws ==> !c'.registered)
  }

  lemma {:induction false} SendAllSpends(c: Client, rows: seq<Row>)
    ensures Spends(c, SendAll(c, rows)) && SendAll(c, rows).held == c.held
    ensures c.open && !SendAll(c, rows).open ==> SendAll(c, rows).room == 0
    ensures c.room == 0 ==> SendAll(c, rows).room == 0
    decreases |rows|
  {
    if rows != [] { SendAllSpends(SendNow(c, rows[0]), rows[1..]); }
  }

  lemma {:induction false} PageSpends(c: Client, page: seq<Row>, now: nat)
    requires c.replay.Paging?
    ensures Spends(c, PageArrives(c, page, now))
  {
    SendAllSpends(c, page);
    var c1 := SendAll(c, page);
    SendAllSpends(c1, InOrder(c1.held));
  }

  /** What `FanOne` adds to `Spends`: an overflow is final, and a full transport stays full. */
  predicate Fanned(c: Client, c': Client) {
    && Spends(c, c') && c'.replay == c.replay
    && (c.room == 0 ==> c'.room == 0)
    && (c.open && !c'.open && |c'.held| > MAX_HELD && c'.room > 0 ==> !c'.registered)
    && (!c.registered ==> c' == c)
  }

  lemma {:induction false} FanSpends(c: Client, c1: Client, c2: Client)
    requires Fanned(c, c1) && Fanned(c1, c2)
    ensures Fanned(c, c2)
  {}

  lemma {:induction false} FanOneSpends(c: Client, row: Row)
    requires c.registered
    ensures Fanned(c, FanOne(c, row))
  {}

  lemma {:induction false} FlushSpends(h: Hub, id: ClientId)
    requires id in h.clients
    ensures id in Flush(h).clients && Fanned(h.clients[id], Flush(h).clients[id])
    decreases h.held.Keys
  {
    var k := h.cursor + 1;
    if k in h.held {
      var row := Row(k, h.held[k]);
      var h1 := Advance(h, row);
      if h.clients[id].registered { FanOneSpends(h.clients[id], row); }
      FlushSpends(h1, id);
      hide Fanned, Flush, FanOne;
      FanSpends(h.clients[id], h1.clients[id], Flush(h1).clients[id]);
    }
  }

  lemma {:induction false} IngestSpends(h: Hub, row: Row, id: ClientId)
    requires id in h.clients
    ensures id in Ingest(h, row).clients && Fanned(h.clients[id], Ingest(h, row).clients[id])
  {
    if Watched(h) && row.seqNo == h.cursor + 1 {
      var h1 := Advance(h, row);
      if h.clients[id].registered { FanOneSpends(h.clients[id], row); }
      FlushSpends(h1, id);
      hide Fanned, Flush, FanOne;
      FanSpends(h.clients[id], h1.clients[id], Flush(h1).clients[id]);
    }
  }

  lemma {:induction false} IngestAllSpends(h: Hub, rows: seq<Row>, id: ClientId)
    requires id in h.clients
    ensures id in IngestAll(h, rows).clients && Fanned(h.clients[id], IngestAll(h, rows).clients[id])
    decreases |rows|
  {
    if rows != [] {
      var h1 := Ingest(h, rows[0]);
      IngestSpends(h, rows[0], id);
      hide Fanned, Ingest;
      IngestAllSpends(h1, rows[1..], id);
      FanSpends(h.clients[id], h1.clients[id], IngestAll(h1, rows[1..]).clients[id]);
    }
  }

  /** The steps that ingest rows. */
  predicate Ingesting(s: Step) { s.Publish? || s.DrainPage? }

  lemma {:induction false} SameLogFlush(h: Hub)
    ensures Flush(h).log == h.log
    decreases h.held.Keys
  {
    if h.cursor + 1 in h.held { SameLogFlush(Advance(h, Row(h.cursor + 1, h.held[h.cursor + 1]))); }
  }

  lemma {:induction false} SameLog(h: Hub, row: Row)
    ensures Ingest(h, row).log == h.log
  {
    SameLogFlush(Advance(h, row));
  }

  lemma {:induction false} SameLogAll(h: Hub, rows: seq<Row>)
    ensures IngestAll(h, rows).log == h.log
    decreases |rows|
  {
    if rows != [] {
      SameLog(h, rows[0]);
      SameLogAll(Ingest(h, rows[0]), rows[1..]);
    }
  }

  lemma FannedSelf(c: Client)
    ensures Fanned(c, c)
  {}

  lemma {:induction false} IngestingFans(h: Hub, s: Step, id: ClientId)
    requires id in h.clients && Ingesting(s)
    ensures id in Effect(h, s).clients && Effect(h, s).log == h.log && Fanned(h.clients[id], Effect(h, s).clients[id])
  {
    FannedSelf(h.clients[id]);
    hide Fanned, IngestAll, Ingest, Watched;
    if s.Publish? {
      if 0 < s.seqNo <= |h.log| {
        IngestSpends(h, Row(s.seqNo, h.log[s.seqNo - 1]), id);
        SameLog(h, Row(s.seqNo, h.log[s.seqNo - 1]));
      }
    } else if h.drain.Reading? && h.drain.issued <= s.seen <= |h.log| {
      IngestAllSpends(h, Page(h.log, s.seen, h.drain.since, DRAIN_PAGE), id);
      SameLogAll(h, Page(h.log, s.seen, h.drain.since, DRAIN_PAGE));
    }
  }

  /** All other steps but a replay page leave a client's frames and replay as they are. */
  lemma {:induction false} QuietFor(h: Hub, s: Step, id: ClientId)
    requires id in h.clients && !Ingesting(s) && !(s.ReplayPage? && s.id == id)
    ensures id in Effect(h, s).clients && |h.log| <= |Effect(h, s).log|
    ensures var c, c' := h.clients[id], Effect(h, s).clients[id];
      && c'.sent == c.sent && c'.replay == c.replay && (c'.room == c.room || (s.Weather? && s.id == id))
      && (c'.open == c.open || s == Disconnect(id)) && (c'.registered == c.registered || (s.Remove? && s.id == id))
  {
    hide PageArrives, Watched, Scoped;
  }

  lemma {:induction false} EffectSpends(h: Hub, s: Step, id: ClientId)
    requires id in h.clients
    ensures id in Effect(h, s).clients
    ensures var c, c' := h.clients[id], Effect(h, s).clients[id];
      && (!(s.Weather? && s.id == id) ==> c'.room + |c'.sent| == c.room + |c.sent|)
      && (c.open && !c'.open ==> s == Disconnect(id) || c'.room == 0 || |c'.held| > MAX_HELD)
      && (c.registered && !c'.registered ==> (s.Remove? && s.id == id) || !c'.open)
      && (c.open && !c'.open && c.throws && s != Disconnect(id) ==> !c'.registered)
  {
    if Ingesting(s) {
      IngestingFans(h, s, id);
      hide Effect;
    } else if s.ReplayPage? && s.id == id {
      if h.clients[id].replay.Paging? && h.clients[id].replay.issued <= s.seen <= |h.log| {
        PageSpends(h.clients[id], Page(h.log, s.seen, h.clients[id].replay.after, REPLAY_PAGE), |h.log|);
      }
      hide PageArrives;
    } else {
      QuietFor(h, s, id);
      hide Effect;
    }
  }

  /**
   * The hub gives nobody up without cause. A frame accepted costs a transport one frame
   * of what it takes. In one step a client's transport closes only if it disconnects, if
   * it takes no more, or if more than the buffer's bound piles up during its replay; it is
   * unregistered only by leaving or because its transport is closed; and a transport that
   * throws is unregistered with it.
   */
  lemma {:induction false} ClosedForCause(h: Hub, s: Step, id: ClientId)
    requires id in h.clients
    ensures id in Next(h, s).clients
    ensures var c, c' := h.clients[id], Next(h, s).clients[id];
      && (!(s.Weather? && s.id == id) ==> c'.room + |c'.sent| == c.room + |c.sent|)
      && (c.open && !c'.open ==> s == Disconnect(id) || c'.room == 0 || |c'.held| > MAX_HELD)
      && (c.registered && !c'.registered ==> (s.Remove? && s.id == id) || !c'.open)
      && (c.open && !c'.open && c.throws && s != Disconnect(id) ==> !c'.registered)
  {
    EffectSpends(h, s, id);
  }

  /* ------------------------------- replays ------------------------------- */

  /** A history page of client `id` arrives. */
  predicate PageTurn(h: Hub, s: Step, id: ClientId) {
    && s.ReplayPage? && s.id == id && id in h.clients && h.clients[id].replay.Paging?
    && h.clients[id].replay.issued <= s.seen <= |h.log|
  }

  ghost function PageTurns(h: Hub, steps: seq<Step>, id: ClientId): nat
    decreases |steps|
  {
    if steps == [] then 0
    else (if PageTurn(h, steps[0], id) then 1 else 0) + PageTurns(Next(h, steps[0]), steps[1..], id)
  }

  lemma {:induction false} ReplayEffect(h: Hub, s: Step, id: ClientId)
    requires id in h.clients
    ensures id in Effect(h, s).clients && |h.log| <= |Effect(h, s).log|
    ensures var r, r' := h.clients[id].replay, Effect(h, s).clients[id].replay;
      r'.Paging? ==>
        && r.Paging? && r'.after == r.after + (if PageTurn(h, s, id) then REPLAY_PAGE else 0)
        && (PageTurn(h, s, id) ==> r'.after <= |h.log|)
  {
    if Ingesting(s) {
      IngestingFans(h, s, id);
      hide Effect;
    } else if s.ReplayPage? && s.id == id {
      if PageTurn(h, s, id) { SameReplay(h.clients[id], h, s.seen); }
      hide SendAll, InOrder;
    } else {
      QuietFor(h, s, id);
      hide Effect;
    }
  }

  lemma {:induction false} SameReplay(c: Client, h: Hub, seen: nat)
    requires c.replay.Paging? && seen <= |h.log|
    ensures SendAll(c, Page(h.log, seen, c.replay.after, REPLAY_PAGE)).replay == c.replay
  {
    SendAllReplay(c, Page(h.log, seen, c.replay.after, REPLAY_PAGE));
  }

  lemma {:induction false} SendAllReplay(c: Client, rows: seq<Row>)
    ensures SendAll(c, rows).replay == c.replay
    decreases |rows|
  {
    if rows != [] { SendAllReplay(SendNow(c, rows[0]), rows[1..]); }
  }

  lemma {:induction false} ReplayStep(h: Hub, s: Step, id: ClientId)
    requires id in h.clients
    ensures id in Next(h, s).clients && |h.log| <= |Next(h, s).log|
    ensures var r, r' := h.clients[id].replay, Next(h, s).clients[id].replay;
      r'.Paging? ==>
        && r.Paging? && r'.after == r.after + (if PageTurn(h, s, id) then REPLAY_PAGE else 0)
        && (PageTurn(h, s, id) ==> r'.after <= |h.log|)
  {
    hide Effect;
    ReplayEffect(h, s, id);
  }

  lemma {:induction false} StillPaging(h: Hub, steps: seq<Step>, id: ClientId)
    requires id in h.clients
    ensures id in Run(h, steps).clients && |h.log| <= |Run(h, steps).log|
    ensures var r, r', n := h.clients[id].replay, Run(h, steps).clients[id].replay, PageTurns(h, steps, id);
      r'.Paging? ==>
        r.Paging? && r'.after == r.after + n * REPLAY_PAGE && (n > 0 ==> r'.after <= |Run(h, steps).log|)
    decreases |steps|
  {
    if steps != [] {
      ReplayStep(h, steps[0], id);
      hide Next, PageTurn;
      StillPaging(Next(h, steps[0]), steps[1..], id);
    }
  }

  /**
   * A replay comes to its end. Whatever happens meanwhile, once so many history pages have
   * arrived for a client that they reach beyond the log, it is live or has left; and a live
   * client whose transport is up has everything the hub's cursor has passed.
   */
  lemma {:induction false} ReplayArrives(before: seq<Step>, after: seq<Step>, id: ClientId)
    requires id in Run(NEW_HUB, before).clients
    ensures id in Run(Run(NEW_HUB, before), after).clients
    ensures var h := Run(NEW_HUB, before); var h' := Run(h, after); var c' := h'.clients[id];
      h.clients[id].replay.Paging? && PageTurns(h, after, id) > 0
      && PageTurns(h, after, id) * REPLAY_PAGE > |h'.log| - h.clients[id].replay.after && c'.registered ==>
        c'.replay.Live? && (c'.open ==> h'.cursor <= c'.from + |c'.sent|)
  {
    var h := Run(NEW_HUB, before);
    RunKeeps(NEW_HUB, before);
    RunKeeps(h, after);
    StillPaging(h, after, id);
    assert ClientOk(Run(h, after).log, Run(h, after).clients[id]);
    hide Run, PageTurns, InStep;
    LiveAreDone(Run(h, after));
  }

  /* ---------------------------- coming and going ---------------------------- */

  /** A client that joins is registered, and its replay begins at its cursor; nobody else notices. */
  lemma {:induction false} JoinEffect(h: Hub, id: ClientId, from: nat, room: nat, throws: bool)
    requires id !in h.clients
    ensures var h' := Next(h, JoinClient(id, from, room, throws));
      && Watched(h') && id in h'.clients && h'.clients == h.clients[id := h'.clients[id]]
      && h'.log == h.log && h'.cursor == h.cursor && h'.held == h.held && h'.drain == h.drain
      && var c := h'.clients[id];
      && c.registered && c.open && c.from == from && c.cursor == from && c.sent == [] && c.held == map[]
      && c.replay == Paging(from, |h.log|) && c.room == room && c.throws == throws
  {
    var h' := Effect(h, JoinClient(id, from, room, throws));
    assert id in h'.clients && h'.clients[id].registered;
  }

  /**
   * A client that leaves is unregistered. When the last one leaves, the run's cursor goes
   * and with it what was held out of order, so that whoever comes next starts afresh; the
   * last client of all takes the mark with it. While anybody stays, nothing else changes.
   */
  lemma {:induction false} RemoveEffect(h: Hub, id: ClientId, everyone: bool)
    requires id in h.clients
    ensures var h' := Next(h, Remove(id, everyone));
      && h'.clients == h.clients[id := h.clients[id].(registered := false)] && h'.log == h.log && h'.drain == h.drain
      && (Watched(h') ==> h'.cursor == h.cursor && h'.held == h.held && h'.dirty == h.dirty && h'.asked == h.asked)
      && (!Watched(h') ==>
            h'.cursor == 0 && (h.cursor > 0 || everyone ==> h'.held == map[]) && (everyone ==> !h'.dirty))
  {
    var gone := h.(clients := h.clients[id := h.clients[id].(registered := false)]);
    SameWatch(gone, Prune(gone, everyone));
    SameWatch(gone, Prune(gone, everyone).(asked := 0));
    hide Watched;
  }

  /** The same when the last client that watches every run leaves. */
  lemma {:induction false} GlobalsEffect(h: Hub, n: nat, everyone: bool)
    ensures var h' := Next(h, GlobalClients(n, everyone));
      && h'.clients == h.clients && h'.globals == n && h'.log == h.log && h'.drain == h.drain
      && (Watched(h') ==> h'.cursor == h.cursor && h'.held == h.held && h'.dirty == h.dirty && h'.asked == h.asked)
      && (!Watched(h') ==>
            h'.cursor == 0 && (h.cursor > 0 || everyone ==> h'.held == map[]) && (everyone ==> !h'.dirty))
  {
    var gone := h.(globals := n);
    SameWatch(gone, Prune(gone, everyone));
    SameWatch(gone, Prune(gone, everyone).(asked := 0));
    hide Watched;
  }

  /** A run that only clients of every run watch may lose its cursor; one with a client of its own does not. */
  lemma {:induction false} EvictEffect(h: Hub)
    ensures Scoped(h) ==> Next(h, Evict) == h
    ensures !Scoped(h) ==> Next(h, Evict) == h.(cursor := 0, held := map[], asked := 0)
  {
    SameWatch(h, h.(cursor := 0, held := map[], asked := 0));
  }

  /** A drain that has come to its end leaves no mark behind; only a request that comes later sets one. */
  lemma {:induction false} ExitClears(h: Hub, seen: nat)
    requires h.drain.Reading? && Next(h, DrainPage(seen)).drain.Exiting?
    ensures !Next(h, DrainPage(seen)).dirty
  {
    hide IngestAll, Watched;
  }
}
