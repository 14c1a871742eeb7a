/** The hub itself: the object the control plane mutates, proved against the step functions of `HubModel`. */
module EventHub {
  import opened Common
  import opened Events
  import M = HubModel

  class EventHub {
    /** The store's committed events of the run. */
    var log: seq<Event>
    var clients: map<M.ClientId, M.Client>
    var globals: nat
    var cursor: nat
    var held: map<nat, Event>
    var dirty: bool
    var drain: M.Drain
    ghost var asked: nat

    ghost function State(): M.Hub
      reads this
    {
      M.Hub(log, clients, globals, cursor, held, dirty, drain, asked)
    }

    constructor ()
      ensures State() == M.NEW_HUB
    {
      log, clients, globals, cursor, held, dirty, drain, asked := [], map[], 0, 0, map[], false, M.Idle, 0;
    }

    /** `#watched` */
    method IsWatched() returns (yes: bool)
      ensures yes == M.Watched(State())
    {
      yes := globals > 0 || exists id :: id in clients && clients[id].registered;
    }

    /** `#sendNow` */
    method SendNow(id: M.ClientId, row: Row)
      requires id in clients
      modifies this`clients
      ensures clients == old(clients)[id := M.SendNow(old(clients[id]), row)]
    {
      var c := clients[id];
      if row.seqNo <= c.cursor { return; }
      if c.open && c.room > 0 {
        c := c.(sent := c.sent + [row], room := c.room - 1);
        c := c.(cursor := row.seqNo);
      } else if c.throws {
        c := c.(open := false, registered := false);
      } else {
        c := c.(open := false, cursor := row.seqNo);
      }
      clients := clients[id := c];
    }

    method SendAll(id: M.ClientId, rows: seq<Row>)
      requires id in clients
      modifies this`clients
      ensures clients == old(clients)[id := M.SendAll(old(clients[id]), rows)]
    {
      ghost var c0 := clients[id];
      for i := 0 to |rows|
        invariant id in clients && clients == old(clients)[id := clients[id]]
        invariant M.SendAll(clients[id], rows[i..]) == M.SendAll(c0, rows)
      {
        SendNow(id, rows[i]);
        assert rows[i..][0] == rows[i] && rows[i..][1..] == rows[i + 1..];
      }
      assert rows[|rows|..] == [];
    }

    /** `#fanOut` */
    method FanOut(row: Row)
      modifies this`clients
      ensures clients == M.FanOut(old(clients), row)
    {
      var todo := clients.Keys;
      while todo != {}
        invariant todo <= clients.Keys == old(clients).Keys
        invariant forall id :: id in todo ==> clients[id] == old(clients)[id]
        invariant forall id :: id in clients && id !in todo ==> clients[id] == M.FanOut(old(clients), row)[id]
        decreases todo
      {
        var id :| id in todo;
        todo := todo - {id};
        if clients[id].registered {
          clients := clients[id := clients[id].(hi := row.seqNo)];
          if clients[id].replay.Live? {
            SendNow(id, row);
          } else {
            clients := clients[id := clients[id].(held := clients[id].held[row.seqNo := row.event])];
            if |clients[id].held| > M.MAX_HELD {
              clients := clients[id := clients[id].(open := false, registered := false)];
            }
          }
        }
      }
    }

    /** `#advance` */
    method Advance(row: Row)
      modifies this`clients, this`held, this`cursor
      ensures State() == M.Advance(old(State()), row)
    {
      held := held - {row.seqNo};
      cursor := row.seqNo;
      FanOut(row);
    }

    /** `#ingest` */
    method Ingest(row: Row)
      modifies this
      ensures State() == M.Ingest(old(State()), row)
    {
      var watched := IsWatched();
      if !watched || row.seqNo <= cursor { return; }
      if row.seqNo != cursor + 1 {
        held := held[row.seqNo := row.event];
        RequestDrain();
        return;
      }
      Advance(row);
      ghost var goal := M.Flush(State());
      while cursor + 1 in held
        invariant M.Flush(State()) == goal
        invariant drain == old(drain) && dirty == old(dirty) && log == old(log) && globals == old(globals)
        decreases held.Keys
      {
        Advance(Row(cursor + 1, held[cursor + 1]));
      }
    }

    /** The top of the drain's outer loop. */
    method LoopTop()
      modifies this`dirty, this`drain
      ensures State() == M.LoopTop(old(State()))
    {
      var again := dirty;
      dirty := false;
      var watched := IsWatched();
      drain := if again && watched then M.Reading(cursor, |log|) else M.Exiting;
    }

    /** `#requestDrain` */
    method RequestDrain()
      modifies this`dirty, this`drain, this`asked
      ensures State() == M.RequestDrain(old(State()))
    {
      var watched := IsWatched();
      if !watched { return; }
      dirty := true;
      asked := |log|;
      if drain.Idle? { LoopTop(); }
    }

    /** Brings the history variable up to date at the end of a step. */
    ghost method EndStep(s: M.Step, before: M.Hub)
      requires State() == M.Effect(before, s)
      modifies this`asked
      ensures State() == M.Next(before, s)
    {
      asked := M.Next(before, s).asked;
    }

    /** `publish`: an event this process committed is offered to the hub. */
    method Publish(k: nat)
      requires 0 < k <= |log|
      modifies this
      ensures State() == M.Next(old(State()), M.Publish(k))
    {
      Ingest(Row(k, log[k - 1]));
      EndStep(M.Publish(k), old(State()));
    }

    /** `#notified`: a database notification names a committed sequence number. */
    method Notified(k: nat)
      modifies this
      ensures State() == M.Next(old(State()), M.Notify(k))
    {
      if k > cursor { RequestDrain(); }
      EndStep(M.Notify(k), old(State()));
    }

    /** The drain's page arrives; it was read when `seen` events were committed. */
    method DrainPage(seen: nat)
      requires drain.Reading? && drain.issued <= seen <= |log|
      modifies this
      ensures State() == M.Next(old(State()), M.DrainPage(seen))
    {
      var page := Page(log, seen, drain.since, M.DRAIN_PAGE);
      for i := 0 to |page|
        invariant M.IngestAll(State(), page[i..]) == M.IngestAll(old(State()), page)
      {
        Ingest(page[i]);
        assert page[i..][0] == page[i] && page[i..][1..] == page[i + 1..];
      }
      assert page[|page|..] == [];
      var watched := IsWatched();
      if |page| == M.DRAIN_PAGE && watched {
        drain := M.Reading(cursor, |log|);
      } else {
        LoopTop();
      }
      EndStep(M.DrainPage(seen), old(State()));
    }

    /** The drain's `finally`. */
    method DrainSettles()
      requires drain.Exiting?
      modifies this
      ensures State() == M.Next(old(State()), M.DrainSettles)
    {
      drain := M.Idle;
      if dirty { RequestDrain(); }
      EndStep(M.DrainSettles, old(State()));
    }

    /** `add`, and `replay` up to its first `await`. */
    method Join(id: M.ClientId, from: nat, room: nat, throws: bool)
      requires id !in clients
      modifies this
      ensures State() == M.Next(old(State()), M.JoinClient(id, from, room, throws))
    {
      clients := clients[id :=
        M.Client(from, from, M.Paging(from, |log|), map[], true, true, room, throws, [], cursor, cursor)];
      EndStep(M.JoinClient(id, from, room, throws), old(State()));
    }

    /** The held events sorted by sequence number. */
    static method Sorted(held: map<nat, Event>) returns (rows: seq<Row>)
      ensures rows == M.InOrder(held)
    {
      rows := [];
      var left := held;
      while left.Keys != {}
        invariant rows + M.InOrder(left) == M.InOrder(held)
        decreases left.Keys
      {
        var k := LeastOf(left.Keys);
        var row := Row(k, left[k]);
        assert rows + ([row] + M.InOrder(left - {k})) == (rows + [row]) + M.InOrder(left - {k});
        rows, left := rows + [row], left - {k};
      }
    }

    /** The hand-over at the end of `replay`. */
    method HandOver(id: M.ClientId)
      requires id in clients
      modifies this`clients
      ensures clients == old(clients)[id := M.HandOver(old(clients[id]))]
    {
      var rows := Sorted(clients[id].held);
      SendAll(id, rows);
      clients := clients[id := clients[id].(held := map[], replay := M.Live)];
    }

    /** A history page arrives for a replaying client; it was read when `seen` events were committed. */
    method ReplayPage(id: M.ClientId, seen: nat)
      requires id in clients && clients[id].replay.Paging? && clients[id].replay.issued <= seen <= |log|
      modifies this
      ensures State() == M.Next(old(State()), M.ReplayPage(id, seen))
    {
      var after := clients[id].replay.after;
      var page := Page(log, seen, after, M.REPLAY_PAGE);
      SendAll(id, page);
      if |page| < M.REPLAY_PAGE {
        HandOver(id);
      } else if clients[id].registered {
        clients := clients[id := clients[id].(replay := M.Paging(after + |page|, |log|))];
      } else {
        clients := clients[id := clients[id].(replay := M.Ended)];
      }
      EndStep(M.ReplayPage(id, seen), old(State()));
    }

    /** The function `add` returns: unregister the client, then `#prune`. */
    method Remove(id: M.ClientId, everyone: bool)
      requires id in clients
      modifies this
      ensures State() == M.Next(old(State()), M.Remove(id, everyone))
    {
      clients := clients[id := clients[id].(registered := false)];
      var watched := IsWatched();
      if !watched {
        if cursor > 0 || everyone { held := map[]; }
        cursor := 0;
        if everyone { dirty := false; }
      }
      EndStep(M.Remove(id, everyone), old(State()));
    }
  }
}
