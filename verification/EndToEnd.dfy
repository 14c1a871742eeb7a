/**
 * The hub and one browser tab together: hydration from history, the hand-over to
 * the socket, and any number of lost connections and reconnects from the cursor.
 */
module EndToEnd {
  import opened Common
  import opened Events
  import opened Browser
  import opened BrowserTab
  import Q = QueueModel
  import QI = QueueInvariants
  import QT = QueueTheorems
  import H = HubModel
  import HP = HubProofs

  /** `Loading` waits for a history page after `after`. `Streaming` has read `got` frames of connection `conn`. */
  datatype Phase = Closed | Loading(next: View, after: nat, issued: nat) | Streaming(conn: Option<H.ClientId>, got: nat)

  datatype TabState = TabState(phase: Phase, seed: View, view: View, cursor: nat)

  datatype Sys = Sys(hub: H.Hub, tab: TabState)

  datatype Step =
    | HubDoes(step: H.Step)
    | Open(seed: View, seen: nat)
    | HistoryPage(seen: nat)
    | Connect(id: H.ClientId, room: nat, throws: bool)
    | Receive
    | Lose
    | Enrich(j: JobId, job: Q.Job)

  ghost function Start(): Sys {
    Sys(H.NEW_HUB, TabState(Closed, View(RunQueued, [], map[]), View(RunQueued, [], map[]), 0))
  }

  /** One turn of the hydration loop. */
  function Turn(t: TabState, next: View, after: nat, page: seq<Row>, now: nat): TabState {
    var next' := ApplyAll(next, page);
    var after' := EndOf(page, after);
    if |page| < PAGE then t.(phase := Streaming(None, 0), view := next', cursor := after')
    else t.(phase := Loading(next', after', now))
  }

  /** `onmessage` */
  function Frame(t: TabState, row: Row): TabState
    requires t.phase.Streaming?
  {
    var t' := t.(phase := t.phase.(got := t.phase.got + 1));
    if row.seqNo <= t.cursor then t' else t'.(cursor := row.seqNo, view := Apply(t.view, row))
  }

  /** Frames the tab's connection has carried and the tab has not read. */
  predicate Waiting(s: Sys) {
    && s.tab.phase.Streaming? && s.tab.phase.conn.Some?
    && s.tab.phase.conn.value in s.hub.clients
    && s.tab.phase.got < |s.hub.clients[s.tab.phase.conn.value].sent|
  }

  ghost function Next(s: Sys, step: Step): Sys {
    var h, t := s.hub, s.tab;
    match step
    case HubDoes(a) => s.(hub := H.Next(h, a))
    case Open(seed, seen) =>
      if t.phase.Closed? && seen <= |h.log|
      then s.(tab := Turn(t.(seed := seed), seed, 0, Page(h.log, seen, 0, PAGE), |h.log|)) else s
    case HistoryPage(seen) =>
      if t.phase.Loading? && t.phase.issued <= seen <= |h.log|
      then s.(tab := Turn(t, t.phase.next, t.phase.after, Page(h.log, seen, t.phase.after, PAGE), |h.log|)) else s
    case Connect(id, room, throws) =>
      if t.phase.Streaming? && t.phase.conn.None? && id !in h.clients
      then Sys(H.Next(h, H.JoinClient(id, t.cursor, room, throws)), t.(phase := Streaming(Some(id), 0))) else s
    case Receive => if Waiting(s) then s.(tab := Frame(t, h.clients[t.phase.conn.value].sent[t.phase.got])) else s
    case Lose => if t.phase.Streaming? then s.(tab := t.(phase := Streaming(None, 0))) else s
    case Enrich(j, job) => if t.phase.Streaming? then s.(tab := t.(view := Merge(t.view, j, job))) else s
  }

  ghost function Run(s: Sys, steps: seq<Step>): Sys
    decreases |steps|
  {
    if steps == [] then s else Run(Next(s, steps[0]), steps[1..])
  }

  /* ------------------- what the hub never takes back ------------------- */

  predicate Extends(c: H.Client, c': H.Client) { c'.from == c.from && c.sent <= c'.sent }

  predicate Grown(clients: map<H.ClientId, H.Client>, clients': map<H.ClientId, H.Client>) {
    forall id :: id in clients ==> id in clients' && Extends(clients[id], clients'[id])
  }

  lemma {:induction false} SendAllExtends(c: H.Client, rows: seq<Row>)
    ensures Extends(c, H.SendAll(c, rows))
    decreases |rows|
  {
    if rows != [] { SendAllExtends(H.SendNow(c, rows[0]), rows[1..]); }
  }

  lemma {:induction false} PageExtends(c: H.Client, page: seq<Row>, now: nat)
    requires c.replay.Paging?
    ensures Extends(c, H.PageArrives(c, page, now))
  {
    SendAllExtends(c, page);
    SendAllExtends(H.SendAll(c, page), H.InOrder(H.SendAll(c, page).held));
  }

  lemma GrownReflexive(clients: map<H.ClientId, H.Client>)
    ensures Grown(clients, clients)
  {}

  lemma GrownTransitive(a: map<H.ClientId, H.Client>, b: map<H.ClientId, H.Client>, c: map<H.ClientId, H.Client>)
    requires Grown(a, b) && Grown(b, c)
    ensures Grown(a, c)
  {}

  lemma GrownAt(clients: map<H.ClientId, H.Client>, id: H.ClientId, c: H.Client)
    requires id in clients ==> Extends(clients[id], c)
    ensures Grown(clients, clients[id := c])
  {}

  lemma {:induction false} AdvanceGrows(h: H.Hub, row: Row)
    ensures Grown(h.clients, H.Advance(h, row).clients)
  {}

  lemma {:induction false} FlushGrows(h: H.Hub)
    ensures Grown(h.clients, H.Flush(h).clients) && H.Flush(h).log == h.log
    decreases h.held.Keys
  {
    hide Grown;
    GrownReflexive(h.clients);
    var k := h.cursor + 1;
    if k in h.held {
      var h1 := H.Advance(h, Row(k, h.held[k]));
      AdvanceGrows(h, Row(k, h.held[k]));
      FlushGrows(h1);
      GrownTransitive(h.clients, h1.clients, H.Flush(h1).clients);
    }
  }

  lemma {:induction false} IngestGrows(h: H.Hub, row: Row)
    ensures Grown(h.clients, H.Ingest(h, row).clients) && H.Ingest(h, row).log == h.log
  {
    hide Grown, H.Flush, H.Watched;
    GrownReflexive(h.clients);
    var h1 := H.Advance(h, row);
    AdvanceGrows(h, row);
    FlushGrows(h1);
    GrownTransitive(h.clients, h1.clients, H.Flush(h1).clients);
  }

  lemma {:induction false} IngestAllGrows(h: H.Hub, rows: seq<Row>)
    ensures Grown(h.clients, H.IngestAll(h, rows).clients) && H.IngestAll(h, rows).log == h.log
    decreases |rows|
  {
    hide Grown, H.Ingest;
    GrownReflexive(h.clients);
    if rows != [] {
      var h1 := H.Ingest(h, rows[0]);
      IngestGrows(h, rows[0]);
      IngestAllGrows(h1, rows[1..]);
      GrownTransitive(h.clients, h1.clients, H.IngestAll(h1, rows[1..]).clients);
    }
  }

  lemma LoopTopSends()
    ensures forall h :: H.LoopTop(h).clients == h.clients && H.LoopTop(h).log == h.log
  {}

  lemma {:induction false} ReplayGrows(h: H.Hub, a: H.Step)
    requires a.ReplayPage?
    ensures Grown(h.clients, H.Next(h, a).clients) && h.log <= H.Next(h, a).log
  {
    GrownReflexive(h.clients);
    if a.id in h.clients && h.clients[a.id].replay.Paging? && h.clients[a.id].replay.issued <= a.seen <= |h.log| {
      var page := Page(h.log, a.seen, h.clients[a.id].replay.after, H.REPLAY_PAGE);
      PageExtends(h.clients[a.id], page, |h.log|);
      GrownAt(h.clients, a.id, H.PageArrives(h.clients[a.id], page, |h.log|));
    }
    hide Grown, Extends, H.PageArrives, H.Watched, Page;
  }

  lemma {:induction false} IngestingGrows(h: H.Hub, a: H.Step)
    requires a.Publish? || a.DrainPage?
    ensures Grown(h.clients, H.Next(h, a).clients) && h.log <= H.Next(h, a).log
  {
    GrownReflexive(h.clients);
    LoopTopSends();
    if a.Publish? {
      if 0 < a.seqNo <= |h.log| { IngestGrows(h, Row(a.seqNo, h.log[a.seqNo - 1])); }
    } else if h.drain.Reading? && h.drain.issued <= a.seen <= |h.log| {
      IngestAllGrows(h, Page(h.log, a.seen, h.drain.since, H.DRAIN_PAGE));
    }
    hide Grown, H.Ingest, H.IngestAll, H.Watched, H.LoopTop, Page;
  }

  /** What a step outside the hub's own loops does to one client. */
  lemma {:induction false} TouchedExtends(h: H.Hub, a: H.Step, id: H.ClientId)
    requires a.Remove? || a.Weather? || a.Disconnect? || a.JoinClient?
    requires id in h.clients
    ensures id in H.Next(h, a).clients && Extends(h.clients[id], H.Next(h, a).clients[id])
  {
    hide H.Watched;
  }

  lemma {:induction false} TouchGrows(h: H.Hub, a: H.Step)
    requires a.Remove? || a.Weather? || a.Disconnect? || a.JoinClient?
    ensures Grown(h.clients, H.Next(h, a).clients) && H.Next(h, a).log == h.log
  {
    forall id | id in h.clients ensures id in H.Next(h, a).clients && Extends(h.clients[id], H.Next(h, a).clients[id]) {
      TouchedExtends(h, a, id);
    }
    hide Extends, H.Watched;
  }

  lemma {:induction false} QuietGrows(h: H.Hub, a: H.Step)
    requires a.Commit? || a.Notify? || a.Poll? || a.DrainSettles? || a.GlobalClients? || a.Evict?
    ensures H.Next(h, a).clients == h.clients && h.log <= H.Next(h, a).log
  {
    LoopTopSends();
    hide H.Watched, H.LoopTop, H.Scoped;
  }

  /** Whatever the hub does, clients stay where they joined and nothing sent or committed is taken back. */
  lemma {:induction false} HubGrows(h: H.Hub, a: H.Step)
    ensures Grown(h.clients, H.Next(h, a).clients) && h.log <= H.Next(h, a).log
  {
    hide *;
    GrownReflexive(h.clients);
    match a
    case Publish(_) => IngestingGrows(h, a);
    case DrainPage(_) => IngestingGrows(h, a);
    case ReplayPage(_, _) => ReplayGrows(h, a);
    case JoinClient(_, _, _, _) => TouchGrows(h, a);
    case Remove(_, _) => TouchGrows(h, a);
    case Weather(_, _, _) => TouchGrows(h, a);
    case Disconnect(_) => TouchGrows(h, a);
    case _ => QuietGrows(h, a);
  }

  /* ----------------------------- the invariant ----------------------------- */

  /** The tab has applied exactly the first `cursor` events, and its connection goes on where it stands. */
  predicate TabOk(log: seq<Event>, clients: map<H.ClientId, H.Client>, t: TabState) {
    match t.phase
    case Closed => true
    case Loading(next, after, issued) => after <= issued <= |log| && next == Replay(t.seed, log[..after])
    case Streaming(conn, got) =>
      && t.cursor <= |log| && SameStory(t.view, Replay(t.seed, log[..t.cursor]))
      && (conn.Some? ==>
            && conn.value in clients && got <= |clients[conn.value].sent|
            && clients[conn.value].from + got == t.cursor)
  }

  ghost predicate SysOk(s: Sys) {
    HP.HubOk(s.hub) && HP.WakeOk(s.hub) && TabOk(s.hub.log, s.hub.clients, s.tab)
  }

  lemma {:induction false} TabSurvives(log: seq<Event>, log': seq<Event>, clients: map<H.ClientId, H.Client>,
                                      clients': map<H.ClientId, H.Client>, t: TabState)
    requires TabOk(log, clients, t) && log <= log' && Grown(clients, clients')
    ensures TabOk(log', clients', t)
  {
    if t.phase.Loading? { assert log'[..t.phase.after] == log[..t.phase.after]; }
    if t.phase.Streaming? { assert log'[..t.cursor] == log[..t.cursor]; }
  }

  lemma {:induction false} TurnOk(h: H.Hub, t: TabState, next: View, after: nat, seen: nat)
    requires after <= seen <= |h.log| && next == Replay(t.seed, h.log[..after])
    ensures TabOk(h.log, h.clients, Turn(t, next, after, Page(h.log, seen, after, PAGE), |h.log|))
  {
    hide Replay, Apply, ApplyAll, Page, EndOf, SameStory;
    var page := Page(h.log, seen, after, PAGE);
    ApplyAllIsReplay(t.seed, h.log, after, page);
    PageEnd(h.log, seen, after);
    SameSelf(ApplyAll(next, page));
    assert EndOf(page, after) == after + |page| <= seen;
  }

  lemma SameSelf(v: View)
    ensures SameStory(v, v)
  {}

  /** Every frame the tab reads is the next one: the duplicate filter never has anything to drop. */
  lemma {:induction false} NextFrame(s: Sys)
    requires SysOk(s) && Waiting(s)
    ensures s.tab.cursor < |s.hub.log|
    ensures s.hub.clients[s.tab.phase.conn.value].sent[s.tab.phase.got]
      == Row(s.tab.cursor + 1, s.hub.log[s.tab.cursor])
  {
    var c := s.hub.clients[s.tab.phase.conn.value];
    assert HP.ClientOk(s.hub.log, c);
    assert Genuine(s.hub.log, c.sent[s.tab.phase.got]);
  }

  lemma {:induction false} FrameOk(
      log: seq<Event>, clients: map<H.ClientId, H.Client>, t: TabState, id: H.ClientId, row: Row)
    requires TabOk(log, clients, t) && t.phase.Streaming? && t.phase.conn == Some(id) && id in clients
    requires t.phase.got < |clients[id].sent| && t.cursor < |log| && row == Row(t.cursor + 1, log[t.cursor])
    ensures TabOk(log, clients, Frame(t, row))
  {
    OneMoreRow(t.seed, log, t.cursor);
    ApplyKeepsStory(t.view, Replay(t.seed, log[..t.cursor]), row);
    hide Replay, Apply, SameStory;
  }

  lemma SysHas(s: Sys)
    requires SysOk(s) && Waiting(s)
    ensures TabOk(s.hub.log, s.hub.clients, s.tab) && s.tab.phase.Streaming? && s.tab.phase.conn.Some?
      && s.tab.phase.conn.value in s.hub.clients
      && s.tab.phase.got < |s.hub.clients[s.tab.phase.conn.value].sent|
    ensures Next(s, Receive).tab == Frame(s.tab, s.hub.clients[s.tab.phase.conn.value].sent[s.tab.phase.got])
  {
    hide HP.HubOk, HP.WakeOk, TabOk;
  }

  lemma {:induction false} ReceiveOk(s: Sys)
    requires SysOk(s) && Waiting(s)
    ensures TabOk(s.hub.log, s.hub.clients, Next(s, Receive).tab)
  {
    hide *;
    SysHas(s);
    NextFrame(s);
    FrameOk(s.hub.log, s.hub.clients, s.tab, s.tab.phase.conn.value,
      s.hub.clients[s.tab.phase.conn.value].sent[s.tab.phase.got]);
  }

  lemma {:induction false} TabStepOk(s: Sys, step: Step)
    requires SysOk(s) && !step.HubDoes? && !step.Connect?
    ensures TabOk(Next(s, step).hub.log, Next(s, step).hub.clients, Next(s, step).tab) && Next(s, step).hub == s.hub
  {
    hide HP.HubOk, HP.WakeOk, Replay, Apply, ApplyAll, SameStory, Turn, Merge;
    var h, t := s.hub, s.tab;
    match step
    case Open(seed, seen) =>
      if t.phase.Closed? && seen <= |h.log| {
        StartOfReplay(seed, h.log);
        TurnOk(h, t.(seed := seed), seed, 0, seen);
      }
    case HistoryPage(seen) =>
      if t.phase.Loading? && t.phase.issued <= seen <= |h.log| { TurnOk(h, t, t.phase.next, t.phase.after, seen); }
    case Receive => if Waiting(s) { ReceiveOk(s); }
    case Lose =>
    case Enrich(j, job) =>
      if t.phase.Streaming? { MergeKeepsStory(t.view, Replay(t.seed, h.log[..t.cursor]), j, job); }
  }

  lemma {:induction false} ConnectOk(s: Sys, id: H.ClientId, room: nat, throws: bool)
    requires SysOk(s)
    ensures SysOk(Next(s, Connect(id, room, throws)))
  {
    hide HP.HubOk, HP.WakeOk, SameStory, Replay;
    if s.tab.phase.Streaming? && s.tab.phase.conn.None? && id !in s.hub.clients {
      HP.NextKeeps(s.hub, H.JoinClient(id, s.tab.cursor, room, throws));
    }
  }

  lemma {:induction false} NextOk(s: Sys, step: Step)
    requires SysOk(s)
    ensures SysOk(Next(s, step))
  {
    hide HP.HubOk, HP.WakeOk, TabOk;
    match step
    case HubDoes(a) =>
      HP.NextKeeps(s.hub, a);
      HubGrows(s.hub, a);
      TabSurvives(s.hub.log, H.Next(s.hub, a).log, s.hub.clients, H.Next(s.hub, a).clients, s.tab);
    case Connect(id, room, throws) => ConnectOk(s, id, room, throws);
    case _ => TabStepOk(s, step);
  }

  lemma {:induction false} RunOk(s: Sys, steps: seq<Step>)
    requires SysOk(s)
    ensures SysOk(Run(s, steps))
    decreases |steps|
  {
    if steps != [] {
      NextOk(s, steps[0]);
      RunOk(Next(s, steps[0]), steps[1..]);
    }
  }

  /* ----------------------------- main theorems ----------------------------- */

  /**
   * End to end. Over any interleaving of the hub with a tab's hydration, connects,
   * losses and reconnects, the tab has applied exactly the first `cursor` events of
   * the log, once each and in order, to whatever snapshot seeded it; late job rows
   * change nothing but the fields they enrich.
   */
  lemma {:induction false} AppliedExactly(steps: seq<Step>)
    requires Run(Start(), steps).tab.phase.Streaming?
    ensures var s := Run(Start(), steps);
      s.tab.cursor <= |s.hub.log| && SameStory(s.tab.view, Replay(s.tab.seed, s.hub.log[..s.tab.cursor]))
    ensures var s := Run(Start(), steps);
      Waiting(s) ==>
        && s.tab.cursor < |s.hub.log|
        && s.hub.clients[s.tab.phase.conn.value].sent[s.tab.phase.got] == Row(s.tab.cursor + 1, s.hub.log[s.tab.cursor])
  {
    RunOk(Start(), steps);
    if Waiting(Run(Start(), steps)) { NextFrame(Run(Start(), steps)); }
  }

  /** Agents report notes and spawns, never statuses: true of the bundled agent, not enforced by the plane. */
  predicate Honest(log: seq<Event>) {
    forall i :: 0 <= i < |log| && log[i].from.Agent? ==> !log[i].body.StatusIs? && !log[i].body.RunIs?
  }

  /** The status the stream shows is the last one the plane reported, as long as agents are honest. */
  lemma {:induction false} ShownIsReported(log: seq<Event>, j: JobId)
    requires Honest(log)
    ensures Shown(log, j).Some? <==> QI.History(log, j) != []
    ensures Shown(log, j).Some? ==> Shown(log, j).value == QI.History(log, j)[|QI.History(log, j)| - 1]
    decreases |log|
  {
    if log != [] {
      var n := |log| - 1;
      assert log[n].from.Agent? ==> !log[n].body.StatusIs?;
      forall i | 0 <= i < n && log[..n][i].from.Agent? ensures !log[..n][i].body.StatusIs? && !log[..n][i].body.RunIs? {
        assert log[..n][i] == log[i];
      }
      ShownIsReported(log[..n], j);
    }
  }

  lemma {:induction false} RunShownIsReported(log: seq<Event>)
    requires Honest(log)
    ensures RunShown(log).Some? ==> RunShown(log).value == QI.RunReplay(log)
    decreases |log|
  {
    if log != [] {
      var n := |log| - 1;
      assert log[n].from.Agent? ==> !log[n].body.RunIs?;
      forall i | 0 <= i < n && log[..n][i].from.Agent? ensures !log[..n][i].body.StatusIs? && !log[..n][i].body.RunIs? {
        assert log[..n][i] == log[i];
      }
      RunShownIsReported(log[..n]);
    }
  }

  lemma {:induction false} StateIsReported(qsteps: seq<Q.Step>, db: Q.Db, r: RunId, j: JobId)
    requires QT.Leads(Q.EMPTY_DB, qsteps, db) && r in db.log && QI.HomeOf(db, r, j)
    ensures QI.History(db.log[r], j) != []
      && QI.History(db.log[r], j)[|QI.History(db.log[r], j)| - 1] == db.jobs[j].status
    ensures r in db.runs && QI.RunReplay(db.log[r]) == db.runs[r].status
  {
    QT.Reachable(qsteps, db);
    assert QI.PathOf(db, r, j) && QI.StreamOk(db, r);
  }

  /** The log read as of a state of the database: what was committed when `event_seq` equalled the cursor. */
  lemma {:induction false} ViewOfState(seed: View, view: View, qsteps: seq<Q.Step>, db: Q.Db, r: RunId, j: JobId)
    requires QT.Leads(Q.EMPTY_DB, qsteps, db) && r in db.log && Honest(db.log[r])
    requires SameStory(view, Replay(seed, db.log[r])) && QI.HomeOf(db, r, j)
    ensures j in view.nodes && view.nodes[j].status == db.jobs[j].status
    ensures r in db.runs && (RunShown(db.log[r]).Some? ==> view.status == db.runs[r].status)
  {
    hide QT.Leads, Replay, Honest, Shown, RunShown, QI.History, QI.RunReplay;
    StateIsReported(qsteps, db, r, j);
    ShownIsReported(db.log[r], j);
    RunShownIsReported(db.log[r]);
    ReplayStatus(seed, db.log[r], j);
    ReplayRunStatus(seed, db.log[r]);
  }

  /**
   * What a tab shows is what the database held. If the tab's run is `r` and its cursor
   * is where `event_seq` stood in a reachable state `db`, then every job of the run
   * has a node whose status is the job's status in `db`, whatever snapshot seeded the
   * tab, and the run shows its own status once the stream has said anything about it.
   */
  lemma {:induction false} TabShowsDatabase(steps: seq<Step>, qsteps: seq<Q.Step>, db: Q.Db, r: RunId, j: JobId)
    requires Run(Start(), steps).tab.phase.Streaming?
    requires QT.Leads(Q.EMPTY_DB, qsteps, db) && r in db.log && Honest(db.log[r]) && QI.HomeOf(db, r, j)
    requires db.log[r] <= Run(Start(), steps).hub.log && Run(Start(), steps).tab.cursor == |db.log[r]|
    ensures var t := Run(Start(), steps).tab; j in t.view.nodes && t.view.nodes[j].status == db.jobs[j].status
    ensures r in db.runs && (RunShown(db.log[r]).Some? ==> Run(Start(), steps).tab.view.status == db.runs[r].status)
  {
    var s := Run(Start(), steps);
    hide QT.Leads, Run;
    AppliedExactly(steps);
    assert s.hub.log[..s.tab.cursor] == db.log[r];
    ViewOfState(s.tab.seed, s.tab.view, qsteps, db, r, j);
  }

  /** The view shows the status of every job of run `r`, and the run's own, as the database has them. */
  ghost predicate Agrees(v: View, db: Q.Db, r: RunId) {
    && r in db.runs && v.status == db.runs[r].status
    && forall k :: QI.HomeOf(db, r, k) ==> k in v.nodes && v.nodes[k].status == db.jobs[k].status
  }

  /** An event about job `j` that says nothing the database does not. */
  predicate Truthful(db: Q.Db, r: RunId, j: JobId, body: Body)
    requires r in db.runs && j in db.jobs
  {
    && (body.StatusIs? ==> body.status == db.jobs[j].status)
    && (body.RunIs? ==> body.run == db.runs[r].status)
  }

  lemma {:induction false} PostedView(v: View, row: Row, j: JobId, k: JobId)
    requires row.event == Event(Some(j), Agent(j), row.event.body) && k in v.nodes
    ensures k in Apply(v, row).nodes
    ensures Apply(v, row).nodes[k].status == if row.event.body.StatusIs?
      && k == j then row.event.body.status else v.nodes[k].status
    ensures Apply(v, row).status == if row.event.body.RunIs? then row.event.body.run else v.status
  {}

  lemma {:induction false} PostedRows(db: Q.Db, r: RunId, j: JobId, body: Body)
    requires Q.Stored(db) && QI.HomeOf(db, r, j)
    ensures var db' := Q.Post(db, j, body);
      && r in db.log && r in db'.log && db'.log[r] == db.log[r] + [Event(Some(j), Agent(j), body)]
      && db'.jobs == db.jobs && r in db.runs && r in db'.runs && db'.runs[r].status == db.runs[r].status
  {}

  /**
   * Where honesty matters. The plane lets an agent post any kind of event about its
   * own job, and the fold does not look at who wrote one. If a view agrees with the
   * database on every job of the run and on the run itself, then after a posted event
   * it still does exactly when the event is no status at all, of the job or of the run,
   * or repeats the true one.
   */
  lemma {:induction false} ForgedStatusShows(seed: View, db: Q.Db, r: RunId, j: JobId, body: Body)
    requires Q.Stored(db) && QI.HomeOf(db, r, j) && r in db.log && Agrees(Replay(seed, db.log[r]), db, r)
    ensures r in Q.Post(db, j, body).log
    ensures r in db.runs && j in db.jobs
    ensures Agrees(Replay(seed, Q.Post(db, j, body).log[r]), Q.Post(db, j, body), r) <==> Truthful(db, r, j, body)
  {
    hide *;
    var log, e := db.log[r], Event(Some(j), Agent(j), body);
    PostedRows(db, r, j, body);
    ReplayOne(seed, log, e);
    PostedAgrees(Replay(seed, log), Row(|log| + 1, e), db, Q.Post(db, j, body), r, j);
  }

  lemma ReplayOne(seed: View, log: seq<Event>, e: Event)
    ensures Replay(seed, log + [e]) == Apply(Replay(seed, log), Row(|log| + 1, e))
  {
    assert (log + [e])[..|log|] == log;
  }

  lemma {:induction false} PostedAgrees(v: View, row: Row, db: Q.Db, db': Q.Db, r: RunId, j: JobId)
    requires Agrees(v, db, r) && QI.HomeOf(db, r, j) && row.event == Event(Some(j), Agent(j), row.event.body)
    requires db'.jobs == db.jobs && r in db'.runs && db'.runs[r].status == db.runs[r].status
    ensures r in db.runs && j in db.jobs && (Agrees(Apply(v, row), db', r) <==> Truthful(db, r, j, row.event.body))
  {
    forall k | QI.HomeOf(db, r, k)
      ensures k in Apply(v, row).nodes
      ensures Apply(v, row).nodes[k].status == if row.event.body.StatusIs?
        && k == j then row.event.body.status else db.jobs[k].status
    { PostedView(v, row, j, k); }
    PostedView(v, row, j, j);
    hide Apply;
  }

  /** `n` frames read one after another. */
  ghost function Frames(n: nat): seq<Step> { if n == 0 then [] else [Receive] + Frames(n - 1) }

  /** The tab listens on a connection that is live, up, and has `n` frames for it to read. */
  ghost predicate Reads(s: Sys, id: H.ClientId, n: nat) {
    && SysOk(s) && s.tab.phase.Streaming? && s.tab.phase.conn == Some(id) && id in s.hub.clients
    && var c := s.hub.clients[id];
    c.registered && c.open && c.replay.Live? && s.tab.phase.got + n == |c.sent|
  }

  lemma {:induction false} ReadOne(s: Sys, id: H.ClientId, n: nat)
    requires Reads(s, id, n) && n > 0
    ensures Reads(Next(s, Receive), id, n - 1) && Next(s, Receive).hub == s.hub
  {
    NextOk(s, Receive);
    hide SysOk, Apply;
  }

  lemma {:induction false} ReadAll(s: Sys, id: H.ClientId)
    requires Reads(s, id, 0)
    ensures s.hub.cursor <= s.tab.cursor <= |s.hub.log|
  {
    assert HP.ClientOk(s.hub.log, s.hub.clients[id]) && s.hub.clients[id].hi == s.hub.cursor;
  }

  lemma RunFrames(s: Sys, n: nat)
    ensures Run(s, Frames(n)) == if n == 0 then s else Run(Next(s, Receive), Frames(n - 1))
  {
    assert n > 0 ==> Frames(n)[1..] == Frames(n - 1);
  }

  /**
   * Nothing is left behind: once the tab's client is live and its transport up, reading
   * what it was sent brings the tab at least as far as the hub.
   */
  lemma {:induction false} ReadingCatchesUp(s: Sys, id: H.ClientId, n: nat)
    requires Reads(s, id, n)
    ensures Run(s, Frames(n)).hub == s.hub
    ensures s.hub.cursor <= Run(s, Frames(n)).tab.cursor <= |s.hub.log|
    decreases n
  {
    hide *;
    RunFrames(s, n);
    if n == 0 {
      ReadAll(s, id);
    } else {
      ReadOne(s, id, n);
      ReadingCatchesUp(Next(s, Receive), id, n - 1);
    }
  }

  /* --------------------------- the tab gets there --------------------------- */

  /** A history page arrives for the tab. */
  predicate HistoryTurn(s: Sys, step: Step) {
    step.HistoryPage? && s.tab.phase.Loading? && s.tab.phase.issued <= step.seen && step.seen <= |s.hub.log|
  }

  ghost function HistoryTurns(s: Sys, steps: seq<Step>): nat
    decreases |steps|
  {
    if steps == [] then 0 else (if HistoryTurn(s, steps[0]) then 1 else 0) + HistoryTurns(Next(s, steps[0]), steps[1..])
  }

  lemma {:induction false} LoadingStep(s: Sys, step: Step)
    requires SysOk(s) && s.tab.phase.Loading?
    ensures var s' := Next(s, step);
      && |s.hub.log| <= |s'.hub.log| && !s'.tab.phase.Closed?
      && (s'.tab.phase.Loading? ==>
            && s'.tab.phase.after == s.tab.phase.after + (if HistoryTurn(s, step) then PAGE else 0)
            && (HistoryTurn(s, step) ==> s'.tab.phase.after <= |s.hub.log|))
  {
    if step.HubDoes? { HubGrows(s.hub, step.step); }
    if HistoryTurn(s, step) { PageEnd(s.hub.log, step.seen, s.tab.phase.after); }
    hide H.Next, ApplyAll, H.Join, HP.HubOk, HP.WakeOk, Replay;
  }

  lemma {:induction false} StaysOpened(s: Sys, step: Step)
    requires s.tab.phase.Streaming?
    ensures Next(s, step).tab.phase.Streaming? && |s.hub.log| <= |Next(s, step).hub.log|
  {
    if step.HubDoes? { HubGrows(s.hub, step.step); }
    if step.Connect? { HubGrows(s.hub, H.JoinClient(step.id, s.tab.cursor, step.room, step.throws)); }
    hide H.Next, Apply, Merge;
  }

  lemma {:induction false} StillLoading(s: Sys, steps: seq<Step>)
    requires SysOk(s) && !s.tab.phase.Closed?
    ensures var s' := Run(s, steps); var n := HistoryTurns(s, steps);
      && !s'.tab.phase.Closed? && |s.hub.log| <= |s'.hub.log|
      && (s'.tab.phase.Loading? ==>
            && s.tab.phase.Loading? && s'.tab.phase.after == s.tab.phase.after + n * PAGE
            && (n > 0 ==> s'.tab.phase.after <= |s'.hub.log|))
    decreases |steps|
  {
    if steps != [] {
      if s.tab.phase.Loading? { LoadingStep(s, steps[0]); } else { StaysOpened(s, steps[0]); }
      NextOk(s, steps[0]);
      hide Next, HistoryTurn, SysOk;
      StillLoading(Next(s, steps[0]), steps[1..]);
    }
  }

  /**
   * Hydration comes to its end. Whatever happens meanwhile, once so many history pages have
   * arrived that they reach beyond the log, the tab streams; and what it shows then is the
   * log up to its cursor.
   */
  lemma {:induction false} HydrationEnds(before: seq<Step>, after: seq<Step>)
    requires Run(Start(), before).tab.phase.Loading? && HistoryTurns(Run(Start(), before), after) > 0
    requires HistoryTurns(Run(Start(), before), after) * PAGE
      > |Run(Run(Start(), before), after).hub.log| - Run(Start(), before).tab.phase.after
    ensures Run(Run(Start(), before), after).tab.phase.Streaming?
  {
    assert SysOk(Start());
    RunOk(Start(), before);
    hide SysOk, Run, HistoryTurns;
    StillLoading(Run(Start(), before), after);
  }

  /** Opening the page asks for the history at once and seeds the view it will be folded into. */
  lemma {:induction false} OpenEffect(s: Sys, seed: View, seen: nat)
    requires s.tab.phase.Closed? && seen <= |s.hub.log|
    ensures var s' := Next(s, Open(seed, seen)); var page := Page(s.hub.log, seen, 0, PAGE);
      && s'.hub == s.hub && s'.tab.seed == seed
      && (if |page| < PAGE
          then s'.tab.phase == Streaming(None, 0) && s'.tab.cursor == |page| && s'.tab.view == ApplyAll(seed, page)
          else s'.tab.phase == Loading(ApplyAll(seed, page), PAGE, |s.hub.log|))
  {
    PageEnd(s.hub.log, seen, 0);
    hide ApplyAll;
  }

  /** The hub goes its own way, and a late job row enriches the view and moves nothing else. */
  lemma {:induction false} AsideEffect(s: Sys, a: H.Step, j: JobId, job: Q.Job)
    ensures Next(s, HubDoes(a)) == Sys(H.Next(s.hub, a), s.tab)
    ensures s.tab.phase.Streaming? ==>
      && Next(s, Enrich(j, job)) == s.(tab := s.tab.(view := Merge(s.tab.view, j, job)))
      && SameStory(Next(s, Enrich(j, job)).tab.view, s.tab.view)
  {
    SameSelf(s.tab.view);
    MergeKeepsStory(s.tab.view, s.tab.view, j, job);
  }

  /** A connection joins the hub where the tab stands, and losing one loses nothing the tab has. */
  lemma {:induction false} ConnectEffect(s: Sys, id: H.ClientId, room: nat, throws: bool)
    requires s.tab.phase.Streaming?
    ensures s.tab.phase.conn.None? && id !in s.hub.clients ==>
      var s' := Next(s, Connect(id, room, throws));
      && s'.tab == s.tab.(phase := Streaming(Some(id), 0)) && id in s'.hub.clients
      && s'.hub.clients[id].from == s.tab.cursor && s'.hub.clients[id].registered && s'.hub.clients[id].open
      && s'.hub.clients[id].replay.Paging?
    ensures Next(s, Lose) == s.(tab := s.tab.(phase := Streaming(None, 0)))
    ensures Waiting(s) ==>
      Next(s, Receive).tab.phase == Streaming(s.tab.phase.conn, s.tab.phase.got + 1) && Next(s, Receive).hub == s.hub
  {
    if id !in s.hub.clients {
      var h := H.Effect(s.hub, H.JoinClient(id, s.tab.cursor, room, throws));
      assert id in h.clients;
    }
  }
}
