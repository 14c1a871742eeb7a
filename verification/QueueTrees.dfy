/**
 * The promises about the spawn tree: what a cancellation reaches, who may ask for one, and
 * what a spawn request gets.
 */
module QueueTrees {
  import opened Common
  import opened Events
  import opened QueueModel
  import opened QueueInvariants
  import opened QueueProofs
  import opened QueueRuns
  import opened QueueTheorems
  import opened QueueLaws

  /* ---------------------------- cancellation ---------------------------- */

  /** One report for each cancelled job. */
  function CancelEvents(js: seq<JobId>, reason: string): seq<Event> {
    seq(|js|, i requires 0 <= i < |js| => StatusEvent(js[i], Cancelled, None, None, Detail(reason)))
  }

  lemma {:induction false} CancelOneLog(db: Db, j: JobId, reason: string)
    requires Stored(db) && j in db.jobs
    ensures CancelOne(db, j, reason).log
      == db.log[db.jobs[j].spec.run :=
        db.log[db.jobs[j].spec.run] + [StatusEvent(j, Cancelled, None, None, Detail(reason))]]
    ensures CancelOne(db, j, reason).jobs == db.jobs[j := CancelledRow(db.jobs[j], reason)]
      && Stored(CancelOne(db, j, reason))
  {}

  lemma {:induction false} CancelAllLog(db: Db, js: seq<JobId>, reason: string, r: RunId)
    requires Stored(db) && r in db.log && forall j :: j in js ==> j in db.jobs && db.jobs[j].spec.run == r
    ensures var db' := CancelAll(db, js, reason);
      && db'.log.Keys == db.log.Keys && db'.log[r] == db.log[r] + CancelEvents(js, reason)
      && forall q :: q in db.log && q != r ==> db'.log[q] == db.log[q]
    decreases |js|
  {
    if js != [] {
      CancelOneLog(db, js[0], reason);
      hide Stored, CancelOne;
      CancelAllLog(CancelOne(db, js[0], reason), js[1..], reason, r);
      CancelEventsSplit(db.log[r], js, reason);
    }
  }

  lemma CancelEventsSplit(log: seq<Event>, js: seq<JobId>, reason: string)
    requires js != []
    ensures log + CancelEvents(js, reason)
      == log + [StatusEvent(js[0], Cancelled, None, None, Detail(reason))] + CancelEvents(js[1..], reason)
  {}

  lemma {:induction false} CancelSubtreeRows(db: Db, a: JobId, reason: string)
    requires Stored(db) && Tree(ShapeOf(db.jobs)) && a in db.jobs
    ensures var db' := CancelSubtree(db, a, reason);
      && db'.jobs.Keys == db.jobs.Keys
      && (forall j :: j in db.jobs && Within(ShapeOf(db.jobs), a, j) && !Terminal(db.jobs[j].status)
            ==> db'.jobs[j] == CancelledRow(db.jobs[j], reason))
      && (forall j :: j in db.jobs && (Terminal(db.jobs[j].status) || !Within(ShapeOf(db.jobs), a, j)) ==>
        db'.jobs[j] == db.jobs[j])
  {
    CancelAllExact(db, Ascending(LiveSubtree(db, a)), reason);
    hide CancelAll, Within, Tree, CancelledRow;
  }

  lemma {:induction false} CancelSubtreeLog(db: Db, a: JobId, reason: string)
    requires Stored(db) && Tree(ShapeOf(db.jobs)) && a in db.jobs
    ensures var db' := CancelSubtree(db, a, reason); var r := db.jobs[a].spec.run;
      db'.log == db.log[r := db.log[r] + CancelEvents(Ascending(LiveSubtree(db, a)), reason)]
  {
    var r, js := db.jobs[a].spec.run, Ascending(LiveSubtree(db, a));
    SubtreeMembers(db, a);
    CancelAllLog(db, js, reason, r);
    hide CancelAll, Within, Tree, LiveSubtree, CancelEvents;
    assert db.log[r := db.log[r] + CancelEvents(js, reason)].Keys == db.log.Keys;
  }

  /**
   * `cancelSubtree` is exact. Precisely the members of the reflexive-transitive
   * descendant closure that are not over become cancelled, every other row stays as
   * it is, and the run's stream gains one report for each of them and nothing else.
   */
  lemma {:induction false} CancelSubtreeExact(db: Db, a: JobId, reason: string)
    requires Stored(db) && Tree(ShapeOf(db.jobs)) && a in db.jobs
    ensures var db' := CancelSubtree(db, a, reason); var r := db.jobs[a].spec.run;
      && db'.jobs.Keys == db.jobs.Keys
      && (forall j :: j in db.jobs && Within(ShapeOf(db.jobs), a, j) && !Terminal(db.jobs[j].status)
            ==> db'.jobs[j] == CancelledRow(db.jobs[j], reason))
      && (forall j :: j in db.jobs && (Terminal(db.jobs[j].status) || !Within(ShapeOf(db.jobs), a, j)) ==>
        db'.jobs[j] == db.jobs[j])
      && db'.log == db.log[r := db.log[r] + CancelEvents(Ascending(LiveSubtree(db, a)), reason)]
      && |CancelEvents(Ascending(LiveSubtree(db, a)), reason)| == |LiveSubtree(db, a)|
  {
    hide CancelSubtree, Within, Tree, LiveSubtree, CancelEvents, CancelledRow;
    CancelSubtreeRows(db, a, reason);
    CancelSubtreeLog(db, a, reason);
    AscendingCounts(LiveSubtree(db, a));
    CancelEventsCount(Ascending(LiveSubtree(db, a)), reason);
  }

  lemma CancelEventsCount(js: seq<JobId>, reason: string)
    ensures |CancelEvents(js, reason)| == |js|
  {}

  lemma {:induction false} SubtreeMembers(db: Db, a: JobId)
    requires Stored(db) && Tree(ShapeOf(db.jobs)) && a in db.jobs
    ensures forall j :: j in LiveSubtree(db, a) ==> j in db.jobs && db.jobs[j].spec.run == db.jobs[a].spec.run
  {
    forall j | j in LiveSubtree(db, a) ensures db.jobs[j].spec.run == db.jobs[a].spec.run {
      SubtreeInRun(ShapeOf(db.jobs), a, j);
    }
  }

  lemma {:induction false} AscendingCounts(s: set<nat>)
    ensures |Ascending(s)| == |s|
    decreases s
  {
    if s != {} {
      AscendingCounts(s - {Least(s)});
      assert s == (s - {Least(s)}) + {Least(s)};
    }
  }

  /* ------------------------------ ownership ------------------------------ */

  /** The rows the ownership query walks: the target and everything above it. */
  ghost function Chain(t: Shape, j: JobId): set<JobId>
    requires Tree(t) && j in t
    decreases t[j].birth
  {
    {j} + if t[j].parent.None? then {} else Chain(t, t[j].parent.value)
  }

  /** The ownership query of `/agent/cancel-child`: some row of the chain is the caller or has the caller as parent. */
  ghost predicate Owned(t: Shape, caller: JobId, target: JobId)
    requires Tree(t) && target in t
  {
    exists x :: x in Chain(t, target) && x in t && (x == caller || t[x].parent == Some(caller))
  }

  lemma {:induction false} ChainIsAncestors(t: Shape, j: JobId, a: JobId)
    requires Tree(t) && j in t
    ensures a in Chain(t, j) <==> Within(t, a, j)
    ensures Within(t, a, j) ==> a in t
    decreases t[j].birth
  {
    if t[j].parent.Some? { ChainIsAncestors(t, t[j].parent.value, a); }
  }

  lemma {:induction false} WithinTransitive(t: Shape, a: JobId, b: JobId, j: JobId)
    requires Tree(t) && j in t && b in t && Within(t, a, b) && Within(t, b, j)
    ensures Within(t, a, j)
    decreases t[j].birth
  {
    if j != b { WithinTransitive(t, a, b, t[j].parent.value); }
  }

  lemma {:induction false} ParentWithin(t: Shape, j: JobId, x: JobId)
    requires Tree(t) && j in t && x in t && Within(t, x, j) && t[x].parent.Some?
    ensures Within(t, t[x].parent.value, j)
  {
    assert Within(t, t[x].parent.value, t[x].parent.value);
    WithinTransitive(t, t[x].parent.value, x, j);
  }

  /**
   * The query decides ownership exactly: it admits the caller's descendants and the
   * caller itself, whom its own documentation does not mention, and nobody else.
   */
  lemma {:induction false} OwnershipExact(t: Shape, caller: JobId, target: JobId)
    requires Tree(t) && target in t
    ensures Owned(t, caller, target) <==> Within(t, caller, target)
  {
    if Owned(t, caller, target) {
      var x :| x in Chain(t, target) && x in t && (x == caller || t[x].parent == Some(caller));
      ChainIsAncestors(t, target, x);
      if x != caller { ParentWithin(t, target, x); }
    }
    if Within(t, caller, target) { ChainIsAncestors(t, target, caller); }
  }

  /** `/agent/cancel-child` for the holder of `caller`'s token. */
  ghost function CancelChild(db: Db, caller: JobId, target: JobId, reason: string): Db
    requires Stored(db) && Tree(ShapeOf(db.jobs)) && caller in db.jobs
  {
    if target in db.jobs && db.jobs[target].spec.run == db.jobs[caller].spec.run
      && Owned(ShapeOf(db.jobs), caller, target)
    then CancelSubtree(db, target, reason) else db
  }

  /** However confused the caller is, no job outside its own subtree is touched, in its run or in another. */
  lemma {:induction false} CancelChildStaysInside(db: Db, caller: JobId, target: JobId, reason: string, j: JobId)
    requires Stored(db) && Tree(ShapeOf(db.jobs)) && caller in db.jobs && j in db.jobs
    ensures j in CancelChild(db, caller, target, reason).jobs
    ensures !Within(ShapeOf(db.jobs), caller, j) ==> CancelChild(db, caller, target, reason).jobs[j] == db.jobs[j]
  {
    var t := ShapeOf(db.jobs);
    hide CancelSubtree, Tree;
    if target in db.jobs && Owned(t, caller, target) {
      OwnershipExact(t, caller, target);
      CancelSubtreeExact(db, target, reason);
      if Within(t, target, j) { WithinTransitive(t, caller, target, j); }
    }
  }

  lemma {:induction false} EverythingIsBeneath(db: Db, root: JobId)
    requires Stored(db) && ForestOk(db) && root in db.jobs && db.jobs[root].spec.parent.None?
    ensures forall j :: j in db.jobs && db.jobs[j].spec.run == db.jobs[root].spec.run ==>
      Within(ShapeOf(db.jobs), root, j)
  {
    var t, r := ShapeOf(db.jobs), db.jobs[root].spec.run;
    forall j | j in db.jobs && db.jobs[j].spec.run == r ensures Within(t, root, j) {
      var top := RootAbove(t, j);
      assert RootOf(t, r, top) && RootOf(t, r, root);
    }
  }

  /* ------------------------------- spawning ------------------------------- */

  /** What the endpoint answers: the stored or new response, or a conflict when the request id came with other wants. */
  datatype Reply = Given(response: Response) | Conflict

  ghost function SpawnReply(db: Db, parent: JobId, request: Option<string>, ids: seq<JobId>, wants: seq<Want>): Reply
    requires Stored(db) && Tree(ShapeOf(db.jobs)) && parent in db.jobs && |ids| == |wants|
  {
    if request.Some? && (parent, request.value) in db.receipts then
      var saved := db.receipts[(parent, request.value)];
      if saved.wants == wants then Given(saved.response) else Conflict
    else Given(Answer(db, parent, ids, wants))
  }

  /**
   * A spawn request is answered once. However often it is repeated, and whatever
   * happens in between, the repeats get the first answer, or a conflict if they ask
   * for something else, and create nothing.
   */
  lemma {:induction false} SpawnOnce(
      before: seq<Step>, db: Db, parent: JobId, q: string, ids: seq<JobId>, wants: seq<Want>, now: int,
      after: seq<Step>, db': Db, ids': seq<JobId>, wants': seq<Want>, now': int)
    requires Leads(EMPTY_DB, before, db) && Stored(db) && Tree(ShapeOf(db.jobs))
    requires Enabled(db, DoSpawn(parent, Some(q), ids, wants, now)) && (parent, q) !in db.receipts
    requires Leads(Next(db, DoSpawn(parent, Some(q), ids, wants, now)), after, db') && |ids'| == |wants'|
    ensures Stored(db') && Tree(ShapeOf(db'.jobs)) && parent in db'.jobs
    ensures SpawnReply(db', parent, Some(q), ids', wants') == if wants' == wants
      then Given(Answer(db, parent, ids, wants)) else Conflict
    ensures Spawn(db', parent, Some(q), ids', wants', now') == db'
  {
    var s := DoSpawn(parent, Some(q), ids, wants, now);
    var db1 := Next(db, s);
    assert parent in db.jobs && ReceiptIs(db1, parent, q, Receipt(wants, Answer(db, parent, ids, wants)));
    hide Leads, Enabled, Next, Fresh, Grows, Answer, Spawn;
    Reachable(before, db);
    NextKeeps(db, s);
    NextGrows(db, s);
    LeadsKeeps(db1, after, db');
    LeadsGrows(db1, after, db');
    hide Inv, Tree;
    StillHeld(db');
    StillThere(db, db1, parent);
    StillThere(db1, db', parent);
    ReceiptStays(db1, db', parent, q, Receipt(wants, Answer(db, parent, ids, wants)));
    RepeatAnswered(db', parent, q, Receipt(wants, Answer(db, parent, ids, wants)), ids', wants', now');
  }

  predicate ReceiptIs(db: Db, parent: JobId, q: string, receipt: Receipt) {
    (parent, q) in db.receipts && db.receipts[(parent, q)] == receipt
  }

  lemma StillThere(db: Db, db': Db, j: JobId)
    requires Grows(db, db') && j in db.jobs
    ensures j in db'.jobs
  {}

  lemma ReceiptStays(db: Db, db': Db, parent: JobId, q: string, receipt: Receipt)
    requires Grows(db, db') && ReceiptIs(db, parent, q, receipt)
    ensures ReceiptIs(db', parent, q, receipt)
  {}

  lemma RepeatAnswered(db: Db, parent: JobId, q: string, receipt: Receipt, ids: seq<JobId>, wants: seq<Want>, now: int)
    requires Stored(db) && Tree(ShapeOf(db.jobs)) && parent in db.jobs && |ids| == |wants|
      && ReceiptIs(db, parent, q, receipt)
    ensures SpawnReply(db, parent, Some(q), ids, wants) == if wants == receipt.wants then Given(receipt.response)
      else Conflict
    ensures Spawn(db, parent, Some(q), ids, wants, now) == db
  {}

  lemma StillHeld(db: Db)
    requires Inv(db)
    ensures Stored(db) && Tree(ShapeOf(db.jobs))
  {}

  /** The `i`th child of a batch. */
  predicate ChildOf(db: Db, parent: JobId, id: JobId, want: Want) {
    && parent in db.jobs && id in db.jobs
    && db.jobs[id].spec.run == db.jobs[parent].spec.run && db.jobs[id].spec.parent == Some(parent)
    && db.jobs[id].spec.kind == want.kind && db.jobs[id].spec.priority == want.priority
      && db.jobs[id].spec.deps == want.deps
    && db.jobs[id].status.Queued? && db.jobs[id].attempts == 0
  }

  lemma {:induction false} SpawnOneExact(db: Db, parent: JobId, id: JobId, want: Want, now: int)
    requires Stored(db) && parent in db.jobs && id !in db.jobs
    ensures var db1 := SpawnOne(db, parent, id, want, now); var r := db.jobs[parent].spec.run;
      && Stored(db1) && ChildOf(db1, parent, id, want)
      && (forall j :: j in db.jobs ==> j in db1.jobs && db1.jobs[j] == db.jobs[j])
      && r in db1.runs && db1.runs[r].budget == db.runs[r].budget.(totalSpawns := db.runs[r].budget.totalSpawns + 1)
  {}

  /** A batch creates one queued child for each want, in order, counts them, and leaves every other job alone. */
  lemma {:induction false} SpawnManyExact(db: Db, parent: JobId, ids: seq<JobId>, wants: seq<Want>, now: int)
    requires Stored(db) && parent in db.jobs && |ids| == |wants| && Fresh(db, ids, wants)
    ensures var db' := SpawnMany(db, parent, ids, wants, now); var r := db.jobs[parent].spec.run;
      && (forall j :: j in db.jobs ==> j in db'.jobs && db'.jobs[j] == db.jobs[j])
      && (forall i :: 0 <= i < |ids| ==> ChildOf(db', parent, ids[i], wants[i]))
      && r in db'.runs && db'.runs[r].budget == db.runs[r].budget.(totalSpawns := db.runs[r].budget.totalSpawns + |ids|)
    decreases |ids|
  {
    if ids != [] {
      var db1 := SpawnOne(db, parent, ids[0], wants[0], now);
      SpawnOneExact(db, parent, ids[0], wants[0], now);
      FreshTail(db, parent, ids, wants, now);
      hide SpawnOne, Fresh, Stored;
      SpawnManyExact(db1, parent, ids[1..], wants[1..], now);
      var db' := SpawnMany(db1, parent, ids[1..], wants[1..], now);
      forall i | 0 <= i < |ids| ensures ChildOf(db', parent, ids[i], wants[i]) {
        if i > 0 { assert ids[i] == ids[1..][i - 1] && wants[i] == wants[1..][i - 1]; }
      }
    }
  }

  /**
   * What a new request gets: a prefix of what it asked for, each want as one queued
   * child of the asker, and nothing else changes. Something is refused only when the
   * run is over, the asker sits at the depth limit, or the run's budget is now used up
   * to the last job; and what the response names is what was created.
   */
  lemma {:induction false} SpawnExact(
      steps: seq<Step>, db: Db, parent: JobId, request: Option<string>, ids: seq<JobId>, wants: seq<Want>, now: int)
    requires Leads(EMPTY_DB, steps, db) && Stored(db) && Tree(ShapeOf(db.jobs))
    requires Enabled(db, DoSpawn(parent, request, ids, wants, now))
    requires request.Some? ==> (parent, request.value) !in db.receipts
    ensures
      var db' := Spawn(db, parent, request, ids, wants, now);
      var got := Answer(db, parent, ids, wants); var r := db.jobs[parent].spec.run;
      && got.spawned == ids[..|got.spawned|] && |got.spawned| + got.refused == |wants|
      && (forall x :: x in db'.jobs <==> x in db.jobs || x in got.spawned)
      && (forall j :: j in db.jobs ==> db'.jobs[j] == db.jobs[j])
      && (forall i :: 0 <= i < |got.spawned| ==> ChildOf(db', parent, got.spawned[i], wants[i]))
      && r in db'.runs
      && db'.runs[r].budget.totalSpawns == db.runs[r].budget.totalSpawns + |got.spawned| <= db.runs[r].budget.maxSpawns
      && (got.refused > 0 ==>
            || RunOver(db.runs[r].status)
            || Depth(ShapeOf(db.jobs), parent) >= db.runs[r].budget.maxDepth
            || db'.runs[r].budget.totalSpawns == db.runs[r].budget.maxSpawns)
  {
    var n, r := Granted(db, parent, wants), db.jobs[parent].spec.run;
    WithinBudget(steps, db, r);
    FreshPrefix(db, ids, wants, n);
    hide Leads, Within;
    SpawnManyExact(db, parent, ids[..n], wants[..n], now);
    SpawnManyKeys(db, parent, ids[..n], wants[..n], now);
    hide SpawnMany, ChildOf;
    assert wants[..n] <= wants;
  }

  lemma {:induction false} WithinBudget(steps: seq<Step>, db: Db, r: RunId)
    requires Leads(EMPTY_DB, steps, db) && r in db.runs
    ensures db.runs[r].budget.totalSpawns <= db.runs[r].budget.maxSpawns
  {
    SpawnBudgetsHold(steps, db, r);
  }
}
