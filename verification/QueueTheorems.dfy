/** What holds of whole histories of the queue. */
module QueueTheorems {
  import opened Common
  import opened Events
  import opened QueueModel
  import opened QueueInvariants
  import opened QueueProofs
  import opened QueueRuns

  /** `steps` is a history that leads from `db` to `db'`, each transaction possible when it happens. */
  ghost predicate Leads(db: Db, steps: seq<Step>, db': Db)
    decreases |steps|
  {
    if steps == [] then db' == db
    else
      && Stored(db) && Tree(ShapeOf(db.jobs)) && Enabled(db, steps[0])
      && Leads(Next(db, steps[0]), steps[1..], db')
  }

  lemma {:induction false} LeadsKeeps(db: Db, steps: seq<Step>, db': Db)
    requires Inv(db) && Leads(db, steps, db')
    ensures Inv(db')
    decreases |steps|
  {
    if steps != [] {
      NextKeeps(db, steps[0]);
      LeadsKeeps(Next(db, steps[0]), steps[1..], db');
    }
  }

  lemma {:induction false} Reachable(steps: seq<Step>, db: Db)
    requires Leads(EMPTY_DB, steps, db)
    ensures Inv(db)
  {
    assert Inv(EMPTY_DB);
    LeadsKeeps(EMPTY_DB, steps, db);
  }

  /* ---------------------- what never goes backwards ---------------------- */

  /** Streams only grow, rows keep their identity, and what is over stays exactly as it ended. */
  ghost predicate Grows(db: Db, db': Db) {
    && (forall r :: r in db.log ==> r in db'.log && db.log[r] <= db'.log[r])
    && (forall j :: j in db.jobs ==> j in db'.jobs && db'.jobs[j].spec == db.jobs[j].spec)
    && (forall j :: j in db.jobs && Terminal(db.jobs[j].status) ==> db'.jobs[j] == db.jobs[j])
    && (forall r :: r in db.runs ==>
      r in db'.runs && (RunOver(db.runs[r].status) ==> db'.runs[r].status == db.runs[r].status))
    && (forall k :: k in db.receipts ==> k in db'.receipts && db'.receipts[k] == db.receipts[k])
  }

  lemma {:induction false} GrowsTransitive(a: Db, b: Db, c: Db)
    requires Grows(a, b) && Grows(b, c)
    ensures Grows(a, c)
  {}

  lemma {:induction false} MoveGrows(db: Db, j: JobId, to: Job, e: Event)
    requires Stored(db) && j in db.jobs && !Terminal(db.jobs[j].status) && to.spec == db.jobs[j].spec
    ensures Grows(db, Move(db, j, to, e))
  {}

  lemma {:induction false} ReapOneLeaves(db: Db, js: seq<JobId>)
    requires Stored(db) && Increasing(js) && js != []
    requires forall j :: j in js ==> j in db.jobs && !Terminal(db.jobs[j].status)
    ensures var db1 := ReapOne(db, js[0]);
      && Grows(db, db1) && Stored(db1) && Increasing(js[1..])
      && forall j :: j in js[1..] ==> j in db1.jobs && !Terminal(db1.jobs[j].status)
  {}

  lemma {:induction false} CancelOneGrows(db: Db, j: JobId, reason: string)
    requires Stored(db) && j in db.jobs && !Terminal(db.jobs[j].status)
    ensures Grows(db, CancelOne(db, j, reason))
  {}

  lemma {:induction false} SpawnOneGrows(db: Db, parent: JobId, id: JobId, want: Want, now: int)
    requires Stored(db) && parent in db.jobs && id !in db.jobs
    ensures var db1 := SpawnOne(db, parent, id, want, now); Grows(db, db1) && Stored(db1) && parent in db1.jobs
  {}

  lemma {:induction false} ReapAllGrows(db: Db, js: seq<JobId>)
    requires Stored(db) && Increasing(js) && forall j :: j in js ==> j in db.jobs && !Terminal(db.jobs[j].status)
    ensures Grows(db, ReapAll(db, js))
    decreases |js|
  {
    if js != [] {
      var db1 := ReapOne(db, js[0]);
      ReapOneLeaves(db, js);
      hide Grows;
      ReapAllGrows(db1, js[1..]);
      GrowsTransitive(db, db1, ReapAll(db1, js[1..]));
    }
  }

  lemma {:induction false} CancelAllGrows(db: Db, js: seq<JobId>, reason: string)
    requires Stored(db) && Increasing(js) && forall j :: j in js ==> j in db.jobs && !Terminal(db.jobs[j].status)
    ensures Grows(db, CancelAll(db, js, reason))
    decreases |js|
  {
    if js != [] {
      hide Grows;
      var db1 := CancelOne(db, js[0], reason);
      CancelOneLeaves(db, js, reason);
      CancelOneGrows(db, js[0], reason);
      CancelAllGrows(db1, js[1..], reason);
      GrowsTransitive(db, db1, CancelAll(db1, js[1..], reason));
    }
  }

  lemma {:induction false} SpawnManyGrows(db: Db, parent: JobId, ids: seq<JobId>, wants: seq<Want>, now: int)
    requires Stored(db) && parent in db.jobs && |ids| == |wants| && Fresh(db, ids, wants)
    ensures Grows(db, SpawnMany(db, parent, ids, wants, now))
    decreases |ids|
  {
    if ids != [] {
      FreshTail(db, parent, ids, wants, now);
      assert ids[0] !in db.jobs;
      SpawnOneGrows(db, parent, ids[0], wants[0], now);
      hide Grows, Fresh;
      var db1 := SpawnOne(db, parent, ids[0], wants[0], now);
      SpawnManyGrows(db1, parent, ids[1..], wants[1..], now);
      GrowsTransitive(db, db1, SpawnMany(db1, parent, ids[1..], wants[1..], now));
    }
  }

  lemma {:induction false} CloseGrows(db: Db, r: RunId, s: RunStatus, job: Option<JobId>, turns: seq<string>)
    requires Stored(db) && r in db.runs && !RunOver(db.runs[r].status)
    ensures Grows(db, Close(db, r, s, job, turns))
  {}

  lemma {:induction false} FinishRunGrows(db: Db, j: JobId)
    requires Stored(db) && Tree(ShapeOf(db.jobs)) && j in db.jobs
    ensures Grows(db, FinishRun(db, j))
  {
    hide Grows;
    var r := db.jobs[j].spec.run;
    if !RunOver(db.runs[r].status) {
      var js := Ascending(LiveSubtree(db, j) - {j});
      var s := if db.jobs[j].status.Succeeded? then Completed else RunFailed;
      CancelAllGrows(db, js, ROOT_FINISHED);
      CancelAllExact(db, js, ROOT_FINISHED);
      var db1 := CancelAll(db, js, ROOT_FINISHED);
      CloseGrows(db1, r, s, Some(j), [Closing(db.jobs[j])]);
      GrowsTransitive(db, db1, Close(db1, r, s, Some(j), [Closing(db.jobs[j])]));
    } else {
      GrowsReflexive(db);
    }
  }

  lemma {:induction false} GrowsReflexive(db: Db)
    ensures Grows(db, db)
  {}

  lemma {:induction false} CancelRunGrows(db: Db, r: RunId, reason: string)
    requires Stored(db)
    ensures Grows(db, CancelRun(db, r, reason))
  {
    hide Grows;
    if r in db.runs && !RunOver(db.runs[r].status) {
      CancelAllGrows(db, Ascending(LiveJobs(db, r)), reason);
      CancelAllExact(db, Ascending(LiveJobs(db, r)), reason);
      var db1 := CancelAll(db, Ascending(LiveJobs(db, r)), reason);
      NoTurns(db1, r, RunCancelled, None);
      CloseGrows(db1, r, RunCancelled, None, []);
      GrowsTransitive(db, db1, Close(db1, r, RunCancelled, None, []));
    } else {
      GrowsReflexive(db);
    }
  }

  lemma {:induction false} SpawnGrows(
      db: Db, parent: JobId, request: Option<string>, ids: seq<JobId>, wants: seq<Want>, now: int)
    requires Stored(db) && Tree(ShapeOf(db.jobs)) && parent in db.jobs && |ids| == |wants| && Fresh(db, ids, wants)
    ensures Grows(db, Spawn(db, parent, request, ids, wants, now))
  {
    hide Grows;
    var n := Granted(db, parent, wants);
    FreshPrefix(db, ids, wants, n);
    SpawnManyGrows(db, parent, ids[..n], wants[..n], now);
    match request
    case None =>
    case Some(q) =>
      if (parent, q) in db.receipts {
        GrowsReflexive(db);
      } else {
        SpawnManyKeepsReceipts(db, parent, ids[..n], wants[..n], now);
        var db1 := SpawnGranted(db, parent, ids, wants, now);
        ReceiptGrows(db1, parent, q, Receipt(wants, Answer(db, parent, ids, wants)));
        GrowsTransitive(db, db1, WithReceipt(db1, parent, q, Receipt(wants, Answer(db, parent, ids, wants))));
      }
  }

  lemma {:induction false} ReceiptGrows(db: Db, parent: JobId, q: string, receipt: Receipt)
    requires (parent, q) !in db.receipts
    ensures Grows(db, WithReceipt(db, parent, q, receipt))
  {}

  lemma {:induction false} SpawnManyKeepsReceipts(db: Db, parent: JobId, ids: seq<JobId>, wants: seq<Want>, now: int)
    requires Stored(db) && parent in db.jobs && |ids| == |wants|
    ensures SpawnMany(db, parent, ids, wants, now).receipts == db.receipts
    decreases |ids|
  {
    if ids != [] {
      SpawnManyKeepsReceipts(SpawnOne(db, parent, ids[0], wants[0], now), parent, ids[1..], wants[1..], now);
    }
  }

  lemma {:induction false} AppendGrows(db: Db, r: RunId, e: Event)
    requires Stored(db) && r in db.runs
    ensures Grows(db, Append(db, r, e))
  {}

  lemma {:induction false} OpenRunGrows(db: Db, r: RunId, root: JobId, maxSpawns: nat, maxDepth: nat, now: int)
    requires Stored(db) && r !in db.runs && root !in db.jobs
    ensures Grows(db, OpenRun(db, r, root, maxSpawns, maxDepth, now))
  {}

  lemma {:induction false} JobGrows(db: Db, s: Step)
    requires Stored(db) && Tree(ShapeOf(db.jobs)) && Enabled(db, s)
    requires s.DoClaim? || s.DoMarkRunning? || s.DoComplete? || s.DoFail?
    ensures Grows(db, Next(db, s))
  {
    hide Grows;
    GrowsReflexive(db);
    match s
    case DoClaim(j, vm, until) =>
      var job := ClaimedRow(db.jobs[j], vm, until);
      MoveGrows(db, j, job, StatusEvent(j, Claimed, Some(vm), Some(job.attempts), None));
    case DoMarkRunning(j, vm) =>
      if Holder(db, j, vm) {
        MoveGrows(db, j, db.jobs[j].(status := Running), StatusEvent(j, Running, Some(vm), None, None));
      }
    case DoComplete(j, vm, summary) =>
      if Holder(db, j, vm) {
        MoveGrows(db, j, db.jobs[j].(status := Succeeded, result := Some(summary), error := None, lease := None),
                  StatusEvent(j, Succeeded, Some(vm), None, Detail(summary)));
      }
    case DoFail(j, vm, error) =>
      if Holder(db, j, vm) {
        var job := GivenBack(db.jobs[j], error);
        MoveGrows(db, j, job, StatusEvent(j, job.status, Some(vm), Some(job.attempts), Detail(error)));
      }
  }

  lemma {:induction false} HeartbeatGrows(db: Db, j: JobId, vm: VmId, until: int)
    ensures Grows(db, Heartbeat(db, j, vm, until))
  {}

  lemma {:induction false} StartRunGrows(db: Db, r: RunId, j: JobId)
    requires Stored(db)
    ensures Grows(db, StartRun(db, r, j))
  {
    hide Grows;
    GrowsReflexive(db);
    if r in db.runs && db.runs[r].status.RunQueued? {
      NoTurns(db, r, RunRunning, Some(j));
      CloseGrows(db, r, RunRunning, Some(j), []);
    }
  }

  lemma {:induction false} NextGrows(db: Db, s: Step)
    requires Stored(db) && Tree(ShapeOf(db.jobs)) && Enabled(db, s)
    ensures Grows(db, Next(db, s))
  {
    hide Grows;
    GrowsReflexive(db);
    match s
    case DoReap(batch, now) => ReapAllGrows(db, Ascending(batch));
    case DoCancelSubtree(j, reason) => CancelAllGrows(db, Ascending(LiveSubtree(db, j)), reason);
    case DoFinishRun(j) => FinishRunGrows(db, j);
    case DoCancelRun(r, reason) => CancelRunGrows(db, r, reason);
    case DoSpawn(parent, request, ids, wants, now) => SpawnGrows(db, parent, request, ids, wants, now);
    case DoOpenRun(r, root, maxSpawns, maxDepth, now) =>
      assert [root][0] == root;
      OpenRunGrows(db, r, root, maxSpawns, maxDepth, now);
    case DoHeartbeat(j, vm, until) => HeartbeatGrows(db, j, vm, until);
    case DoStartRun(r, j) => StartRunGrows(db, r, j);
    case DoPost(j, body) => if j in db.jobs { AppendGrows(db, db.jobs[j].spec.run, Event(Some(j), Agent(j), body)); }
    case DoAnnounce(r, job, text) => if r in db.runs { AppendGrows(db, r, Event(job, Orchestrator, Note(text))); }
    case _ => JobGrows(db, s);
  }

  lemma {:induction false} LeadsGrows(db: Db, steps: seq<Step>, db': Db)
    requires Inv(db) && Leads(db, steps, db')
    ensures Grows(db, db')
    decreases |steps|
  {
    if steps != [] {
      NextKeeps(db, steps[0]);
      NextGrows(db, steps[0]);
      hide Grows;
      LeadsGrows(Next(db, steps[0]), steps[1..], db');
      GrowsTransitive(db, Next(db, steps[0]), db');
    }
  }
}
