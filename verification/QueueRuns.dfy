/** Every transaction keeps the invariants, so every history of the queue does. */
module QueueRuns {
  import opened Common
  import opened Events
  import opened QueueModel
  import opened QueueInvariants
  import opened QueueProofs

  /* ------------------------- single transitions ------------------------- */

  lemma {:induction false} ClaimLegal(db: Db, j: JobId, vm: VmId, until: int)
    requires Stored(db) && RowsOk(db) && GatesOk(db) && Eligible(db, j, {}, None, None)
    ensures var job := ClaimedRow(db.jobs[j], vm, until);
      LegalMove(db, j, job, StatusEvent(j, Claimed, Some(vm), Some(job.attempts), None))
  {}

  lemma {:induction false} ClaimKeeps(db: Db, j: JobId, vm: VmId, until: int)
    requires Inv(db) && Eligible(db, j, {}, None, None)
    ensures Inv(Claim(db, j, vm, until))
  {
    ClaimLegal(db, j, vm, until);
    hide Inv, LegalMove, Ready;
    var job := ClaimedRow(db.jobs[j], vm, until);
    MoveKeeps(db, j, job, StatusEvent(j, Claimed, Some(vm), Some(job.attempts), None));
  }

  lemma {:induction false} RunningLegal(db: Db, j: JobId, vm: VmId)
    requires Stored(db) && RowsOk(db) && GatesOk(db) && j in db.jobs && db.jobs[j].status.Claimed?
    ensures LegalMove(db, j, db.jobs[j].(status := Running), StatusEvent(j, Running, Some(vm), None, None))
  {}

  lemma {:induction false} MarkRunningKeeps(db: Db, j: JobId, vm: VmId)
    requires Inv(db)
    ensures Inv(MarkRunning(db, j, vm))
  {
    if Holder(db, j, vm) && db.jobs[j].status.Claimed? {
      RunningLegal(db, j, vm);
      hide Inv, LegalMove;
      MoveKeeps(db, j, db.jobs[j].(status := Running), StatusEvent(j, Running, Some(vm), None, None));
    }
  }

  lemma {:induction false} CompleteLegal(db: Db, j: JobId, vm: VmId, summary: string)
    requires Stored(db) && RowsOk(db) && GatesOk(db) && j in db.jobs && Leased(db.jobs[j].status)
    ensures LegalMove(db, j, db.jobs[j].(status := Succeeded, result := Some(summary), error := None, lease := None),
                      StatusEvent(j, Succeeded, Some(vm), None, Detail(summary)))
  {}

  lemma {:induction false} CompleteKeeps(db: Db, j: JobId, vm: VmId, summary: string)
    requires Inv(db)
    ensures Inv(Complete(db, j, vm, summary))
  {
    if Holder(db, j, vm) {
      CompleteLegal(db, j, vm, summary);
      hide Inv, LegalMove;
      MoveKeeps(db, j, db.jobs[j].(status := Succeeded, result := Some(summary), error := None, lease := None),
                StatusEvent(j, Succeeded, Some(vm), None, Detail(summary)));
    }
  }

  lemma {:induction false} GivenBackLegal(db: Db, j: JobId, error: string, vm: Option<VmId>)
    requires Stored(db) && RowsOk(db) && GatesOk(db) && j in db.jobs && Leased(db.jobs[j].status)
    ensures var job := GivenBack(db.jobs[j], error);
      LegalMove(db, j, job, StatusEvent(j, job.status, vm, Some(job.attempts), Detail(error)))
  {}

  lemma {:induction false} FailKeeps(db: Db, j: JobId, vm: VmId, error: string)
    requires Inv(db)
    ensures Inv(Fail(db, j, vm, error))
  {
    if Holder(db, j, vm) {
      GivenBackLegal(db, j, error, Some(vm));
      hide Inv, LegalMove;
      var job := GivenBack(db.jobs[j], error);
      MoveKeeps(db, j, job, StatusEvent(j, job.status, Some(vm), Some(job.attempts), Detail(error)));
    }
  }

  lemma {:induction false} BeatRows(db: Db, j: JobId, vm: VmId, until: int)
    requires Stored(db) && RowsOk(db) && GatesOk(db) && OverOk(db) && Holder(db, j, vm)
    ensures var db' := Heartbeat(db, j, vm, until);
      Stored(db') && RowsOk(db') && GatesOk(db') && OverOk(db') && ShapeOf(db'.jobs) == ShapeOf(db.jobs)
  {
    var db' := Heartbeat(db, j, vm, until);
    forall k | k in db'.jobs && db'.jobs[k].attempts > 0 ensures Ready(db', k) { assert Ready(db, k); }
  }

  lemma {:induction false} BeatStreams(db: Db, j: JobId, vm: VmId, until: int)
    requires Stored(db) && PathsOk(db) && OrderOk(db) && Holder(db, j, vm)
    ensures var db' := Heartbeat(db, j, vm, until); PathsOk(db') && OrderOk(db')
  {
    var db' := Heartbeat(db, j, vm, until);
    forall r, k | r in db'.log ensures PathOf(db', r, k) { assert PathOf(db, r, k); }
    forall r, k: nat, i, d | r in db'.log && k < |db'.log[r]| ensures OrderOf(db', r, k, i, d) {
      assert OrderOf(db, r, k, i, d);
    }
  }

  lemma {:induction false} HeartbeatKeeps(db: Db, j: JobId, vm: VmId, until: int)
    requires Inv(db)
    ensures Inv(Heartbeat(db, j, vm, until))
  {
    hide RowsOk, GatesOk, OverOk, PathsOk, OrderOk, Forest;
    if Holder(db, j, vm) {
      BeatRows(db, j, vm, until);
      BeatStreams(db, j, vm, until);
    }
  }

  /* ------------------------------- batches ------------------------------- */

  lemma {:induction false} ReapOneKeeps(db: Db, j: JobId)
    requires Inv(db) && j in db.jobs && Leased(db.jobs[j].status)
    ensures Inv(ReapOne(db, j))
  {
    GivenBackLegal(db, j, LEASE_EXPIRED, None);
    hide Inv, LegalMove;
    var job := GivenBack(db.jobs[j], LEASE_EXPIRED);
    MoveKeeps(db, j, job, StatusEvent(j, job.status, None, Some(job.attempts), Detail(LEASE_EXPIRED)));
  }

  lemma {:induction false} ReapOneLeaves(db: Db, js: seq<JobId>)
    requires Stored(db) && Increasing(js) && js != [] && forall j :: j in js ==>
      j in db.jobs && Leased(db.jobs[j].status)
    ensures var db1 := ReapOne(db, js[0]);
      Stored(db1) && Increasing(js[1..]) && forall j :: j in js[1..] ==> j in db1.jobs && Leased(db1.jobs[j].status)
  {}

  lemma {:induction false} ReapAllKeeps(db: Db, js: seq<JobId>)
    requires Inv(db) && Increasing(js) && forall j :: j in js ==> j in db.jobs && Leased(db.jobs[j].status)
    ensures Inv(ReapAll(db, js))
    decreases |js|
  {
    if js != [] {
      ReapOneLeaves(db, js);
      hide Inv;
      ReapOneKeeps(db, js[0]);
      ReapAllKeeps(ReapOne(db, js[0]), js[1..]);
    }
  }

  lemma {:induction false} CancelLegal(db: Db, j: JobId, reason: string)
    requires Stored(db) && RowsOk(db) && GatesOk(db) && j in db.jobs && !Terminal(db.jobs[j].status)
    ensures LegalMove(db, j, CancelledRow(db.jobs[j], reason), StatusEvent(j, Cancelled, None, None, Detail(reason)))
  {}

  lemma {:induction false} CancelOneKeeps(db: Db, j: JobId, reason: string)
    requires Inv(db) && j in db.jobs && !Terminal(db.jobs[j].status)
    ensures Inv(CancelOne(db, j, reason)) && ShapeOf(CancelOne(db, j, reason).jobs) == ShapeOf(db.jobs)
  {
    CancelLegal(db, j, reason);
    hide Inv, LegalMove;
    MoveKeeps(db, j, CancelledRow(db.jobs[j], reason), StatusEvent(j, Cancelled, None, None, Detail(reason)));
  }

  /** What a batch of cancellations does to the rows, and that it touches no run's status. */
  lemma {:induction false} CancelAllExact(db: Db, js: seq<JobId>, reason: string)
    requires Stored(db) && Increasing(js) && forall j :: j in js ==> j in db.jobs
    ensures var db' := CancelAll(db, js, reason);
      && (forall j :: j in db.jobs ==> db'.jobs[j] == if j in js then CancelledRow(db.jobs[j], reason) else db.jobs[j])
      && (forall r :: r in db.runs ==> db'.runs[r].status == db.runs[r].status)
      && db'.closing == db.closing
    decreases |js|
  {
    if js != [] { CancelAllExact(CancelOne(db, js[0], reason), js[1..], reason); }
  }

  lemma {:induction false} CancelOneLeaves(db: Db, js: seq<JobId>, reason: string)
    requires Stored(db) && Increasing(js) && js != []
    requires forall j :: j in js ==> j in db.jobs && !Terminal(db.jobs[j].status)
    ensures var db' := CancelOne(db, js[0], reason);
      Increasing(js[1..]) && forall j :: j in js[1..] ==> j in db'.jobs && !Terminal(db'.jobs[j].status)
  {}

  lemma {:induction false} CancelAllKeeps(db: Db, js: seq<JobId>, reason: string)
    requires Inv(db) && Increasing(js) && forall j :: j in js ==> j in db.jobs && !Terminal(db.jobs[j].status)
    ensures Inv(CancelAll(db, js, reason)) && ShapeOf(CancelAll(db, js, reason).jobs) == ShapeOf(db.jobs)
    decreases |js|
  {
    if js != [] {
      CancelOneLeaves(db, js, reason);
      hide Inv;
      CancelOneKeeps(db, js[0], reason);
      CancelAllKeeps(CancelOne(db, js[0], reason), js[1..], reason);
    }
  }

  /* --------------------------------- runs --------------------------------- */

  /** When the root captain is over, cancelling what is beneath it leaves no live job in the run. */
  lemma {:induction false} NothingElseLives(db: Db, j: JobId, k: JobId)
    requires ForestOk(db) && j in db.jobs && db.jobs[j].spec.parent.None? && Terminal(db.jobs[j].status)
    requires k in db.jobs && db.jobs[k].spec.run == db.jobs[j].spec.run && !Terminal(db.jobs[k].status)
    ensures k in LiveSubtree(db, j) - {j}
  {
    var root := RootAbove(ShapeOf(db.jobs), k);
    assert RootOf(ShapeOf(db.jobs), db.jobs[j].spec.run, root) && RootOf(ShapeOf(db.jobs), db.jobs[j].spec.run, j);
  }

  lemma {:induction false} SubtreeCancelled(db: Db, j: JobId)
    requires Stored(db) && ForestOk(db) && j in db.jobs && db.jobs[j].spec.parent.None? && Terminal(db.jobs[j].status)
    ensures var db1 := CancelAll(db, Ascending(LiveSubtree(db, j) - {j}), ROOT_FINISHED);
      NoLiveJob(db1, db.jobs[j].spec.run)
  {
    var r := db.jobs[j].spec.run;
    var js := Ascending(LiveSubtree(db, j) - {j});
    CancelAllExact(db, js, ROOT_FINISHED);
    var db1 := CancelAll(db, js, ROOT_FINISHED);
    forall k | k in db1.jobs && db1.jobs[k].spec.run == r ensures Terminal(db1.jobs[k].status) {
      if !Terminal(db.jobs[k].status) { NothingElseLives(db, j, k); }
    }
  }

  lemma {:induction false} FinishRunKeeps(db: Db, j: JobId)
    requires Inv(db) && j in db.jobs && db.jobs[j].spec.parent.None? && Terminal(db.jobs[j].status)
    ensures Inv(FinishRun(db, j))
  {
    var r := db.jobs[j].spec.run;
    if !RunOver(db.runs[r].status) {
      var s := if db.jobs[j].status.Succeeded? then Completed else RunFailed;
      var js := Ascending(LiveSubtree(db, j) - {j});
      SubtreeCancelled(db, j);
      CancelAllExact(db, js, ROOT_FINISHED);
      hide Inv, NoLiveJob;
      CancelAllKeeps(db, js, ROOT_FINISHED);
      CloseKeeps(CancelAll(db, js, ROOT_FINISHED), r, s, Some(j), [Closing(db.jobs[j])]);
    }
  }

  lemma {:induction false} NoTurns(db: Db, r: RunId, s: RunStatus, job: Option<JobId>)
    requires Stored(db) && r in db.runs
    ensures Close(db, r, s, job, []) == SetRun(db, r, s, RunEvent(job, s))
  {
    assert db.closing[r] + [] == db.closing[r];
    assert db.closing[r := db.closing[r]] == db.closing;
  }

  lemma {:induction false} CloseSilently(db: Db, r: RunId, s: RunStatus, job: Option<JobId>)
    requires Inv(db) && r in db.runs && !RunOver(db.runs[r].status) && !s.Completed? && !s.RunFailed?
    requires RunOver(s) ==> NoLiveJob(db, r)
    ensures Inv(SetRun(db, r, s, RunEvent(job, s)))
  {
    assert Stored(db);
    hide Inv, NoLiveJob;
    CloseKeeps(db, r, s, job, []);
    NoTurns(db, r, s, job);
  }

  lemma {:induction false} NothingLives(db: Db, r: RunId, reason: string)
    requires Stored(db) && r in db.runs && !RunOver(db.runs[r].status)
    ensures var db' := CancelAll(db, Ascending(LiveJobs(db, r)), reason);
      && NoLiveJob(db', r) && r in db'.runs && !RunOver(db'.runs[r].status)
  {
    CancelAllExact(db, Ascending(LiveJobs(db, r)), reason);
  }

  lemma {:induction false} CancelRunKeeps(db: Db, r: RunId, reason: string)
    requires Inv(db)
    ensures Inv(CancelRun(db, r, reason))
  {
    assert Stored(db);
    hide Inv, NoLiveJob;
    if r in db.runs && !RunOver(db.runs[r].status) {
      CancelAllKeeps(db, Ascending(LiveJobs(db, r)), reason);
      NothingLives(db, r, reason);
      CloseSilently(CancelAll(db, Ascending(LiveJobs(db, r)), reason), r, RunCancelled, None);
    }
  }

  lemma {:induction false} StartRunKeeps(db: Db, r: RunId, j: JobId)
    requires Inv(db)
    ensures Inv(StartRun(db, r, j))
  {
    assert Stored(db);
    hide Inv;
    if r in db.runs && db.runs[r].status.RunQueued? {
      CloseSilently(db, r, RunRunning, Some(j));
    }
  }

  /* ------------------------------- creation ------------------------------- */

  lemma {:induction false} WithRunStreams(db: Db, r: RunId, maxSpawns: nat, maxDepth: nat)
    requires Stored(db) && PathsOk(db) && OrderOk(db) && StreamsOk(db) && OverOk(db) && r !in db.runs
    ensures var db1 := WithRun(db, r, maxSpawns, maxDepth);
      Stored(db1) && PathsOk(db1) && OrderOk(db1) && StreamsOk(db1) && OverOk(db1)
  {
    var db1 := WithRun(db, r, maxSpawns, maxDepth);
    forall q, k | q in db1.log ensures PathOf(db1, q, k) { if q != r { assert PathOf(db, q, k); } }
    forall q, k: nat, i, d | q in db1.log && k < |db1.log[q]| ensures OrderOf(db1, q, k, i, d) {
      assert OrderOf(db, q, k, i, d);
    }
    forall q | q in db1.runs ensures StreamOk(db1, q) { if q != r { assert StreamOk(db, q); } }
  }

  lemma {:induction false} WithRunForest(db: Db, r: RunId, maxSpawns: nat, maxDepth: nat)
    requires Stored(db) && ForestOk(db) && r !in db.runs
    ensures var db1 := WithRun(db, r, maxSpawns, maxDepth);
      && BudgetsOf(db1.runs) == BudgetsOf(db.runs)[r := Budget(0, maxSpawns, maxDepth)]
      && Forest(ShapeOf(db.jobs), BudgetsOf(db1.runs))
  {
    assert JobsOf(ShapeOf(db.jobs), r) == {};
  }

  lemma {:induction false} WithRunKeeps(db: Db, r: RunId, maxSpawns: nat, maxDepth: nat)
    requires Inv(db) && r !in db.runs
    ensures Inv(WithRun(db, r, maxSpawns, maxDepth))
    ensures BudgetsOf(WithRun(db, r, maxSpawns, maxDepth).runs)
      == BudgetsOf(db.runs)[r := Budget(0, maxSpawns, maxDepth)]
  {
    hide Forest, PathsOk, OrderOk, StreamsOk, OverOk;
    var db1 := WithRun(db, r, maxSpawns, maxDepth);
    WithRunForest(db, r, maxSpawns, maxDepth);
    WithRunStreams(db, r, maxSpawns, maxDepth);
    forall k | k in db1.jobs && db1.jobs[k].attempts > 0 ensures Ready(db1, k) { assert Ready(db, k); }
  }

  lemma {:induction false} RootFits(db: Db, r: RunId, root: JobId, maxSpawns: nat, maxDepth: nat, spec: Spec)
    requires Inv(db) && r !in db.runs && Fresh(db, [root], []) && maxSpawns > 0
    requires spec.run == r && spec.parent.None? && spec.maxAttempts > 0 && spec.deps == {}
    requires Inv(WithRun(db, r, maxSpawns, maxDepth))
    requires BudgetsOf(WithRun(db, r, maxSpawns, maxDepth).runs)
      == BudgetsOf(db.runs)[r := Budget(0, maxSpawns, maxDepth)]
    ensures var db1 := WithRun(db, r, maxSpawns, maxDepth);
      MayEnqueue(db1, root, spec) && MayGrow(ShapeOf(db1.jobs), BudgetsOf(db1.runs), root, LeafOf(db1, spec))
  {
    hide PathsOk, OrderOk, StreamsOk, OverOk, GatesOk, Forest;
    assert [root][0] == root;
    var t := ShapeOf(db.jobs);
    forall j | j in t ensures t[j].run != r && t[j].birth < db.births {
      assert db.jobs[j].spec.run in db.runs;
    }
  }

  lemma {:induction false} OpenRunKeeps(db: Db, r: RunId, root: JobId, maxSpawns: nat, maxDepth: nat, now: int)
    requires Inv(db) && r !in db.runs && Fresh(db, [root], []) && maxSpawns > 0
    ensures Inv(OpenRun(db, r, root, maxSpawns, maxDepth, now))
  {
    hide Inv, Fresh;
    var spec := Spec(r, None, 0, now, Captain, 10, 3, {});
    WithRunKeeps(db, r, maxSpawns, maxDepth);
    RootFits(db, r, root, maxSpawns, maxDepth, spec);
    EnqueueKeeps(WithRun(db, r, maxSpawns, maxDepth), root, spec);
  }

  /** Room for `n` more children of `parent`. */
  ghost predicate Room(db: Db, parent: JobId, n: nat) {
    && Inv(db) && parent in db.jobs
    && var run := db.runs[db.jobs[parent].spec.run];
    && !RunOver(run.status) && run.budget.totalSpawns + n <= run.budget.maxSpawns
    && Depth(ShapeOf(db.jobs), parent) < run.budget.maxDepth
  }

  lemma {:induction false} SpawnFits(db: Db, parent: JobId, id: JobId, spec: Spec, n: nat)
    requires Room(db, parent, n + 1) && id !in db.jobs && id !in spec.deps && spec.maxAttempts > 0
    requires forall k :: k in db.jobs ==> id !in db.jobs[k].spec.deps
    requires spec.run == db.jobs[parent].spec.run && spec.parent == Some(parent)
    ensures MayEnqueue(db, id, spec) && MayGrow(ShapeOf(db.jobs), BudgetsOf(db.runs), id, LeafOf(db, spec))
  {
    hide PathsOk, OrderOk, StreamsOk, OverOk, GatesOk;
  }

  /** The row a spawn inserts. */
  function ChildSpec(db: Db, parent: JobId, want: Want, now: int): Spec
    requires parent in db.jobs
  {
    Spec(db.jobs[parent].spec.run, Some(parent), 0, now, want.kind, want.priority, 3, want.deps)
  }

  lemma {:induction false} ChildFits(db: Db, parent: JobId, id: JobId, want: Want, now: int, n: nat)
    requires Room(db, parent, n + 1) && Fresh(db, [id], [want])
    ensures var spec := ChildSpec(db, parent, want, now);
      MayEnqueue(db, id, spec) && MayGrow(ShapeOf(db.jobs), BudgetsOf(db.runs), id, LeafOf(db, spec))
  {
    assert [id][0] == id && [want][0] == want;
    hide Inv, MayEnqueue, MayGrow;
    SpawnFits(db, parent, id, ChildSpec(db, parent, want, now), n);
  }

  /** Hanging a leaf moves nobody. */
  lemma {:induction false} SameDepth(t: Shape, budgets: map<RunId, Budget>, id: JobId, leaf: Link, j: JobId)
    requires MayGrow(t, budgets, id, leaf) && j in t
    ensures Tree(t) && Tree(t[id := leaf]) && Depth(t[id := leaf], j) == Depth(t, j)
  {
    ForestGrows(t, budgets, id, leaf);
    LeafKeepsPaths(t, id, leaf, j, j);
  }

  lemma {:induction false} RoomLeft(db: Db, parent: JobId, id: JobId, want: Want, now: int, n: nat)
    requires Room(db, parent, n + 1) && Stored(db)
    requires Inv(SpawnOne(db, parent, id, want, now)) && id !in db.jobs
    requires var t, t' := ShapeOf(db.jobs), ShapeOf(SpawnOne(db, parent, id, want, now).jobs);
      Tree(t) && parent in t && Tree(t') && parent in t' && Depth(t', parent) == Depth(t, parent)
    ensures Room(SpawnOne(db, parent, id, want, now), parent, n)
  {
    hide Inv, Depth;
  }

  lemma {:induction false} ChildKeeps(db: Db, parent: JobId, id: JobId, want: Want, now: int)
    requires Inv(db) && parent in db.jobs
    requires var spec := ChildSpec(db, parent, want, now);
      MayEnqueue(db, id, spec) && MayGrow(ShapeOf(db.jobs), BudgetsOf(db.runs), id, LeafOf(db, spec))
    ensures Stored(db) && Inv(SpawnOne(db, parent, id, want, now)) && id !in db.jobs
    ensures ShapeOf(SpawnOne(db, parent, id, want, now).jobs)
      == ShapeOf(db.jobs)[id := LeafOf(db, ChildSpec(db, parent, want, now))]
  {
    assert Stored(db) && id !in db.jobs;
    hide Inv, MayEnqueue, MayGrow, Fresh;
    EnqueueKeeps(db, id, ChildSpec(db, parent, want, now));
    QuietKeeps(Enqueue(db, id, ChildSpec(db, parent, want, now)), db.jobs[parent].spec.run,
               Event(Some(id), Agent(parent), SpawnedChild(id)));
  }

  lemma RoomFacts(db: Db, parent: JobId, n: nat)
    requires Room(db, parent, n)
    ensures Inv(db) && Stored(db) && parent in db.jobs && parent in ShapeOf(db.jobs)
  {}

  lemma {:induction false} SpawnOneKeeps(db: Db, parent: JobId, id: JobId, want: Want, now: int, n: nat)
    requires Room(db, parent, n + 1) && Fresh(db, [id], [want])
    ensures Room(SpawnOne(db, parent, id, want, now), parent, n)
  {
    hide *;
    RoomFacts(db, parent, n + 1);
    ChildFits(db, parent, id, want, now, n);
    ChildKeeps(db, parent, id, want, now);
    SameDepth(ShapeOf(db.jobs), BudgetsOf(db.runs), id, LeafOf(db, ChildSpec(db, parent, want, now)), parent);
    RoomLeft(db, parent, id, want, now, n);
  }

  lemma {:induction false} FreshTail(db: Db, parent: JobId, ids: seq<JobId>, wants: seq<Want>, now: int)
    requires Stored(db) && parent in db.jobs && Fresh(db, ids, wants) && |ids| == |wants| > 0
    ensures Fresh(db, [ids[0]], [wants[0]])
    ensures Fresh(SpawnOne(db, parent, ids[0], wants[0], now), ids[1..], wants[1..])
  {
    var db' := SpawnOne(db, parent, ids[0], wants[0], now);
    forall i | 0 <= i < |ids| - 1
      ensures ids[1..][i] !in db'.jobs && forall k :: k in db'.jobs ==> ids[1..][i] !in db'.jobs[k].spec.deps
    {
      assert ids[1..][i] == ids[i + 1] != ids[0];
      assert ids[i + 1] !in wants[0].deps;
    }
    forall i, k | 0 <= i < |ids| - 1 && 0 <= k < |wants| - 1 ensures ids[1..][i] !in wants[1..][k].deps {
      assert ids[i + 1] !in wants[k + 1].deps;
    }
  }

  lemma {:induction false} SpawnManyKeeps(db: Db, parent: JobId, ids: seq<JobId>, wants: seq<Want>, now: int)
    requires Room(db, parent, |ids|) && Fresh(db, ids, wants) && |ids| == |wants|
    ensures Inv(SpawnMany(db, parent, ids, wants, now))
    decreases |ids|
  {
    if ids != [] {
      FreshTail(db, parent, ids, wants, now);
      SpawnOneKeeps(db, parent, ids[0], wants[0], now, |ids| - 1);
      SpawnManyKeeps(SpawnOne(db, parent, ids[0], wants[0], now), parent, ids[1..], wants[1..], now);
    }
  }

  lemma {:induction false} ReceiptsAside(db: Db, parent: JobId, request: string, receipt: Receipt)
    requires Inv(db)
    ensures Inv(WithReceipt(db, parent, request, receipt))
  {
    hide RowsOk, GatesOk, Forest, PathsOk, OrderOk, StreamsOk;
    var db' := WithReceipt(db, parent, request, receipt);
    SameStreams(db, db');
    SameJobs(db, db');
  }

  lemma {:induction false} SameStreams(db: Db, db': Db)
    requires Stored(db) && PathsOk(db) && OrderOk(db) && StreamsOk(db)
    requires db'.jobs == db.jobs && db'.log == db.log && db'.runs == db.runs && db'.closing == db.closing
    ensures Stored(db') && PathsOk(db') && OrderOk(db') && StreamsOk(db')
  {
    forall r, k | r in db'.log ensures PathOf(db', r, k) { assert PathOf(db, r, k); }
    forall r, k: nat, i, d | r in db'.log && k < |db'.log[r]| ensures OrderOf(db', r, k, i, d) {
      assert OrderOf(db, r, k, i, d);
    }
    forall r | r in db'.runs ensures StreamOk(db', r) { assert StreamOk(db, r); }
  }

  /** What the budgets admit, the run has room for. */
  lemma {:induction false} AdmittedFits(db: Db, parent: JobId, n: nat)
    requires Inv(db) && parent in db.jobs
    requires 0 < n <= Admitted(db.runs[db.jobs[parent].spec.run], Depth(ShapeOf(db.jobs), parent) + 1, n)
    ensures Room(db, parent, n)
  {
    hide PathsOk, OrderOk, StreamsOk, OverOk, GatesOk, RowsOk;
    var r := db.jobs[parent].spec.run;
    assert BudgetsOf(db.runs)[r] == db.runs[r].budget;
  }

  lemma FreshPrefix(db: Db, ids: seq<JobId>, wants: seq<Want>, n: nat)
    requires Fresh(db, ids, wants) && n <= |ids| == |wants|
    ensures Fresh(db, ids[..n], wants[..n])
  {}

  lemma {:induction false} SpawnGrantedKeeps(db: Db, parent: JobId, ids: seq<JobId>, wants: seq<Want>, now: int)
    requires Inv(db) && parent in db.jobs && |ids| == |wants| && Fresh(db, ids, wants)
    ensures Inv(SpawnGranted(db, parent, ids, wants, now))
  {
    assert Stored(db) && Tree(ShapeOf(db.jobs));
    hide Inv, Fresh;
    var n := Granted(db, parent, wants);
    FreshPrefix(db, ids, wants, n);
    if n > 0 {
      AdmittedFits(db, parent, n);
      SpawnManyKeeps(db, parent, ids[..n], wants[..n], now);
    }
  }

  lemma {:induction false} SpawnKeeps(
      db: Db, parent: JobId, request: Option<string>, ids: seq<JobId>, wants: seq<Want>, now: int)
    requires Inv(db) && parent in db.jobs && |ids| == |wants| && Fresh(db, ids, wants)
    ensures Inv(Spawn(db, parent, request, ids, wants, now))
  {
    assert Stored(db) && Tree(ShapeOf(db.jobs));
    hide Inv;
    SpawnGrantedKeeps(db, parent, ids, wants, now);
    match request
    case None =>
    case Some(q) =>
      ReceiptsAside(SpawnGranted(db, parent, ids, wants, now), parent, q,
        Receipt(wants, Answer(db, parent, ids, wants)));
  }

  /* ---------------------------- every history ---------------------------- */

  lemma {:induction false} PostKeeps(db: Db, j: JobId, body: Body)
    requires Inv(db)
    ensures Inv(Post(db, j, body))
  {
    if j in db.jobs { QuietKeeps(db, db.jobs[j].spec.run, Event(Some(j), Agent(j), body)); }
  }

  lemma {:induction false} AnnounceKeeps(db: Db, r: RunId, job: Option<JobId>, text: string)
    requires Inv(db)
    ensures Inv(Announce(db, r, job, text))
  {
    assert Stored(db);
    hide Inv;
    if r in db.runs { QuietKeeps(db, r, Event(job, Orchestrator, Note(text))); }
  }

  lemma {:induction false} CancelSubtreeKeeps(db: Db, j: JobId, reason: string)
    requires Inv(db)
    ensures Inv(CancelSubtree(db, j, reason))
  {
    CancelAllKeeps(db, Ascending(LiveSubtree(db, j)), reason);
  }

  predicate JobStep(s: Step) {
    s.DoClaim? || s.DoMarkRunning? || s.DoHeartbeat? || s.DoComplete? || s.DoFail? || s.DoReap? || s.DoCancelSubtree?
  }

  lemma {:induction false} JobStepKeeps(db: Db, s: Step)
    requires Inv(db) && Enabled(db, s) && JobStep(s)
    ensures Inv(Next(db, s))
  {
    hide Inv;
    match s
    case DoClaim(j, vm, until) => ClaimKeeps(db, j, vm, until);
    case DoMarkRunning(j, vm) => MarkRunningKeeps(db, j, vm);
    case DoHeartbeat(j, vm, until) => HeartbeatKeeps(db, j, vm, until);
    case DoComplete(j, vm, summary) => CompleteKeeps(db, j, vm, summary);
    case DoFail(j, vm, error) => FailKeeps(db, j, vm, error);
    case DoReap(batch, now) => ReapAllKeeps(db, Ascending(batch));
    case DoCancelSubtree(j, reason) => CancelSubtreeKeeps(db, j, reason);
  }

  lemma {:induction false} NewRowsKeep(db: Db, s: Step)
    requires Inv(db) && Enabled(db, s) && (s.DoOpenRun? || s.DoSpawn?)
    ensures Inv(Next(db, s))
  {
    hide Inv, Fresh, OpenRun, Spawn, Tree, Stored;
    match s
    case DoOpenRun(r, root, maxSpawns, maxDepth, now) => OpenRunKeeps(db, r, root, maxSpawns, maxDepth, now);
    case DoSpawn(parent, request, ids, wants, now) => SpawnKeeps(db, parent, request, ids, wants, now);
  }

  lemma {:induction false} RunStepKeeps(db: Db, s: Step)
    requires Inv(db) && Enabled(db, s) && !JobStep(s) && !s.DoOpenRun? && !s.DoSpawn?
    ensures Inv(Next(db, s))
  {
    hide Inv, StartRun, FinishRun, CancelRun, Post, Announce, Tree, Stored;
    match s
    case DoStartRun(r, j) => StartRunKeeps(db, r, j);
    case DoFinishRun(j) => FinishRunKeeps(db, j);
    case DoCancelRun(r, reason) => CancelRunKeeps(db, r, reason);
    case DoPost(j, body) => PostKeeps(db, j, body);
    case DoAnnounce(r, job, text) => AnnounceKeeps(db, r, job, text);
  }

  lemma {:induction false} NextKeeps(db: Db, s: Step)
    requires Inv(db) && Enabled(db, s)
    ensures Inv(Next(db, s))
  {
    if JobStep(s) { JobStepKeeps(db, s); }
    else if s.DoOpenRun? || s.DoSpawn? { NewRowsKeep(db, s); }
    else { RunStepKeeps(db, s); }
  }
}
