/**
 * How runs end. A run is meant to end when its root captain does; here is exactly
 * when it does, with the two transactions that end a root and its run taken apart.
 */
module QueueEndings {
  import opened Common
  import opened Events
  import opened QueueModel
  import opened QueueInvariants
  import opened QueueProofs
  import opened QueueRuns
  import opened QueueTheorems
  import opened QueueLaws
  import opened QueueTrees

  predicate RootOver(db: Db, j: JobId) { j in db.jobs && db.jobs[j].spec.parent.None? && Terminal(db.jobs[j].status) }

  /* --------------------------- cancelling the root --------------------------- */

  /**
   * A cancellation by an agent ends a root exactly when the root cancels itself
   * through its own token. No cancellation changes the status of any run, so the run
   * of a root that did is left as open as it was, with nothing alive in it.
   */
  lemma {:induction false} RootMayCancelItself(db: Db, root: JobId, caller: JobId, target: JobId, reason: string)
    requires Stored(db) && ForestOk(db) && root in db.jobs && db.jobs[root].spec.parent.None?
    requires !Terminal(db.jobs[root].status) && caller in db.jobs
    ensures var db' := CancelChild(db, caller, target, reason); var r := db.jobs[root].spec.run;
      && root in db'.jobs && (Terminal(db'.jobs[root].status) <==> caller == root && target == root)
      && r in db'.runs && db'.runs[r].status == db.runs[r].status
      && (caller == root && target == root ==> NoLiveJob(db', r))
  {
    var t := ShapeOf(db.jobs);
    CancelChildStatus(db, caller, target, reason);
    if target in db.jobs {
      OwnershipExact(t, caller, target);
      EverythingIsBeneath(db, root);
      CancelSubtreeExact(db, target, reason);
      assert Within(t, target, root) <==> target == root;
      assert Within(t, caller, root) <==> caller == root;
      hide Within, Tree, ForestOk, Owned, CancelSubtree;
    }
  }

  lemma {:induction false} CancelChildStatus(db: Db, caller: JobId, target: JobId, reason: string)
    requires Stored(db) && Tree(ShapeOf(db.jobs)) && caller in db.jobs
    ensures forall r :: r in db.runs ==>
      r in CancelChild(db, caller, target, reason).runs
        && CancelChild(db, caller, target, reason).runs[r].status == db.runs[r].status
  {
    if target in db.jobs { CancelAllExact(db, Ascending(LiveSubtree(db, target)), reason); }
    hide CancelAll, LiveSubtree, Within, Owned;
  }

  /* ---------------------------- which steps end a run ---------------------------- */

  /** The steps that end run `r`, whose root captain is `root`. */
  predicate Ends(s: Step, r: RunId, root: JobId) { s == DoFinishRun(root) || (s.DoCancelRun? && s.run == r) }

  predicate EndsAt(steps: seq<Step>, i: nat, r: RunId, root: JobId) { i < |steps| && Ends(steps[i], r, root) }

  /** The run keeps its status, or merely starts. */
  predicate StaysOpen(db: Db, db': Db, r: RunId) {
    r in db.runs && r in db'.runs && (db'.runs[r].status == db.runs[r].status || db'.runs[r].status.RunRunning?)
  }

  lemma {:induction false} ReapStatus(db: Db, js: seq<JobId>)
    requires Stored(db) && forall j :: j in js ==> j in db.jobs
    ensures forall r :: r in db.runs ==>
      r in ReapAll(db, js).runs && ReapAll(db, js).runs[r].status == db.runs[r].status
    decreases |js|
  {
    if js != [] { ReapStatus(ReapOne(db, js[0]), js[1..]); }
  }

  lemma {:induction false} SpawnOneStatus(db: Db, parent: JobId, id: JobId, want: Want, now: int, r: RunId)
    requires Stored(db) && parent in db.jobs && r in db.runs
    ensures var db1 := SpawnOne(db, parent, id, want, now);
      Stored(db1) && parent in db1.jobs && r in db1.runs && db1.runs[r].status == db.runs[r].status
  {}

  lemma {:induction false} SpawnStatus(db: Db, parent: JobId, ids: seq<JobId>, wants: seq<Want>, now: int, r: RunId)
    requires Stored(db) && parent in db.jobs && |ids| == |wants| && r in db.runs
    ensures var db' := SpawnMany(db, parent, ids, wants, now); r in db'.runs && db'.runs[r].status == db.runs[r].status
    decreases |ids|
  {
    if ids != [] {
      SpawnOneStatus(db, parent, ids[0], wants[0], now, r);
      hide SpawnOne, Stored;
      SpawnStatus(SpawnOne(db, parent, ids[0], wants[0], now), parent, ids[1..], wants[1..], now, r);
    }
  }

  lemma {:induction false} FinishOther(db: Db, k: JobId, r: RunId)
    requires Stored(db) && Tree(ShapeOf(db.jobs)) && k in db.jobs && r in db.runs && db.jobs[k].spec.run != r
    ensures r in FinishRun(db, k).runs && FinishRun(db, k).runs[r].status == db.runs[r].status
  {
    CancelAllExact(db, Ascending(LiveSubtree(db, k) - {k}), ROOT_FINISHED);
    hide CancelAll, LiveSubtree, Within, Tree, Closing;
  }

  lemma {:induction false} FinishStatus(db: Db, j: JobId, r: RunId, root: JobId)
    requires Stored(db) && ForestOk(db) && RootOver(db, j) && RootOf(ShapeOf(db.jobs), r, root)
    requires r in db.runs && !RunOver(db.runs[r].status)
    ensures r in FinishRun(db, j).runs && (RunOver(FinishRun(db, j).runs[r].status) <==> j == root)
  {
    assert db.jobs[j].spec.run == r ==> RootOf(ShapeOf(db.jobs), r, j) && j == root;
    hide Forest, FinishRun, Tree;
    if db.jobs[j].spec.run == r { FinishCloses(db, j); } else { FinishOther(db, j, r); }
  }

  lemma {:induction false} CancelRunStatus(db: Db, q: RunId, reason: string, r: RunId)
    requires Stored(db) && r in db.runs && !RunOver(db.runs[r].status)
    ensures r in CancelRun(db, q, reason).runs && (RunOver(CancelRun(db, q, reason).runs[r].status) <==> q == r)
  {
    CancelAllExact(db, Ascending(LiveJobs(db, q)), reason);
    hide CancelAll, LiveJobs;
  }

  lemma {:induction false} SubtreeStatus(db: Db, j: JobId, reason: string, r: RunId)
    requires Stored(db) && Tree(ShapeOf(db.jobs)) && r in db.runs
    ensures r in CancelSubtree(db, j, reason).runs && CancelSubtree(db, j, reason).runs[r].status == db.runs[r].status
  {
    CancelAllExact(db, Ascending(LiveSubtree(db, j)), reason);
    hide CancelAll, LiveSubtree, Within;
  }

  lemma {:induction false} SpawnGrantedStatus(db: Db, s: Step, r: RunId)
    requires Stored(db) && Tree(ShapeOf(db.jobs)) && Enabled(db, s) && s.DoSpawn? && r in db.runs
    ensures StaysOpen(db, Next(db, s), r)
  {
    var n := Granted(db, s.parent, s.wants);
    hide Granted, Fresh, Tree;
    SpawnStatus(db, s.parent, s.ids[..n], s.wants[..n], s.now, r);
    hide SpawnMany;
  }

  /** Only two kinds of step move a run to an ended status. */
  lemma {:induction false} OtherStatus(db: Db, s: Step, r: RunId)
    requires Stored(db) && Tree(ShapeOf(db.jobs)) && Enabled(db, s) && r in db.runs
    requires !s.DoFinishRun? && !s.DoCancelRun? && !s.DoCancelSubtree? && !s.DoSpawn? && !s.DoReap?
    ensures StaysOpen(db, Next(db, s), r)
  {
    hide Tree, Fresh, Ready;
  }

  lemma {:induction false} ClosingEnds(db: Db, s: Step, r: RunId, root: JobId)
    requires Stored(db) && ForestOk(db) && Enabled(db, s) && (s.DoFinishRun? || s.DoCancelRun?)
    requires RootOf(ShapeOf(db.jobs), r, root) && r in db.runs && !RunOver(db.runs[r].status)
    ensures r in Next(db, s).runs && (RunOver(Next(db, s).runs[r].status) <==> Ends(s, r, root))
  {
    if s.DoFinishRun? {
      FinishStatus(db, s.j, r, root);
    } else {
      CancelRunStatus(db, s.run, s.reason, r);
    }
    hide ForestOk, Tree, FinishRun, CancelRun, RootOf;
  }

  lemma {:induction false} BatchStatus(db: Db, s: Step, r: RunId)
    requires Stored(db) && Tree(ShapeOf(db.jobs)) && Enabled(db, s) && r in db.runs
    requires s.DoCancelSubtree? || s.DoReap?
    ensures StaysOpen(db, Next(db, s), r)
  {
    if s.DoCancelSubtree? {
      SubtreeStatus(db, s.j, s.reason, r);
    } else {
      ReapStatus(db, Ascending(s.batch));
    }
    hide Tree, CancelSubtree, ReapAll;
  }

  lemma {:induction false} StepEnds(db: Db, s: Step, r: RunId, root: JobId)
    requires Stored(db) && ForestOk(db) && Enabled(db, s)
    requires RootOf(ShapeOf(db.jobs), r, root) && r in db.runs && !RunOver(db.runs[r].status)
    ensures r in Next(db, s).runs && (RunOver(Next(db, s).runs[r].status) <==> Ends(s, r, root))
  {
    assert Tree(ShapeOf(db.jobs));
    hide Next, Enabled, Forest, Tree, RootOf, Stored;
    if s.DoFinishRun? || s.DoCancelRun? { ClosingEnds(db, s, r, root); }
    else if s.DoCancelSubtree? || s.DoReap? { BatchStatus(db, s, r); }
    else if s.DoSpawn? { SpawnGrantedStatus(db, s, r); }
    else { OtherStatus(db, s, r); }
  }

  lemma {:induction false} RootStays(db: Db, db': Db, r: RunId, root: JobId)
    requires Grows(db, db') && RootOf(ShapeOf(db.jobs), r, root)
    ensures RootOf(ShapeOf(db'.jobs), r, root)
  {}

  lemma InvForest(db: Db)
    requires Inv(db)
    ensures Stored(db) && ForestOk(db) && Tree(ShapeOf(db.jobs))
  {}

  lemma {:induction false} OverStays(db: Db, db': Db, r: RunId)
    requires Grows(db, db') && r in db.runs && RunOver(db.runs[r].status)
    ensures r in db'.runs && RunOver(db'.runs[r].status)
  {}

  /**
   * When a run ends, exactly. In any history from a reachable state in which the run is
   * open, it is over at the end if and only if `finishRun` was called for its root or
   * the run was cancelled somewhere on the way; whatever else happened to its root.
   */
  lemma {:induction false} RunEndsExactly(db: Db, steps: seq<Step>, db': Db, r: RunId, root: JobId)
    requires Inv(db) && Leads(db, steps, db')
    requires RootOf(ShapeOf(db.jobs), r, root) && r in db.runs && !RunOver(db.runs[r].status)
    ensures r in db'.runs && (RunOver(db'.runs[r].status) <==> exists i: nat :: EndsAt(steps, i, r, root))
    decreases |steps|
  {
    if steps != [] {
      var db1 := Next(db, steps[0]);
      NextKeeps(db, steps[0]);
      InvForest(db);
      StepEnds(db, steps[0], r, root);
      NextGrows(db, steps[0]);
      assert Leads(db1, steps[1..], db');
      hide Inv, Leads, Next, Enabled, Grows, ForestOk, RootOf;
      RootStays(db, db1, r, root);
      if Ends(steps[0], r, root) {
        assert EndsAt(steps, 0, r, root);
        LeadsGrows(db1, steps[1..], db');
        OverStays(db1, db', r);
      } else {
        RunEndsExactly(db1, steps[1..], db', r, root);
        EndsLater(steps, r, root);
      }
    }
  }

  lemma EndsLater(steps: seq<Step>, r: RunId, root: JobId)
    requires steps != [] && !Ends(steps[0], r, root)
    ensures (exists i: nat :: EndsAt(steps[1..], i, r, root)) <==> exists i: nat :: EndsAt(steps, i, r, root)
  {
    if i: nat :| EndsAt(steps[1..], i, r, root) { assert EndsAt(steps, i + 1, r, root); }
    if i: nat :| EndsAt(steps, i, r, root) { assert EndsAt(steps[1..], i - 1, r, root); }
  }

  predicate CancelsAt(steps: seq<Step>, i: nat, r: RunId) { i < |steps| && steps[i].DoCancelRun? && steps[i].run == r }

  /** The first step of a history, and what is left of it. */
  lemma {:induction false} FirstStep(db: Db, steps: seq<Step>, db': Db)
    requires Inv(db) && Leads(db, steps, db') && steps != []
    ensures Stored(db) && Tree(ShapeOf(db.jobs)) && Enabled(db, steps[0])
    ensures Inv(Next(db, steps[0])) && Grows(db, Next(db, steps[0])) && Leads(Next(db, steps[0]), steps[1..], db')
  {
    NextKeeps(db, steps[0]);
    InvForest(db);
    hide Inv, Next, Enabled;
    NextGrows(db, steps[0]);
  }

  lemma {:induction false} CancelledIsNotFinished(db: Db, s: Step, root: JobId)
    requires Stored(db) && Tree(ShapeOf(db.jobs)) && Enabled(db, s) && root in db.jobs
      && db.jobs[root].status.Cancelled?
    ensures s != DoFinishRun(root)
  {}

  lemma {:induction false} StillCancelled(db: Db, db': Db, root: JobId)
    requires Grows(db, db') && root in db.jobs && db.jobs[root].status.Cancelled?
    ensures root in db'.jobs && db'.jobs[root].status.Cancelled?
  {}

  /** No step of a history finishes the run of a root that is cancelled. */
  lemma {:induction false} CancelledRootIsNotFinished(db: Db, steps: seq<Step>, db': Db, root: JobId, i: nat)
    requires Inv(db) && Leads(db, steps, db') && root in db.jobs && db.jobs[root].status.Cancelled? && i < |steps|
    ensures steps[i] != DoFinishRun(root)
    decreases |steps|
  {
    hide Leads, Inv, Enabled, Next, Grows, Tree, Stored;
    FirstStep(db, steps, db');
    if i > 0 {
      StillCancelled(db, Next(db, steps[0]), root);
      CancelledRootIsNotFinished(Next(db, steps[0]), steps[1..], db', root, i - 1);
    } else {
      CancelledIsNotFinished(db, steps[0], root);
    }
  }

  /** Once its root is cancelled, an open run ends if and only if it is cancelled as a run. */
  lemma {:induction false} CancelledRootNeedsCancelRun(db: Db, steps: seq<Step>, db': Db, r: RunId, root: JobId)
    requires Inv(db) && Leads(db, steps, db') && RootOf(ShapeOf(db.jobs), r, root) && db.jobs[root].status.Cancelled?
    requires r in db.runs && !RunOver(db.runs[r].status)
    ensures r in db'.runs && (RunOver(db'.runs[r].status) <==> exists i: nat :: CancelsAt(steps, i, r))
  {
    RunEndsExactly(db, steps, db', r, root);
    forall i: nat ensures EndsAt(steps, i, r, root) <==> CancelsAt(steps, i, r) {
      if i < |steps| { CancelledRootIsNotFinished(db, steps, db', root, i); }
    }
    hide Inv, Leads;
  }

  /* ------------------------- the end of a root, step by step ------------------------- */

  /** What an agent reports at the end: a result, or why it gave up. */
  datatype Outcome = Done(summary: string) | Gave(error: string)

  function Reported(db: Db, j: JobId, vm: VmId, outcome: Outcome): Db
    requires Stored(db)
  {
    match outcome
    case Done(summary) => Complete(db, j, vm, summary)
    case Gave(error) => Fail(db, j, vm, error)
  }

  lemma {:induction false} ReportedKeeps(db: Db, j: JobId, vm: VmId, outcome: Outcome)
    requires Stored(db) && Tree(ShapeOf(db.jobs))
    ensures Stored(Reported(db, j, vm, outcome)) && ShapeOf(Reported(db, j, vm, outcome).jobs) == ShapeOf(db.jobs)
  {}

  /** The second transaction: a review travels as an event of its own. */
  function Reviewed(db: Db, j: JobId, review: Option<string>): Db
    requires Stored(db)
  {
    if review.Some? then Post(db, j, Note(review.value)) else db
  }

  lemma {:induction false} ReviewedKeeps(db: Db, j: JobId, review: Option<string>)
    requires Stored(db)
    ensures var db' := Reviewed(db, j, review);
      && Stored(db') && db'.jobs == db.jobs && db'.closing == db.closing && BudgetsOf(db'.runs) == BudgetsOf(db.runs)
      && db'.runs.Keys == db.runs.Keys && forall r :: r in db.runs ==> db'.runs[r].status == db.runs[r].status
  {}

  /** How many transactions `/agent/complete` has: the report, the review, the end of the run. */
  const HANDLER_LENGTH: nat := 3

  /** `/agent/complete`, by a plane that lives through the first `reach` of its transactions. */
  ghost function WoundUp(db: Db, j: JobId, vm: VmId, outcome: Outcome, review: Option<string>, reach: nat): Db
    requires Stored(db) && Tree(ShapeOf(db.jobs))
  {
    ReportedKeeps(db, j, vm, outcome);
    var db1 := Reported(db, j, vm, outcome);
    ReviewedKeeps(db1, j, review);
    var db2 := Reviewed(db1, j, review);
    if reach == 0 then db
    else if !Holder(db, j, vm) || reach == 1 then db1
    else if reach == 2 || !RootOver(db2, j) then db2
    else FinishRun(db2, j)
  }

  lemma {:induction false} CancelOneFrame(db: Db, j: JobId, reason: string)
    requires Stored(db) && j in db.jobs
    ensures var db' := CancelOne(db, j, reason);
      && Stored(db') && db'.jobs.Keys == db.jobs.Keys && db'.runs.Keys == db.runs.Keys
      && ShapeOf(db'.jobs) == ShapeOf(db.jobs) && BudgetsOf(db'.runs) == BudgetsOf(db.runs)
  {}

  lemma {:induction false} CancelAllFrame(db: Db, js: seq<JobId>, reason: string)
    requires Stored(db) && forall j :: j in js ==> j in db.jobs
    ensures var db' := CancelAll(db, js, reason);
      && Stored(db') && db'.jobs.Keys == db.jobs.Keys && db'.runs.Keys == db.runs.Keys
      && ShapeOf(db'.jobs) == ShapeOf(db.jobs) && BudgetsOf(db'.runs) == BudgetsOf(db.runs)
    decreases |js|
  {
    if js != [] {
      CancelOneFrame(db, js[0], reason);
      hide CancelOne, Stored;
      CancelAllFrame(CancelOne(db, js[0], reason), js[1..], reason);
    }
  }

  lemma {:induction false} CloseShape(db: Db, r: RunId, s: RunStatus, job: Option<JobId>, turns: seq<string>)
    requires Stored(db) && r in db.runs
    ensures var db' := Close(db, r, s, job, turns);
      && Stored(db') && db'.jobs == db.jobs && db'.runs.Keys == db.runs.Keys
        && BudgetsOf(db'.runs) == BudgetsOf(db.runs)
      && db'.runs[r].status == s && forall q :: q in db.runs && q != r ==> db'.runs[q] == db.runs[q]
  {}

  /** `finishRun` is a cancellation of everything beneath the root followed by the closing of the run. */
  lemma {:induction false} FinishIs(db: Db, j: JobId)
    requires Stored(db) && Tree(ShapeOf(db.jobs)) && j in db.jobs && !RunOver(db.runs[db.jobs[j].spec.run].status)
    ensures var db1 := CancelAll(db, Ascending(LiveSubtree(db, j) - {j}), ROOT_FINISHED);
      FinishRun(db, j) == Close(db1, db.jobs[j].spec.run,
        if db.jobs[j].status.Succeeded? then RunStatus.Completed else RunFailed, Some(j), [Closing(db.jobs[j])])
  {
    hide CancelAll, LiveSubtree, Within, Ascending, Tree;
  }

  lemma {:induction false} FinishKeeps(db: Db, j: JobId)
    requires Stored(db) && Tree(ShapeOf(db.jobs)) && j in db.jobs
    ensures var db' := FinishRun(db, j);
      && Stored(db') && db'.jobs.Keys == db.jobs.Keys && db'.runs.Keys == db.runs.Keys
      && ShapeOf(db'.jobs) == ShapeOf(db.jobs) && BudgetsOf(db'.runs) == BudgetsOf(db.runs)
  {
    var r, js := db.jobs[j].spec.run, Ascending(LiveSubtree(db, j) - {j});
    if !RunOver(db.runs[r].status) {
      CancelAllFrame(db, js, ROOT_FINISHED);
      FinishIs(db, j);
      hide FinishRun, CancelAll, LiveSubtree, Within, Ascending, Tree, Close, Stored;
      CloseShape(CancelAll(db, js, ROOT_FINISHED), r,
        if db.jobs[j].status.Succeeded? then RunStatus.Completed else RunFailed, Some(j), [Closing(db.jobs[j])]);
    }
  }

  /** The captain's summary, or what it failed with. */
  function LastWords(job: Job, outcome: Outcome): string {
    match outcome
    case Done(summary) => summary
    case Gave(error) => if job.result.Some? then job.result.value else error
  }

  lemma {:induction false} ReportedRow(db: Db, j: JobId, vm: VmId, outcome: Outcome)
    requires Stored(db) && Holder(db, j, vm)
    requires outcome.Done? || db.jobs[j].attempts >= db.jobs[j].spec.maxAttempts
    ensures var db1 := Reported(db, j, vm, outcome); var r := db.jobs[j].spec.run;
      && j in db1.jobs && db1.jobs[j].spec == db.jobs[j].spec && Terminal(db1.jobs[j].status)
      && (db1.jobs[j].status.Succeeded? <==> outcome.Done?) && Closing(db1.jobs[j]) == LastWords(db.jobs[j], outcome)
      && r in db1.runs && db1.runs[r].status == db.runs[r].status
      && BudgetsOf(db1.runs) == BudgetsOf(db.runs) && db1.closing == db.closing
  {}

  lemma {:induction false} FinishCloses(db: Db, j: JobId)
    requires Stored(db) && ForestOk(db) && RootOver(db, j) && !RunOver(db.runs[db.jobs[j].spec.run].status)
    ensures var db' := FinishRun(db, j); var r := db.jobs[j].spec.run;
      && r in db'.runs && r in db'.closing && NoLiveJob(db', r)
      && db'.runs[r].status == (if db.jobs[j].status.Succeeded? then RunStatus.Completed else RunFailed)
      && db'.closing[r] == db.closing[r] + [Closing(db.jobs[j])]
  {
    SubtreeCancelled(db, j);
    CancelAllExact(db, Ascending(LiveSubtree(db, j) - {j}), ROOT_FINISHED);
    hide CancelAll, LiveSubtree, Within, ForestOk, Closing;
  }

  lemma {:induction false} FinishLeavesOver(db: Db, j: JobId)
    requires Stored(db) && Tree(ShapeOf(db.jobs)) && j in db.jobs
    ensures var db' := FinishRun(db, j);
      && (forall k :: k in db.jobs && Terminal(db.jobs[k].status) ==> k in db'.jobs && db'.jobs[k] == db.jobs[k])
      && (forall r :: r in db.runs && RunOver(db.runs[r].status) ==> r in db'.runs && RunOver(db'.runs[r].status))
  {
    FinishRunGrows(db, j);
  }

  lemma {:induction false} FinishFrame(db: Db, j: JobId)
    requires Stored(db) && ForestOk(db) && j in db.jobs
    ensures var db' := FinishRun(db, j);
      && Stored(db') && ForestOk(db') && db'.jobs.Keys == db.jobs.Keys && db'.runs.Keys == db.runs.Keys
      && (forall k :: k in db.jobs && Terminal(db.jobs[k].status) ==> db'.jobs[k] == db.jobs[k])
      && (forall r :: r in db.runs && RunOver(db.runs[r].status) ==> RunOver(db'.runs[r].status))
  {
    FinishKeeps(db, j);
    FinishLeavesOver(db, j);
    hide FinishRun, Stored, Forest;
  }

  /** The report alone ends the root and leaves its run open. */
  lemma {:induction false} ReportLeavesRunOpen(db: Db, j: JobId, vm: VmId, outcome: Outcome)
    requires Stored(db) && Holder(db, j, vm) && db.jobs[j].spec.parent.None?
    requires outcome.Done? || db.jobs[j].attempts >= db.jobs[j].spec.maxAttempts
    ensures var db1 := Reported(db, j, vm, outcome); var r := db.jobs[j].spec.run;
      RootOver(db1, j) && r in db1.runs && db1.runs[r].status == db.runs[r].status
  {
    ReportedRow(db, j, vm, outcome);
  }

  /**
   * When its root reports its result or its last failure, an open run ends if and only
   * if the plane lives through all of the handler. Then it is completed or failed
   * accordingly, nothing in it lives on, and the thread is answered with the captain's
   * own closing words.
   */
  lemma {:induction false} EndsWithItsRoot(
      db: Db, j: JobId, vm: VmId, outcome: Outcome, review: Option<string>, reach: nat)
    requires Stored(db) && ForestOk(db) && Holder(db, j, vm) && db.jobs[j].spec.parent.None?
    requires outcome.Done? || db.jobs[j].attempts >= db.jobs[j].spec.maxAttempts
    requires !RunOver(db.runs[db.jobs[j].spec.run].status)
    ensures var db' := WoundUp(db, j, vm, outcome, review, reach); var r := db.jobs[j].spec.run;
      && r in db'.runs && (RunOver(db'.runs[r].status) <==> reach >= HANDLER_LENGTH)
      && (reach >= HANDLER_LENGTH ==>
            && r in db'.closing && NoLiveJob(db', r)
            && db'.runs[r].status == (if outcome.Done? then RunStatus.Completed else RunFailed)
            && db'.closing[r] == db.closing[r] + [LastWords(db.jobs[j], outcome)])
  {
    hide *;
    BothAreOver();
    InForest(db);
    HasRun(db, j, vm);
    LastStage(db, j, vm, outcome, review);
    StagesOf(db, j, vm, outcome, review, reach);
    FinishCloses(Reviewed(Reported(db, j, vm, outcome), j, review), j);
  }

  /**
   * What the handler leaves behind before it comes to the run: the report and, once it
   * gets that far, the review as an event of the agent's own, behind everything else in
   * the stream; and from anybody but the holder, nothing at all.
   */
  lemma {:induction false} ReviewTravels(
      db: Db, j: JobId, vm: VmId, outcome: Outcome, review: Option<string>, reach: nat)
    requires Stored(db) && Tree(ShapeOf(db.jobs)) && j in db.jobs && 1 <= reach && reach < HANDLER_LENGTH
    ensures Stored(Reported(db, j, vm, outcome)) && db.jobs[j].spec.run in Reported(db, j, vm, outcome).log
    ensures var db' := WoundUp(db, j, vm, outcome, review, reach); var db1 := Reported(db, j, vm, outcome);
      var r := db.jobs[j].spec.run;
      && db'.jobs == db1.jobs && db'.closing == db1.closing
      && (if Holder(db, j, vm) && reach >= 2 && review.Some?
          then db'.log == db1.log[r := db1.log[r] + [Event(Some(j), Agent(j), Note(review.value))]]
          else db' == db1)
      && (!Holder(db, j, vm) ==> db' == db)
  {
    ReportedKeeps(db, j, vm, outcome);
    var db1 := Reported(db, j, vm, outcome);
    assert j in db1.jobs && db1.jobs[j].spec == db.jobs[j].spec;
    assert !Holder(db, j, vm) ==> db1 == db;
    hide Reported, Holder, Tree, FinishRun;
    ReviewedKeeps(db1, j, review);
  }

  lemma {:induction false} ReportedStatus(db: Db, j: JobId, vm: VmId, outcome: Outcome)
    requires Stored(db)
    ensures var db1 := Reported(db, j, vm, outcome);
      && (forall r :: r in db.runs ==> r in db1.runs && db1.runs[r].status == db.runs[r].status)
      && (j in db.jobs && outcome.Gave? && db.jobs[j].attempts < db.jobs[j].spec.maxAttempts && Holder(db, j, vm) ==>
            j in db1.jobs && db1.jobs[j].status.Queued?)
      && (j in db.jobs ==> j in db1.jobs && db1.jobs[j].spec == db.jobs[j].spec)
  {}

  /**
   * Nobody else's report ends a run: not that of a job below the root, nor a failure that
   * leaves the root attempts to try again, nor one from a machine that does not hold the job.
   */
  lemma {:induction false} OnlyRootsEndRuns(
      db: Db, j: JobId, vm: VmId, outcome: Outcome, review: Option<string>, reach: nat, r: RunId)
    requires Stored(db) && Tree(ShapeOf(db.jobs)) && j in db.jobs && r in db.runs
    requires || db.jobs[j].spec.parent.Some? || !Holder(db, j, vm)
      || (outcome.Gave? && db.jobs[j].attempts < db.jobs[j].spec.maxAttempts)
    ensures var db' := WoundUp(db, j, vm, outcome, review, reach);
      r in db'.runs && db'.runs[r].status == db.runs[r].status
  {
    hide *;
    ReportedKeeps(db, j, vm, outcome);
    ReportedStatus(db, j, vm, outcome);
    ReviewedKeeps(Reported(db, j, vm, outcome), j, review);
    if Holder(db, j, vm) {
      NotYetOver(Reviewed(Reported(db, j, vm, outcome), j, review), j);
      StagesOf(db, j, vm, outcome, review, reach);
    } else {
      OutsiderStage(db, j, vm, outcome, review, reach);
    }
  }

  lemma NotYetOver(db: Db, j: JobId)
    requires j in db.jobs && (db.jobs[j].spec.parent.Some? || db.jobs[j].status.Queued?)
    ensures !RootOver(db, j)
  {}

  lemma OutsiderStage(db: Db, j: JobId, vm: VmId, outcome: Outcome, review: Option<string>, reach: nat)
    requires Stored(db) && Tree(ShapeOf(db.jobs)) && !Holder(db, j, vm)
    ensures WoundUp(db, j, vm, outcome, review, reach) == db
      || WoundUp(db, j, vm, outcome, review, reach) == Reported(db, j, vm, outcome)
  {
    ReportedKeeps(db, j, vm, outcome);
    hide Reported, Reviewed, Tree, FinishRun, Holder;
  }

  lemma HasRun(db: Db, j: JobId, vm: VmId)
    requires Stored(db) && Holder(db, j, vm)
    ensures j in db.jobs && db.jobs[j].spec.run in db.runs
  {}

  lemma BothAreOver()
    ensures RunOver(RunStatus.Completed) && RunOver(RunFailed) && HANDLER_LENGTH == 3
  {}

  lemma InForest(db: Db)
    requires ForestOk(db)
    ensures Tree(ShapeOf(db.jobs))
  {}

  lemma {:induction false} StagesOf(db: Db, j: JobId, vm: VmId, outcome: Outcome, review: Option<string>, reach: nat)
    requires Stored(db) && Tree(ShapeOf(db.jobs)) && Holder(db, j, vm)
    ensures Stored(Reported(db, j, vm, outcome))
    ensures var db1 := Reported(db, j, vm, outcome); var db2 := Reviewed(db1, j, review);
      && Stored(db2) && Tree(ShapeOf(db2.jobs))
      && WoundUp(db, j, vm, outcome, review, reach) ==
           if reach == 0 then db else if reach == 1 then db1
             else if reach == 2 || !RootOver(db2, j) then db2 else FinishRun(db2, j)
  {
    ReportedKeeps(db, j, vm, outcome);
    hide Reported, Reviewed, Tree, FinishRun, Holder;
    ReviewedKeeps(Reported(db, j, vm, outcome), j, review);
  }

  /** Before its last transaction the handler has ended the root and nothing else. */
  lemma {:induction false} LastStage(db: Db, j: JobId, vm: VmId, outcome: Outcome, review: Option<string>)
    requires Stored(db) && ForestOk(db) && Holder(db, j, vm) && db.jobs[j].spec.parent.None?
    requires outcome.Done? || db.jobs[j].attempts >= db.jobs[j].spec.maxAttempts
    ensures var db1 := Reported(db, j, vm, outcome); var r := db.jobs[j].spec.run;
      && Stored(db1) && r in db1.runs && db1.runs[r].status == db.runs[r].status
      && var db2 := Reviewed(db1, j, review);
      && Stored(db2) && ForestOk(db2) && RootOver(db2, j) && db2.jobs[j].spec == db.jobs[j].spec
      && (db2.jobs[j].status.Succeeded? <==> outcome.Done?) && Closing(db2.jobs[j]) == LastWords(db.jobs[j], outcome)
      && r in db2.runs && db2.runs[r].status == db.runs[r].status && r in db2.closing && db2.closing == db.closing
  {
    ReportedKeeps(db, j, vm, outcome);
    ReportedRow(db, j, vm, outcome);
    hide Reported, Reviewed, Forest, Tree, LastWords, Closing, Holder;
    ReviewedKeeps(Reported(db, j, vm, outcome), j, review);
  }

  /**
   * Nobody makes up for a plane that died in between. Once a root is over, in every
   * later state no report about it is accepted and no reaper finds it, so neither
   * caller of `finishRun` will call it again.
   */
  lemma {:induction false} FinishIsNotRetried(db: Db, steps: seq<Step>, db': Db, root: JobId, vm: VmId, now: int)
    requires Inv(db) && RootOver(db, root) && Leads(db, steps, db')
    ensures RootOver(db', root) && !Holder(db', root, vm) && !Expired(db', root, now)
  {
    LeadsGrows(db, steps, db');
    hide Inv, Leads;
  }

  /* ----------------------------- the reaper's hook ----------------------------- */

  /**
   * `onReap` over the jobs of a batch, as the reaper returned their rows, where
   * `finishRun` gets through for the jobs in `ran` only.
   */
  ghost function Reaped(db: Db, rows: map<JobId, Job>, js: seq<JobId>, ran: set<JobId>): Db
    requires Stored(db) && Tree(ShapeOf(db.jobs)) && forall j :: j in js ==> j in db.jobs && j in rows
    decreases |js|
  {
    if js == [] then db
    else
      FinishKeeps(db, js[0]);
      Reaped(Hooked(db, js[0], rows[js[0]], ran), rows, js[1..], ran)
  }

  /** The hook for one job of the batch. */
  ghost function Hooked(db: Db, j: JobId, row: Job, ran: set<JobId>): Db
    requires Stored(db) && Tree(ShapeOf(db.jobs)) && j in db.jobs
  {
    if row.spec.parent.None? && Terminal(row.status) && j in ran then FinishRun(db, j) else db
  }

  /** The rows were read from this database or an earlier one. */
  predicate Earlier(rows: map<JobId, Job>, db: Db) {
    forall j :: j in rows ==>
      j in db.jobs && db.jobs[j].spec == rows[j].spec && (Terminal(rows[j].status) ==> db.jobs[j] == rows[j])
  }

  lemma EarlierRows(rows: map<JobId, Job>, db: Db, db': Db)
    requires Grows(db, db') && Earlier(rows, db)
    ensures Earlier(rows, db')
  {}

  lemma {:induction false} HookedFrame(db: Db, k: JobId, row: Job, ran: set<JobId>, j: JobId, rows: map<JobId, Job>)
    requires Stored(db) && ForestOk(db) && k in db.jobs && RootOver(db, j) && Earlier(rows, db)
    ensures var db' := Hooked(db, k, row, ran);
      && Stored(db') && ForestOk(db') && db'.jobs.Keys == db.jobs.Keys && Earlier(rows, db')
      && RootOver(db', j) && db'.jobs[j] == db.jobs[j]
  {
    FinishFrame(db, k);
    FinishRunGrows(db, k);
    hide *;
    HookedIs(db, k, row, ran);
    if Hooked(db, k, row, ran) == FinishRun(db, k) { EarlierRows(rows, db, FinishRun(db, k)); }
    StillOver(db, Hooked(db, k, row, ran), j);
  }

  lemma HookedIs(db: Db, j: JobId, row: Job, ran: set<JobId>)
    requires Stored(db) && Tree(ShapeOf(db.jobs)) && j in db.jobs
    ensures Hooked(db, j, row, ran) == FinishRun(db, j) || Hooked(db, j, row, ran) == db
  {}

  lemma StillOver(db: Db, db': Db, j: JobId)
    requires RootOver(db, j) && db'.jobs.Keys == db.jobs.Keys
    requires forall k :: k in db.jobs && Terminal(db.jobs[k].status) ==> db'.jobs[k] == db.jobs[k]
    ensures RootOver(db', j) && db'.jobs[j] == db.jobs[j]
  {}

  lemma {:induction false} HookedStatus(db: Db, k: JobId, row: Job, ran: set<JobId>, j: JobId)
    requires Stored(db) && ForestOk(db) && RootOver(db, j) && Earlier(map[k := row], db)
    ensures k in db.jobs
    ensures var db' := Hooked(db, k, row, ran); var r := db.jobs[j].spec.run;
      r in db'.runs && (RunOver(db'.runs[r].status) <==>
        RunOver(db.runs[r].status) || (k == j && j in ran && Terminal(row.status)))
  {
    var r := db.jobs[j].spec.run;
    assert k in map[k := row];
    if !RunOver(db.runs[r].status) && row.spec.parent.None? && Terminal(row.status) {
      assert RootOf(ShapeOf(db.jobs), r, j) && RootOver(db, k);
      hide Forest, FinishRun, Tree;
      FinishStatus(db, k, r, j);
    } else {
      FinishFrame(db, k);
      hide FinishRun, Forest;
    }
  }

  lemma {:induction false} HookEndsRuns(db: Db, rows: map<JobId, Job>, js: seq<JobId>, ran: set<JobId>, j: JobId)
    requires Stored(db) && ForestOk(db) && Earlier(rows, db) && (forall k :: k in js ==> k in rows) && RootOver(db, j)
    ensures var db' := Reaped(db, rows, js, ran); var r := db.jobs[j].spec.run;
      r in db'.runs && (RunOver(db'.runs[r].status) <==>
        RunOver(db.runs[r].status) || (j in js && j in ran && Terminal(rows[j].status)))
    decreases |js|
  {
    if js != [] {
      assert Earlier(map[js[0] := rows[js[0]]], db);
      HookedFrame(db, js[0], rows[js[0]], ran, j, rows);
      HookedStatus(db, js[0], rows[js[0]], ran, j);
      hide Hooked, ForestOk, Stored, RootOver, Tree, Earlier;
      HookEndsRuns(Hooked(db, js[0], rows[js[0]], ran), rows, js[1..], ran, j);
      assert j in js <==> j == js[0] || j in js[1..];
    }
  }

  /**
   * The reaper's hook runs some time after the batch was committed, on the rows the
   * batch returned. The open run of a root that is over by then ends if and only if
   * the batch had dead-lettered that root and the hook got through to `finishRun` for it.
   * A root that was requeued by the batch and ended meanwhile is left to whoever ended it.
   */
  lemma {:induction false} DeadRootsEndTheirRuns(
      batch: Db, between: seq<Step>, db: Db, js: seq<JobId>, ran: set<JobId>, j: JobId)
    requires Inv(batch) && Leads(batch, between, db) && (forall k :: k in js ==> k in batch.jobs) && RootOver(db, j)
    ensures Stored(db) && Tree(ShapeOf(db.jobs)) && forall k :: k in js ==> k in db.jobs
    ensures var db' := Reaped(db, batch.jobs, js, ran); var r := db.jobs[j].spec.run;
      r in db'.runs && (RunOver(db'.runs[r].status) <==>
        RunOver(db.runs[r].status) || (j in js && j in ran && Terminal(batch.jobs[j].status)))
  {
    LeadsKeeps(batch, between, db);
    LeadsGrows(batch, between, db);
    InvForest(db);
    EarlierRows(batch.jobs, batch, db);
    hide Inv, Leads, Grows, Reaped, ForestOk, Stored, Tree;
    HookEndsRuns(db, batch.jobs, js, ran, j);
  }

  /* ------------------------- the two halves of finishRun ------------------------- */

  /**
   * `finishRun` statement by statement. Its first statement selects and locks the live
   * descendants it sees in `db`; nobody sees the change before the commit. Other
   * transactions may commit until it takes the run row's lock, which it does to append
   * the first event; by then the database is `db'`.
   */
  ghost function FinishLate(db: Db, db': Db, j: JobId): Db
    requires Stored(db) && Tree(ShapeOf(db.jobs)) && j in db.jobs
    requires Stored(db') && db.jobs.Keys <= db'.jobs.Keys && db.jobs[j].spec.run in db'.runs
  {
    var r := db.jobs[j].spec.run;
    var db1 := CancelAll(db', Ascending(LiveSubtree(db, j) - {j}), ROOT_FINISHED);
    if RunOver(db'.runs[r].status) then db1
    else Close(db1, r, if db.jobs[j].status.Succeeded? then RunStatus.Completed else RunFailed,
      Some(j), [Closing(db.jobs[j])])
  }

  /** When nothing commits in between, the two halves are the whole. */
  lemma {:induction false} FinishInOneGo(db: Db, j: JobId)
    requires Stored(db) && Tree(ShapeOf(db.jobs)) && j in db.jobs && !RunOver(db.runs[db.jobs[j].spec.run].status)
    ensures FinishLate(db, db, j) == FinishRun(db, j)
  {
    FinishIs(db, j);
    hide CancelAll, LiveSubtree, Within, Ascending, Tree, FinishRun, Close;
  }

  lemma {:induction false} FinishLateRows(db: Db, db': Db, j: JobId)
    requires Stored(db) && Tree(ShapeOf(db.jobs)) && j in db.jobs
    requires Stored(db') && db.jobs.Keys <= db'.jobs.Keys && db.jobs[j].spec.run in db'.runs
    ensures var late := FinishLate(db, db', j); var swept := LiveSubtree(db, j) - {j};
      && late.jobs.Keys == db'.jobs.Keys && db.jobs[j].spec.run in late.runs
        && RunOver(late.runs[db.jobs[j].spec.run].status)
      && forall k :: k in db'.jobs ==>
           late.jobs[k] == if k in swept then CancelledRow(db'.jobs[k], ROOT_FINISHED) else db'.jobs[k]
  {
    var r, js := db.jobs[j].spec.run, Ascending(LiveSubtree(db, j) - {j});
    LateIs(db, db', j);
    assert RunOver(RunStatus.Completed) && RunOver(RunFailed) && r in db'.runs
      && forall k :: k in js <==> k in LiveSubtree(db, j) - {j};
    assert Stored(CancelAll(db', js, ROOT_FINISHED)) && r in CancelAll(db', js, ROOT_FINISHED).runs;
    CancelAllExact(db', js, ROOT_FINISHED);
    hide *;
    CloseShape(CancelAll(db', js, ROOT_FINISHED), r,
      if db.jobs[j].status.Succeeded? then RunStatus.Completed else RunFailed, Some(j), [Closing(db.jobs[j])]);
  }

  lemma LateIs(db: Db, db': Db, j: JobId)
    requires Stored(db) && Tree(ShapeOf(db.jobs)) && j in db.jobs
    requires Stored(db') && db.jobs.Keys <= db'.jobs.Keys && db.jobs[j].spec.run in db'.runs
    ensures var db1 := CancelAll(db', Ascending(LiveSubtree(db, j) - {j}), ROOT_FINISHED); var r := db.jobs[j].spec.run;
      FinishLate(db, db', j) == if RunOver(db'.runs[r].status) then db1
        else Close(db1, r, if db.jobs[j].status.Succeeded? then RunStatus.Completed else RunFailed,
          Some(j), [Closing(db.jobs[j])])
  {}

  /** Every job of the run that `db` did not know is over. */
  predicate NewJobsOver(db: Db, db': Db, r: RunId) {
    forall k :: k in db'.jobs && db'.jobs[k].spec.run == r && k !in db.jobs ==> Terminal(db'.jobs[k].status)
  }

  lemma {:induction false} SweptOrOver(db: Db, db': Db, j: JobId, k: JobId)
    requires Stored(db) && ForestOk(db) && RootOver(db, j) && Grows(db, db') && k in db.jobs
    requires db'.jobs[k].spec.run == db.jobs[j].spec.run && !Terminal(db'.jobs[k].status)
    ensures k in LiveSubtree(db, j) - {j}
  {
    NothingElseLives(db, j, k);
  }

  /**
   * How far the promise depends on `finishRun` being one step. Whatever other
   * transactions commit between its sweep and its lock on the run row, the run is over
   * afterwards, and nothing in it is alive exactly when every job they created in it is
   * over already.
   */
  lemma {:induction false} SpawnDuringFinish(db: Db, j: JobId, between: seq<Step>, db': Db)
    requires Inv(db) && RootOver(db, j) && Leads(db, between, db')
    ensures Stored(db) && Tree(ShapeOf(db.jobs)) && Stored(db') && db.jobs.Keys <= db'.jobs.Keys
      && db.jobs[j].spec.run in db'.runs
    ensures var late := FinishLate(db, db', j); var r := db.jobs[j].spec.run;
      r in late.runs && RunOver(late.runs[r].status) && (NoLiveJob(late, r) <==> NewJobsOver(db, db', r))
  {
    InvForest(db);
    LeadsKeeps(db, between, db');
    InvForest(db');
    LeadsGrows(db, between, db');
    assert db.jobs[j].spec.run in db.runs;
    hide Inv, Leads, ForestOk, FinishLate, Tree;
    FinishLateRows(db, db', j);
    NewOnes(db, db', FinishLate(db, db', j), j);
  }

  lemma {:induction false} NewOnes(db: Db, db': Db, late: Db, j: JobId)
    requires Stored(db) && ForestOk(db) && RootOver(db, j) && Grows(db, db') && late.jobs.Keys == db'.jobs.Keys
    requires forall k :: k in db'.jobs ==>
      late.jobs[k] == if k in LiveSubtree(db, j) - {j} then CancelledRow(db'.jobs[k], ROOT_FINISHED) else db'.jobs[k]
    ensures NoLiveJob(late, db.jobs[j].spec.run) <==> NewJobsOver(db, db', db.jobs[j].spec.run)
  {
    var r := db.jobs[j].spec.run;
    forall k | k in db.jobs && db'.jobs[k].spec.run == r && !Terminal(db'.jobs[k].status)
      ensures Terminal(late.jobs[k].status) {
      SweptOrOver(db, db', j, k);
    }
    assert forall k :: k in LiveSubtree(db, j) ==> k in db.jobs;
    hide LiveSubtree, ForestOk;
  }

  /** One granted spawn in between is enough: its child lives on in a run that is over. */
  lemma {:induction false} ChildOutlivesRun(db: Db, j: JobId, parent: JobId, id: JobId, want: Want, now: int)
    requires Inv(db) && RootOver(db, j) && parent in db.jobs && db.jobs[parent].spec.run == db.jobs[j].spec.run
    requires Stored(db) && Tree(ShapeOf(db.jobs)) && Enabled(db, DoSpawn(parent, None, [id], [want], now))
    requires Granted(db, parent, [want]) == 1
    ensures var db' := Next(db, DoSpawn(parent, None, [id], [want], now)); var r := db.jobs[j].spec.run;
      && Stored(db') && db.jobs.Keys <= db'.jobs.Keys && r in db'.runs
      && var late := FinishLate(db, db', j);
      r in late.runs && RunOver(late.runs[r].status) && HomeOf(late, r, id) && late.jobs[id].status.Queued?
  {
    var s := DoSpawn(parent, None, [id], [want], now);
    var db' := Next(db, s);
    assert [id][..1] == [id] && [want][..1] == [want] && [id][0] == id;
    SpawnManyExact(db, parent, [id], [want], now);
    assert db' == SpawnMany(db, parent, [id], [want], now) && ChildOf(db', parent, [id][0], [want][0]);
    assert id !in db.jobs;
    hide Inv, SpawnMany, Enabled, Granted, Tree;
    FinishLateRows(db, db', j);
    hide FinishLate, LiveSubtree, Within;
    assert id !in LiveSubtree(db, j) by { InTable(db, j); }
  }

  lemma InTable(db: Db, j: JobId)
    requires Tree(ShapeOf(db.jobs))
    ensures forall k :: k in LiveSubtree(db, j) ==> k in db.jobs
  {}

  lemma {:induction false} LeadsCons(db: Db, s: Step, steps: seq<Step>, db': Db)
    requires Stored(db) && Tree(ShapeOf(db.jobs)) && Enabled(db, s) && Leads(Next(db, s), steps, db')
    ensures Leads(db, [s] + steps, db')
  {
    assert ([s] + steps)[1..] == steps;
  }

  /** A root captain that has just succeeded, alone in run 0 and with one spawn left. */
  predicate LoneRoot(db: Db, status: JobStatus) {
    && db.jobs.Keys == {1} && db.jobs[1].spec == Spec(0, None, 0, 0, Captain, 10, 3, {}) && db.jobs[1].status == status
    && (status.Claimed? ==> db.jobs[1].vm == Some(7))
    && 0 in db.runs && db.runs[0].status == RunQueued && db.runs[0].budget == Budget(1, 2, 1)
  }

  lemma {:induction false} OpensAlone()
    ensures Stored(EMPTY_DB) && Tree(ShapeOf(EMPTY_DB.jobs)) && Enabled(EMPTY_DB, DoOpenRun(0, 1, 2, 1, 0))
    ensures LoneRoot(Next(EMPTY_DB, DoOpenRun(0, 1, 2, 1, 0)), Queued)
  {
    assert EMPTY_DB.jobs == map[];
  }

  lemma {:induction false} RootClaims(db: Db)
    requires Stored(db) && Tree(ShapeOf(db.jobs)) && LoneRoot(db, Queued)
    ensures Enabled(db, DoClaim(1, 7, 9)) && LoneRoot(Next(db, DoClaim(1, 7, 9)), Claimed)
  {}

  lemma {:induction false} RootReports(db: Db)
    requires Stored(db) && Tree(ShapeOf(db.jobs)) && LoneRoot(db, Claimed)
    ensures Enabled(db, DoComplete(1, 7, "done")) && LoneRoot(Next(db, DoComplete(1, 7, "done")), Succeeded)
  {}

  lemma {:induction false} RootSucceeds(db: Db) returns (steps: seq<Step>, db': Db)
    requires Inv(db) && LoneRoot(db, Queued)
    ensures Leads(db, steps, db') && LoneRoot(db', Succeeded)
  {
    hide *;
    var claim, report := DoClaim(1, 7, 9), DoComplete(1, 7, "done");
    InvForest(db);
    RootClaims(db);
    NextKeeps(db, claim);
    var db1 := Next(db, claim);
    InvForest(db1);
    RootReports(db1);
    db' := Next(db1, report);
    NoMore(db');
    LeadsCons(db1, report, [], db');
    steps := [claim] + ([report] + []);
    LeadsCons(db, claim, [report] + [], db');
  }

  lemma {:induction false} MaySpawnOne(db: Db)
    requires Inv(db) && LoneRoot(db, Succeeded)
    ensures Stored(db) && Tree(ShapeOf(db.jobs)) && Enabled(db, DoSpawn(1, None, [2], [Want(Build, 0, {})], 0))
    ensures Granted(db, 1, [Want(Build, 0, {})]) == 1 && RootOver(db, 1)
  {
    assert ShapeOf(db.jobs)[1].parent.None?;
    hide PathsOk, OrderOk, StreamsOk, OverOk, GatesOk, RowsOk;
    assert Depth(ShapeOf(db.jobs), 1) == 0;
  }

  /**
   * It happens: a reachable database in which the root has just succeeded, and one
   * spawn that commits between the two halves of `finishRun`, leave a queued job in a
   * run that is over.
   */
  lemma {:induction false} AnOutlivedRun() returns (before: seq<Step>, db: Db, db': Db, late: Db)
    ensures Leads(EMPTY_DB, before, db) && RootOver(db, 1) && Stored(db) && Tree(ShapeOf(db.jobs))
    ensures Leads(db, [DoSpawn(1, None, [2], [Want(Build, 0, {})], 0)], db')
    ensures Stored(db') && db.jobs.Keys <= db'.jobs.Keys && db.jobs[1].spec.run in db'.runs
      && late == FinishLate(db, db', 1)
    ensures 0 in late.runs && RunOver(late.runs[0].status) && HomeOf(late, 0, 2) && late.jobs[2].status.Queued?
  {
    hide *;
    var open, spawn := DoOpenRun(0, 1, 2, 1, 0), DoSpawn(1, None, [2], [Want(Build, 0, {})], 0);
    OpensAlone();
    var db0 := Next(EMPTY_DB, open);
    EmptyInv();
    NextKeeps(EMPTY_DB, open);
    var rest;
    rest, db := RootSucceeds(db0);
    LeadsKeeps(db0, rest, db);
    LeadsCons(EMPTY_DB, open, rest, db);
    before := [open] + rest;
    MaySpawnOne(db);
    db' := Next(db, spawn);
    NoMore(db');
    LeadsCons(db, spawn, [], db');
    assert [spawn] + [] == [spawn];
    LoneRun(db);
    ChildOutlivesRun(db, 1, 1, 2, Want(Build, 0, {}), 0);
    late := FinishLate(db, db', 1);
  }

  lemma EmptyInv()
    ensures Inv(EMPTY_DB)
  {}

  lemma NoMore(db: Db)
    ensures Leads(db, [], db)
  {}

  lemma LoneRun(db: Db)
    requires LoneRoot(db, Succeeded)
    ensures 1 in db.jobs && db.jobs[1].spec.run == 0
  {}
}
