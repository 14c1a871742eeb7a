/** The promises of the queue, the event stream and the run lifecycle, over every history. */
module QueueLaws {
  import opened Common
  import opened Events
  import opened QueueModel
  import opened QueueInvariants
  import opened QueueProofs
  import opened QueueRuns
  import opened QueueTheorems

  /* -------------------------------- runs -------------------------------- */

  /**
   * No run outlives its work. However completions, reaps, cancellations, spawns and
   * the two ways of ending a run interleave, a run that is over has no job that is
   * queued, claimed or running, its stream announced the end exactly once, and its
   * thread got one closing turn if the captain ended it and none if it was cancelled.
   */
  lemma {:induction false} NoRunOutlivesItsWork(steps: seq<Step>, db: Db, r: RunId)
    requires Leads(EMPTY_DB, steps, db) && r in db.runs
    ensures Stored(db)
    ensures RunOver(db.runs[r].status) ==>
      && (forall j :: j in db.jobs && db.jobs[j].spec.run == r ==> Terminal(db.jobs[j].status))
      && Endings(db.log[r]) == 1
      && |db.closing[r]| == if db.runs[r].status.RunCancelled? then 0 else 1
    ensures !RunOver(db.runs[r].status) ==> Endings(db.log[r]) == 0 && db.closing[r] == []
  {
    Reachable(steps, db);
    assert StreamOk(db, r);
  }

  /**
   * The stream reproduces the database: replaying it gives every job's and every run's
   * status, and its length is `event_seq`.
   */
  lemma {:induction false} StreamReproducesState(steps: seq<Step>, db: Db, r: RunId, j: JobId)
    requires Leads(EMPTY_DB, steps, db) && r in db.runs
    ensures Stored(db) && db.runs[r].eventSeq == |db.log[r]| && RunReplay(db.log[r]) == db.runs[r].status
    ensures HomeOf(db, r, j) <==> History(db.log[r], j) != []
    ensures HomeOf(db, r, j) ==> History(db.log[r], j)[|History(db.log[r], j)| - 1] == db.jobs[j].status
  {
    Reachable(steps, db);
    assert StreamOk(db, r) && PathOf(db, r, j);
  }

  /** What is over stays over: terminal jobs, ended runs and spawn receipts never change, and streams only grow. */
  lemma {:induction false} NothingOverChanges(before: seq<Step>, db: Db, after: seq<Step>, db': Db)
    requires Leads(EMPTY_DB, before, db) && Leads(db, after, db')
    ensures forall j :: j in db.jobs && Terminal(db.jobs[j].status) ==> j in db'.jobs && db'.jobs[j] == db.jobs[j]
    ensures forall r :: r in db.runs && RunOver(db.runs[r].status) ==>
      r in db'.runs && db'.runs[r].status == db.runs[r].status
    ensures forall r :: r in db.log ==> r in db'.log && db.log[r] <= db'.log[r]
  {
    Reachable(before, db);
    LeadsGrows(db, after, db');
  }

  /* -------------------------------- leases -------------------------------- */

  /** A job is leased exactly when it carries a lease; then it has a holder, and a queued job has none. */
  lemma {:induction false} LeaseMeansHolder(steps: seq<Step>, db: Db, j: JobId)
    requires Leads(EMPTY_DB, steps, db) && j in db.jobs
    ensures db.jobs[j].lease.Some? <==> Leased(db.jobs[j].status)
    ensures db.jobs[j].lease.Some? ==> db.jobs[j].vm.Some?
    ensures db.jobs[j].status.Queued? ==> db.jobs[j].vm.None?
  {
    Reachable(steps, db);
  }

  lemma {:induction false} ClaimsAlternate(p: seq<JobStatus>, a: nat, b: nat)
    requires LegalPath(p) && a < b < |p| && p[a].Claimed? && p[b].Claimed?
    ensures exists c :: a < c < b && p[c].Queued?
  {
    assert LegalAt(p, b) && p[b - 1].Queued?;
  }

  lemma {:induction false} TerminalEndsPath(p: seq<JobStatus>, a: nat)
    requires LegalPath(p) && a < |p| && Terminal(p[a])
    ensures a == |p| - 1
  {
    assert a + 1 < |p| ==> !LegalAt(p, a + 1);
  }

  /** A job of the run has a legal life in its stream; any other job has none. */
  lemma {:induction false} LifeIsLegal(steps: seq<Step>, db: Db, r: RunId, j: JobId)
    requires Leads(EMPTY_DB, steps, db) && r in db.log
    ensures History(db.log[r], j) == [] || LegalPath(History(db.log[r], j))
  {
    Reachable(steps, db);
    assert PathOf(db, r, j);
  }

  /** A job is never handed out twice: between two `claimed` reports of it there is a `queued` one. */
  lemma {:induction false} NeverHandedOutTwice(steps: seq<Step>, db: Db, r: RunId, j: JobId, a: nat, b: nat)
    requires Leads(EMPTY_DB, steps, db) && r in db.log && a < b < |History(db.log[r], j)|
    requires History(db.log[r], j)[a].Claimed? && History(db.log[r], j)[b].Claimed?
    ensures exists c :: a < c < b && History(db.log[r], j)[c].Queued?
  {
    hide Leads;
    LifeIsLegal(steps, db, r, j);
    ClaimsAlternate(History(db.log[r], j), a, b);
  }

  /** The machine's rules, as a reader of the stream sees them: a terminal report is the last one. */
  lemma {:induction false} TerminalReportsAreLast(steps: seq<Step>, db: Db, r: RunId, j: JobId, a: nat)
    requires Leads(EMPTY_DB, steps, db) && r in db.log && a < |History(db.log[r], j)|
    requires Terminal(History(db.log[r], j)[a])
    ensures a == |History(db.log[r], j)| - 1
  {
    hide Leads;
    LifeIsLegal(steps, db, r, j);
    TerminalEndsPath(History(db.log[r], j), a);
  }

  /** `vm` claims `j` in none of these steps. */
  predicate NoClaim(steps: seq<Step>, j: JobId, vm: VmId) {
    forall i :: 0 <= i < |steps| && steps[i].DoClaim? ==> !(steps[i].j == j && steps[i].vm == vm)
  }

  lemma {:induction false} MoveTakesNoLease(db: Db, k: JobId, to: Job, e: Event, j: JobId, vm: VmId)
    requires Stored(db) && k in db.jobs && to.spec == db.jobs[k].spec && !Leased(to.status) && !Holder(db, j, vm)
    ensures !Holder(Move(db, k, to, e), j, vm)
  {}

  lemma {:induction false} ReapTakesNoLease(db: Db, js: seq<JobId>, j: JobId, vm: VmId)
    requires Stored(db) && (forall k :: k in js ==> k in db.jobs) && !Holder(db, j, vm)
    ensures !Holder(ReapAll(db, js), j, vm)
    decreases |js|
  {
    hide Holder;
    if js != [] {
      var job := GivenBack(db.jobs[js[0]], LEASE_EXPIRED);
      MoveTakesNoLease(db, js[0], job,
        StatusEvent(js[0], job.status, None, Some(job.attempts), Detail(LEASE_EXPIRED)), j, vm);
      ReapTakesNoLease(ReapOne(db, js[0]), js[1..], j, vm);
    }
  }

  lemma {:induction false} CancelTakesNoLease(db: Db, js: seq<JobId>, j: JobId, vm: VmId, reason: string)
    requires Stored(db) && (forall k :: k in js ==> k in db.jobs) && !Holder(db, j, vm)
    ensures !Holder(CancelAll(db, js, reason), j, vm)
    decreases |js|
  {
    hide Holder;
    if js != [] {
      MoveTakesNoLease(db, js[0], CancelledRow(db.jobs[js[0]], reason),
        StatusEvent(js[0], Cancelled, None, None, Detail(reason)), j, vm);
      CancelTakesNoLease(CancelOne(db, js[0], reason), js[1..], j, vm, reason);
    }
  }

  lemma {:induction false} SpawningTakesNoLease(
      db: Db, parent: JobId, ids: seq<JobId>, wants: seq<Want>, now: int, j: JobId, vm: VmId)
    requires Stored(db) && parent in db.jobs && |ids| == |wants| && !Holder(db, j, vm)
    ensures !Holder(SpawnMany(db, parent, ids, wants, now), j, vm)
    decreases |ids|
  {
    if ids != [] {
      SpawningTakesNoLease(SpawnOne(db, parent, ids[0], wants[0], now), parent, ids[1..], wants[1..], now, j, vm);
    }
  }

  lemma {:induction false} BatchesTakeNoLease(db: Db, s: Step, j: JobId, vm: VmId)
    requires Stored(db) && Tree(ShapeOf(db.jobs)) && Enabled(db, s) && !Holder(db, j, vm)
    requires s.DoReap? || s.DoSpawn?
    ensures !Holder(Next(db, s), j, vm)
  {
    hide Holder, Granted, Tree, ReapAll, SpawnMany;
    match s
    case DoReap(batch, now) => ReapTakesNoLease(db, Ascending(batch), j, vm);
    case DoSpawn(parent, request, ids, wants, now) =>
      var n := Granted(db, parent, wants);
      SpawningTakesNoLease(db, parent, ids[..n], wants[..n], now, j, vm);
      ReceiptTakesNoLease(SpawnGranted(db, parent, ids, wants, now), j, vm);
  }

  lemma ReceiptTakesNoLease(db: Db, j: JobId, vm: VmId)
    requires !Holder(db, j, vm)
    ensures forall p, q, t :: !Holder(WithReceipt(db, p, q, t), j, vm)
  {}

  lemma {:induction false} ClosingTakesNoLease(db: Db, s: Step, j: JobId, vm: VmId)
    requires Stored(db) && Tree(ShapeOf(db.jobs)) && Enabled(db, s) && !Holder(db, j, vm)
    requires s.DoCancelSubtree? || s.DoFinishRun? || s.DoCancelRun?
    ensures !Holder(Next(db, s), j, vm)
  {
    hide CancelAll, Within, Leased, Terminal;
    match s
    case DoCancelSubtree(a, reason) => CancelTakesNoLease(db, Ascending(LiveSubtree(db, a)), j, vm, reason);
    case DoFinishRun(a) => CancelTakesNoLease(db, Ascending(LiveSubtree(db, a) - {a}), j, vm, ROOT_FINISHED);
    case DoCancelRun(r, reason) => CancelTakesNoLease(db, Ascending(LiveJobs(db, r)), j, vm, reason);
  }

  lemma {:induction false} OnlyClaimLeases(db: Db, s: Step, j: JobId, vm: VmId)
    requires Stored(db) && Tree(ShapeOf(db.jobs)) && Enabled(db, s) && !Holder(db, j, vm)
    requires !(s.DoClaim? && s.j == j && s.vm == vm)
    ensures !Holder(Next(db, s), j, vm)
  {
    if s.DoReap? || s.DoSpawn? {
      hide Holder, Enabled, Next;
      BatchesTakeNoLease(db, s, j, vm);
    } else if s.DoCancelSubtree? || s.DoFinishRun? || s.DoCancelRun? {
      hide Holder, Enabled, Next;
      ClosingTakesNoLease(db, s, j, vm);
    }
  }

  /**
   * An evicted machine stays out. Once `vm` does not hold `j`, nothing it reports
   * about `j` changes anything, until it claims the job again.
   */
  lemma {:induction false} EvictedStaysOut(
      db: Db, steps: seq<Step>, db': Db, j: JobId, vm: VmId, until: int, text: string)
    requires Inv(db) && Leads(db, steps, db') && !Holder(db, j, vm) && NoClaim(steps, j, vm)
    ensures Stored(db') && !Holder(db', j, vm)
    ensures Heartbeat(db', j, vm, until) == db' && MarkRunning(db', j, vm) == db'
    ensures Complete(db', j, vm, text) == db' && Fail(db', j, vm, text) == db'
    decreases |steps|
  {
    if steps != [] {
      NextKeeps(db, steps[0]);
      OnlyClaimLeases(db, steps[0], j, vm);
      assert NoClaim(steps[1..], j, vm) by {
        forall i | 0 <= i < |steps[1..]| && steps[1..][i].DoClaim?
          ensures !(steps[1..][i].j == j && steps[1..][i].vm == vm) {
          assert steps[1..][i] == steps[i + 1];
        }
      }
      hide Inv;
      EvictedStaysOut(Next(db, steps[0]), steps[1..], db', j, vm, until, text);
    }
  }

  /* ------------------------------- bounds ------------------------------- */

  /** A job's life is bounded: at most `maxAttempts` claims and `3 * maxAttempts + 1` reports. */
  lemma {:induction false} BoundedLife(steps: seq<Step>, db: Db, j: JobId)
    requires Leads(EMPTY_DB, steps, db) && j in db.jobs
    ensures Stored(db) && db.jobs[j].attempts <= db.jobs[j].spec.maxAttempts
    ensures |History(db.log[db.jobs[j].spec.run], j)| <= 3 * db.jobs[j].spec.maxAttempts + 1
  {
    Reachable(steps, db);
    hide Leads, PathsOk, RowsOk, GatesOk, OrderOk, StreamsOk, OverOk, Forest;
    LifeBound(db, j);
  }

  lemma {:induction false} LifeBound(db: Db, j: JobId)
    requires Stored(db) && PathsOk(db) && RowsOk(db) && j in db.jobs
    ensures db.jobs[j].attempts <= db.jobs[j].spec.maxAttempts
    ensures |History(db.log[db.jobs[j].spec.run], j)| <= 3 * db.jobs[j].spec.maxAttempts + 1
  {
    assert PathOf(db, db.jobs[j].spec.run, j) && RowOk(db.jobs[j]);
    hide History, LegalPath;
  }

  /** The row keeps its status and attempts, or its measure falls. */
  predicate Spends(a: Job, b: Job) {
    b.spec == a.spec && ((b.status == a.status && b.attempts == a.attempts) || Measure(b) < Measure(a))
  }

  lemma {:induction false} ReapAllExact(db: Db, js: seq<JobId>)
    requires Stored(db) && Increasing(js) && forall j :: j in js ==> j in db.jobs
    ensures forall j :: j in db.jobs ==>
      ReapAll(db, js).jobs[j] == if j in js then GivenBack(db.jobs[j], LEASE_EXPIRED) else db.jobs[j]
    decreases |js|
  {
    if js != [] { ReapAllExact(ReapOne(db, js[0]), js[1..]); }
  }

  lemma RowsSpend(a: Job, reason: string)
    requires RowOk(a)
    ensures !Terminal(a.status) ==> Spends(a, CancelledRow(a, reason))
    ensures Leased(a.status) ==> Spends(a, GivenBack(a, reason))
  {}

  lemma {:induction false} CancelSpends(db: Db, batch: set<JobId>, reason: string, j: JobId)
    requires Stored(db) && RowsOk(db) && j in db.jobs && forall k :: k in batch ==>
      k in db.jobs && !Terminal(db.jobs[k].status)
    ensures var db' := CancelAll(db, Ascending(batch), reason); j in db'.jobs && Spends(db.jobs[j], db'.jobs[j])
  {
    CancelAllExact(db, Ascending(batch), reason);
    RowsSpend(db.jobs[j], reason);
    SpendsNothing(db.jobs[j]);
    hide RowsOk, Spends, CancelAll;
  }

  lemma {:induction false} ReapSpends(db: Db, batch: set<JobId>, j: JobId)
    requires Stored(db) && RowsOk(db) && j in db.jobs && forall k :: k in batch ==>
      k in db.jobs && Leased(db.jobs[k].status)
    ensures var db' := ReapAll(db, Ascending(batch)); j in db'.jobs && Spends(db.jobs[j], db'.jobs[j])
  {
    ReapAllExact(db, Ascending(batch));
    RowsSpend(db.jobs[j], LEASE_EXPIRED);
    SpendsNothing(db.jobs[j]);
    hide RowsOk, Spends, ReapAll;
  }

  lemma {:induction false} FinishSpends(db: Db, a: JobId, j: JobId)
    requires Stored(db) && Tree(ShapeOf(db.jobs)) && RowsOk(db) && a in db.jobs && j in db.jobs
    ensures j in FinishRun(db, a).jobs && Spends(db.jobs[j], FinishRun(db, a).jobs[j])
  {
    SpendsNothing(db.jobs[j]);
    CancelSpends(db, LiveSubtree(db, a) - {a}, ROOT_FINISHED, j);
    hide RowsOk, Spends, Within, CancelAll, Ascending, LiveSubtree, Tree, Closing;
  }

  lemma {:induction false} CancelRunSpends(db: Db, r: RunId, reason: string, j: JobId)
    requires Stored(db) && RowsOk(db) && j in db.jobs
    ensures j in CancelRun(db, r, reason).jobs && Spends(db.jobs[j], CancelRun(db, r, reason).jobs[j])
  {
    SpendsNothing(db.jobs[j]);
    CancelSpends(db, LiveJobs(db, r), reason, j);
    hide RowsOk, Spends, CancelAll, Ascending, LiveJobs;
  }

  lemma {:induction false} BatchSpends(db: Db, s: Step, j: JobId)
    requires Stored(db) && Tree(ShapeOf(db.jobs)) && RowsOk(db) && Enabled(db, s) && j in db.jobs
    requires s.DoReap? || s.DoCancelSubtree? || s.DoFinishRun? || s.DoCancelRun?
    ensures j in Next(db, s).jobs && Spends(db.jobs[j], Next(db, s).jobs[j])
  {
    hide RowsOk, Spends, Within, CancelAll, ReapAll, Ascending, FinishRun, CancelRun;
    match s
    case DoReap(batch, now) => ReapSpends(db, batch, j);
    case DoCancelSubtree(a, reason) => CancelSpends(db, LiveSubtree(db, a), reason, j);
    case DoFinishRun(a) => FinishSpends(db, a, j);
    case DoCancelRun(r, reason) => CancelRunSpends(db, r, reason, j);
  }

  lemma SpendsNothing(a: Job)
    ensures Spends(a, a)
  {}

  lemma {:induction false} SpawnLeaves(db: Db, parent: JobId, ids: seq<JobId>, wants: seq<Want>, now: int)
    requires Stored(db) && parent in db.jobs && |ids| == |wants| && Fresh(db, ids, wants)
    ensures var db' := SpawnMany(db, parent, ids, wants, now); forall j :: j in db.jobs ==>
      j in db'.jobs && db'.jobs[j] == db.jobs[j]
    decreases |ids|
  {
    if ids != [] {
      FreshTail(db, parent, ids, wants, now);
      assert ids[0] !in db.jobs;
      SpawnLeaves(SpawnOne(db, parent, ids[0], wants[0], now), parent, ids[1..], wants[1..], now);
    }
  }

  lemma {:induction false} SingleSpends(db: Db, s: Step, j: JobId)
    requires Stored(db) && Tree(ShapeOf(db.jobs)) && j in db.jobs && RowOk(db.jobs[j]) && Enabled(db, s)
    requires !(s.DoReap? || s.DoCancelSubtree? || s.DoFinishRun? || s.DoCancelRun? || s.DoSpawn?)
    requires s.DoOpenRun? ==> s.root !in db.jobs
    ensures j in Next(db, s).jobs && Spends(db.jobs[j], Next(db, s).jobs[j])
  {
    hide Tree, Stored;
  }

  lemma {:induction false} SpawnSpends(db: Db, s: Step, j: JobId)
    requires Stored(db) && Tree(ShapeOf(db.jobs)) && Enabled(db, s) && s.DoSpawn? && j in db.jobs
    ensures j in Next(db, s).jobs && Spends(db.jobs[j], Next(db, s).jobs[j])
  {
    SpendsNothing(db.jobs[j]);
    var n := Granted(db, s.parent, s.wants);
    FreshPrefix(db, s.ids, s.wants, n);
    hide Spends, Fresh, Granted, SpawnMany;
    SpawnLeaves(db, s.parent, s.ids[..n], s.wants[..n], s.now);
  }

  lemma {:induction false} RootIsNew(db: Db, s: Step, j: JobId)
    requires Stored(db) && Tree(ShapeOf(db.jobs)) && RowsOk(db) && Enabled(db, s) && j in db.jobs
    ensures RowOk(db.jobs[j]) && (s.DoOpenRun? ==> s.root !in db.jobs)
  {
    if s.DoOpenRun? { assert [s.root][0] == s.root; }
  }

  /**
   * Every transition spends life: whatever happens, a job either keeps its status and
   * attempts or its measure, remaining attempts first and progress second, strictly falls.
   */
  lemma {:induction false} TransitionsSpendLife(db: Db, s: Step, j: JobId)
    requires Stored(db) && Tree(ShapeOf(db.jobs)) && RowsOk(db) && Enabled(db, s) && j in db.jobs
    ensures j in Next(db, s).jobs && Spends(db.jobs[j], Next(db, s).jobs[j])
  {
    hide *;
    RootIsNew(db, s, j);
    if s.DoReap? || s.DoCancelSubtree? || s.DoFinishRun? || s.DoCancelRun? { BatchSpends(db, s, j); }
    else if s.DoSpawn? { SpawnSpends(db, s, j); }
    else { SingleSpends(db, s, j); }
  }

  /** The spawn budgets hold in every state: a run counts exactly its jobs, within both limits. */
  lemma {:induction false} SpawnBudgetsHold(steps: seq<Step>, db: Db, r: RunId)
    requires Leads(EMPTY_DB, steps, db) && r in db.runs
    ensures db.runs[r].budget.totalSpawns == |JobsOf(ShapeOf(db.jobs), r)| <= db.runs[r].budget.maxSpawns
    ensures Tree(ShapeOf(db.jobs))
    ensures forall j :: j in db.jobs && db.jobs[j].spec.run == r ==>
      Depth(ShapeOf(db.jobs), j) <= db.runs[r].budget.maxDepth
  {
    Reachable(steps, db);
    assert BudgetsOf(db.runs)[r] == db.runs[r].budget;
    forall j | j in db.jobs && db.jobs[j].spec.run == r
      ensures Depth(ShapeOf(db.jobs), j) <= db.runs[r].budget.maxDepth {
      assert j in ShapeOf(db.jobs);
    }
  }

  /* ----------------------------- dependencies ----------------------------- */

  /**
   * Dependency order. A `claimed` report of a job comes after a `succeeded` report
   * of each of its dependencies in the same run, and from its first claim on every
   * dependency that exists has succeeded.
   */
  lemma {:induction false} DependenciesFirst(steps: seq<Step>, db: Db, r: RunId, k: nat, j: JobId, d: JobId)
    requires Leads(EMPTY_DB, steps, db) && r in db.log && k < |db.log[r]| && ClaimedAt(db.log[r], k, j)
    requires HomeOf(db, r, j) && d in db.jobs[j].spec.deps && HomeOf(db, r, d)
    ensures SucceededBefore(db.log[r], d, k)
  {
    Reachable(steps, db);
    assert OrderOf(db, r, k, j, d);
  }

  lemma {:induction false} GateStaysOpen(before: seq<Step>, db: Db, after: seq<Step>, db': Db, j: JobId, d: JobId)
    requires Leads(EMPTY_DB, before, db) && j in db.jobs && db.jobs[j].attempts > 0 && Leads(db, after, db')
    requires d in db.jobs[j].spec.deps
    ensures d in db'.jobs ==> d in db.jobs && db'.jobs[d].status.Succeeded?
  {
    hide *;
    Reachable(before, db);
    GateOpen(db, j, d);
    if d !in db.jobs { DepsAreOld(db, after, db', j, d); }
    LeadsGrows(db, after, db');
    if d in db.jobs { SuccessStays(db, db', d); }
  }

  lemma GateOpen(db: Db, j: JobId, d: JobId)
    requires Inv(db) && j in db.jobs && db.jobs[j].attempts > 0 && d in db.jobs[j].spec.deps
    ensures d in db.jobs ==> db.jobs[d].status.Succeeded?
  {
    assert Ready(db, j);
    hide ForestOk, RowsOk, PathsOk, OrderOk, StreamsOk, OverOk;
  }

  lemma SuccessStays(db: Db, db': Db, d: JobId)
    requires Grows(db, db') && d in db.jobs && db.jobs[d].status.Succeeded?
    ensures d in db'.jobs && db'.jobs[d].status.Succeeded?
  {}

  /** A dependency that does not exist when a job does never comes to exist: identifiers are fresh. */
  lemma {:induction false} DepsAreOld(db: Db, steps: seq<Step>, db': Db, j: JobId, d: JobId)
    requires Inv(db) && Leads(db, steps, db') && j in db.jobs && d in db.jobs[j].spec.deps && d !in db.jobs
    ensures d !in db'.jobs
    decreases |steps|
  {
    if steps != [] {
      NextKeeps(db, steps[0]);
      NextGrows(db, steps[0]);
      NoNewDep(db, steps[0], j, d);
      hide Inv;
      DepsAreOld(Next(db, steps[0]), steps[1..], db', j, d);
    }
  }

  lemma {:induction false} NoNewDep(db: Db, s: Step, j: JobId, d: JobId)
    requires Stored(db) && Tree(ShapeOf(db.jobs)) && Enabled(db, s)
    requires j in db.jobs && d in db.jobs[j].spec.deps && d !in db.jobs
    ensures d !in Next(db, s).jobs
  {
    if s.DoSpawn? {
      var n := Granted(db, s.parent, s.wants);
      NotAmong(db, s.ids, s.wants, j, d);
      hide Enabled, Granted, Tree, Stored;
      SpawnManyKeys(db, s.parent, s.ids[..n], s.wants[..n], s.now);
    } else if s.DoOpenRun? {
      assert [s.root][0] == s.root;
    } else {
      hide Enabled, Tree;
      NoNewJob(db, s);
    }
  }

  /** Only opening a run and spawning create jobs. */
  lemma {:induction false} NoNewJob(db: Db, s: Step)
    requires Stored(db) && Tree(ShapeOf(db.jobs)) && Enabled(db, s) && !s.DoSpawn? && !s.DoOpenRun?
    ensures Next(db, s).jobs.Keys == db.jobs.Keys
  {}

  lemma NotAmong(db: Db, ids: seq<JobId>, wants: seq<Want>, j: JobId, d: JobId)
    requires Fresh(db, ids, wants) && j in db.jobs && d in db.jobs[j].spec.deps
    ensures d !in ids
  {}

  lemma {:induction false} SpawnOneKeys(db: Db, parent: JobId, id: JobId, want: Want, now: int)
    requires Stored(db) && parent in db.jobs
    ensures var db1 := SpawnOne(db, parent, id, want, now);
      Stored(db1) && forall x :: x in db1.jobs <==> x in db.jobs || x == id
  {}

  /** A batch creates exactly the jobs it names. */
  lemma {:induction false} SpawnManyKeys(db: Db, parent: JobId, ids: seq<JobId>, wants: seq<Want>, now: int)
    requires Stored(db) && parent in db.jobs && |ids| == |wants|
    ensures forall x :: x in SpawnMany(db, parent, ids, wants, now).jobs <==> x in db.jobs || x in ids
    decreases |ids|
  {
    if ids != [] {
      SpawnOneKeys(db, parent, ids[0], wants[0], now);
      hide SpawnOne, Stored;
      SpawnManyKeys(SpawnOne(db, parent, ids[0], wants[0], now), parent, ids[1..], wants[1..], now);
      assert forall x :: x in ids <==> x == ids[0] || x in ids[1..];
    }
  }
}
