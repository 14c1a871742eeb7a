/** What every transaction of the queue keeps. */
module QueueInvariants {
  import opened Common
  import opened Events
  import opened QueueModel

  /* ------------------------- reading the stream ------------------------- */

  /** The plane's own report that job `j` changed status. Agents cannot forge one: their events carry their address. */
  predicate Reports(e: Event, j: JobId) { e.job == Some(j) && e.from.Orchestrator? && e.body.StatusIs? }

  predicate ReportsRun(e: Event) { e.from.Orchestrator? && e.body.RunIs? }

  /** The statuses job `j` has been reported in, oldest first. */
  ghost function History(log: seq<Event>, j: JobId): seq<JobStatus> {
    if log == [] then []
    else
      var e := log[|log| - 1];
      var before := History(log[..|log| - 1], j);
      if Reports(e, j) then before + [e.body.status] else before
  }

  /** The run status the stream last reported; a new run is queued. */
  ghost function RunReplay(log: seq<Event>): RunStatus {
    if log == [] then RunQueued
    else if ReportsRun(log[|log| - 1]) then log[|log| - 1].body.run
    else RunReplay(log[..|log| - 1])
  }

  /** How many times the stream announced the end of the run. */
  ghost function Endings(log: seq<Event>): nat {
    if log == [] then 0
    else
      var e := log[|log| - 1];
      Endings(log[..|log| - 1]) + (if ReportsRun(e) && RunOver(e.body.run) then 1 else 0)
  }

  lemma Appended(log: seq<Event>, e: Event, j: JobId)
    ensures History(log + [e], j) == if Reports(e, j) then History(log, j) + [e.body.status] else History(log, j)
    ensures RunReplay(log + [e]) == if ReportsRun(e) then e.body.run else RunReplay(log)
    ensures Endings(log + [e]) == Endings(log) + (if ReportsRun(e) && RunOver(e.body.run) then 1 else 0)
  {
    assert (log + [e])[..|log|] == log;
  }

  /* ------------------------ the job state machine ------------------------ */

  predicate LegalStep(a: JobStatus, b: JobStatus) {
    match a
    case Queued => b.Claimed? || b.Cancelled?
    case Claimed => !b.Claimed?
    case Running => b.Queued? || Terminal(b)
    case _ => false
  }

  predicate LegalAt(p: seq<JobStatus>, i: nat) { 0 < i < |p| ==> LegalStep(p[i - 1], p[i]) }

  predicate LegalPath(p: seq<JobStatus>) {
    p != [] && p[0] == Queued && forall i :: 0 < i < |p| ==> LegalAt(p, i)
  }

  lemma Extended(p: seq<JobStatus>, b: JobStatus)
    requires LegalPath(p) && LegalStep(p[|p| - 1], b)
    ensures LegalPath(p + [b])
  {
    forall i | 0 < i < |p + [b]| ensures LegalAt(p + [b], i) {
      if i < |p| { assert LegalAt(p, i); }
    }
  }

  /** Falls at every transition: remaining attempts first, then how far the current attempt has got. */
  function Measure(job: Job): int {
    var left := 3 * (job.spec.maxAttempts - job.attempts);
    match job.status
    case Queued => left
    case Claimed => left + 2
    case Running => left + 1
    case _ => 0
  }

  /** A job is leased exactly when it carries a lease, and then it has a holder; a queued job has neither. */
  predicate RowOk(job: Job) {
    && 0 < job.spec.maxAttempts && job.attempts <= job.spec.maxAttempts
    && (job.status.Queued? ==> job.attempts < job.spec.maxAttempts && job.vm.None?)
    && (job.lease.Some? <==> Leased(job.status))
    && (Leased(job.status) ==> job.vm.Some? && job.attempts > 0)
  }

  /* --------------------------- the invariants --------------------------- */

  predicate RowsOk(db: Db) {
    forall j :: j in db.jobs ==> RowOk(db.jobs[j]) && db.jobs[j].spec.birth < db.births
  }

  /** Once a job has been claimed, its dependencies have succeeded, and stay so. */
  predicate GatesOk(db: Db) { forall j :: j in db.jobs && db.jobs[j].attempts > 0 ==> Ready(db, j) }

  predicate PathOk(p: seq<JobStatus>, job: Job) {
    LegalPath(p) && p[|p| - 1] == job.status && |p| + Measure(job) <= 3 * job.spec.maxAttempts + 1
  }

  predicate HomeOf(db: Db, r: RunId, j: JobId) { j in db.jobs && db.jobs[j].spec.run == r }

  /** The stream of a job's run is a legal life of that job ending in its current status; no other run mentions it. */
  ghost predicate PathOf(db: Db, r: RunId, j: JobId)
    requires r in db.log
  {
    if HomeOf(db, r, j) then PathOk(History(db.log[r], j), db.jobs[j]) else History(db.log[r], j) == []
  }

  ghost predicate PathsOk(db: Db) { forall r, j :: r in db.log ==> PathOf(db, r, j) }

  predicate SucceededBefore(log: seq<Event>, d: JobId, k: nat)
    requires k <= |log|
  {
    exists i :: 0 <= i < k && Reports(log[i], d) && log[i].body.status.Succeeded?
  }

  predicate ClaimedAt(log: seq<Event>, k: nat, j: JobId)
    requires k < |log|
  {
    Reports(log[k], j) && log[k].body.status.Claimed?
  }

  /** If event `k` of run `r` says that a job was claimed, each same-run dependency that exists had succeeded before. */
  predicate OrderOf(db: Db, r: RunId, k: nat, j: JobId, d: JobId)
    requires r in db.log && k < |db.log[r]|
  {
    ClaimedAt(db.log[r], k, j) && HomeOf(db, r, j) && d in db.jobs[j].spec.deps && HomeOf(db, r, d)
    ==> SucceededBefore(db.log[r], d, k)
  }

  ghost predicate OrderOk(db: Db) {
    forall r, k: nat, j, d :: r in db.log && k < |db.log[r]| ==> OrderOf(db, r, k, j, d)
  }

  /** The stream of a run reports its status, announces its end once, and the thread gets at most one closing turn. */
  ghost predicate StreamOk(db: Db, r: RunId)
    requires Stored(db) && r in db.runs
  {
    var run := db.runs[r];
    && run.eventSeq == |db.log[r]|
    && RunReplay(db.log[r]) == run.status
    && Endings(db.log[r]) == (if RunOver(run.status) then 1 else 0)
    && |db.closing[r]| == (if run.status.Completed? || run.status.RunFailed? then 1 else 0)
  }

  ghost predicate StreamsOk(db: Db)
    requires Stored(db)
  {
    forall r :: r in db.runs ==> StreamOk(db, r)
  }

  /** A run that is over has no queued, claimed or running job. */
  predicate OverOk(db: Db)
    requires Stored(db)
  {
    forall j :: j in db.jobs && RunOver(db.runs[db.jobs[j].spec.run].status) ==> Terminal(db.jobs[j].status)
  }

  ghost function JobsOf(t: Shape, r: RunId): set<JobId> { set j | j in t && t[j].run == r }

  predicate RootOf(t: Shape, r: RunId, j: JobId) { j in t && t[j].run == r && t[j].parent.None? }

  /**
   * The spawn forest: parents come before their children, each run has one root,
   * has had exactly the jobs it counts, and keeps within its two limits.
   */
  ghost predicate Forest(t: Shape, budgets: map<RunId, Budget>) {
    && Tree(t)
    && (forall j :: j in t ==> t[j].run in budgets && Depth(t, j) <= budgets[t[j].run].maxDepth)
    && (forall r, i, j :: RootOf(t, r, i) && RootOf(t, r, j) ==> i == j)
    && (forall r :: r in budgets ==> budgets[r].totalSpawns == |JobsOf(t, r)| <= budgets[r].maxSpawns)
  }

  ghost predicate ForestOk(db: Db) { Forest(ShapeOf(db.jobs), BudgetsOf(db.runs)) }

  ghost predicate Inv(db: Db) {
    Stored(db) && ForestOk(db) && RowsOk(db) && GatesOk(db) && PathsOk(db) && OrderOk(db) && StreamsOk(db) && OverOk(db)
  }

  /* ------------------------------ one move ------------------------------ */

  /** A transition the queue may make to row `j`, with the event that reports it. */
  predicate LegalMove(db: Db, j: JobId, to: Job, e: Event) {
    && Stored(db) && j in db.jobs
    && to.spec == db.jobs[j].spec && RowOk(to)
    && LegalStep(db.jobs[j].status, to.status)
    && Measure(to) < Measure(db.jobs[j])
    && (to.attempts > 0 ==> Ready(db, j))
    && Reports(e, j) && e.body.status == to.status
  }

  lemma {:induction false} HistoryWitness(log: seq<Event>, j: JobId)
    requires History(log, j) != [] && History(log, j)[|History(log, j)| - 1].Succeeded?
    ensures SucceededBefore(log, j, |log|)
    decreases |log|
  {
    var e := log[|log| - 1];
    if Reports(e, j) {
      assert Reports(log[|log| - 1], j) && log[|log| - 1].body.status.Succeeded?;
    } else {
      HistoryWitness(log[..|log| - 1], j);
      var i :| 0 <= i < |log| - 1 && Reports(log[..|log| - 1][i], j) && log[..|log| - 1][i].body.status.Succeeded?;
      assert Reports(log[i], j) && log[i].body.status.Succeeded?;
    }
  }

  lemma {:induction false} MovePath(db: Db, j: JobId, to: Job, e: Event, r: RunId, k: JobId)
    requires LegalMove(db, j, to, e) && r in db.log && PathOf(db, r, k)
    ensures PathOf(Move(db, j, to, e), r, k)
  {
    if r == to.spec.run {
      Appended(db.log[r], e, k);
      if k == j { Extended(History(db.log[r], j), to.status); }
    }
  }

  lemma {:induction false} StillBefore(log: seq<Event>, more: seq<Event>, d: JobId, k: nat)
    requires k <= |log| && SucceededBefore(log, d, k)
    ensures SucceededBefore(log + more, d, k)
  {
    var w :| 0 <= w < k && Reports(log[w], d) && log[w].body.status.Succeeded?;
    assert Reports((log + more)[w], d) && (log + more)[w].body.status.Succeeded?;
  }

  lemma {:induction false} MoveOrder(db: Db, j: JobId, to: Job, e: Event, r: RunId, k: nat, i: JobId, d: JobId)
    requires LegalMove(db, j, to, e) && PathsOk(db) && OrderOk(db)
    requires r in db.log && k < |Move(db, j, to, e).log[r]|
    ensures OrderOf(Move(db, j, to, e), r, k, i, d)
  {
    var db' := Move(db, j, to, e);
    if ClaimedAt(db'.log[r], k, i) && HomeOf(db', r, i) && d in db'.jobs[i].spec.deps && HomeOf(db', r, d) {
      if k < |db.log[r]| {
        assert OrderOf(db, r, k, i, d);
      } else {
        assert PathOf(db, r, d);
        HistoryWitness(db.log[r], d);
      }
      StillBefore(db.log[r], if r == to.spec.run then [e] else [], d, k);
      assert db'.log[r] == db.log[r] + if r == to.spec.run then [e] else [];
    }
  }

  lemma {:induction false} MoveStream(db: Db, j: JobId, to: Job, e: Event, r: RunId)
    requires LegalMove(db, j, to, e) && r in db.runs && StreamOk(db, r)
    ensures Stored(Move(db, j, to, e)) && StreamOk(Move(db, j, to, e), r)
  {
    if r == to.spec.run { Appended(db.log[r], e, j); }
  }

  lemma {:induction false} MoveShape(db: Db, j: JobId, to: Job, e: Event)
    requires LegalMove(db, j, to, e)
    ensures ShapeOf(Move(db, j, to, e).jobs) == ShapeOf(db.jobs)
    ensures BudgetsOf(Move(db, j, to, e).runs) == BudgetsOf(db.runs)
  {}

  lemma {:induction false} MoveRows(db: Db, j: JobId, to: Job, e: Event)
    requires LegalMove(db, j, to, e) && GatesOk(db) && RowsOk(db) && OverOk(db)
    ensures Stored(Move(db, j, to, e))
    ensures GatesOk(Move(db, j, to, e)) && RowsOk(Move(db, j, to, e)) && OverOk(Move(db, j, to, e))
  {
    var db' := Move(db, j, to, e);
    forall k | k in db'.jobs && db'.jobs[k].attempts > 0 ensures Ready(db', k) { assert Ready(db, k); }
  }

  /** Any legal transition keeps every invariant. */
  lemma {:induction false} MoveKeeps(db: Db, j: JobId, to: Job, e: Event)
    requires Inv(db) && LegalMove(db, j, to, e)
    ensures Inv(Move(db, j, to, e)) && ShapeOf(Move(db, j, to, e).jobs) == ShapeOf(db.jobs)
  {
    hide Forest, RowsOk, GatesOk, OverOk;
    var db' := Move(db, j, to, e);
    MoveShape(db, j, to, e);
    MoveRows(db, j, to, e);
    forall r, k | r in db'.log ensures PathOf(db', r, k) { MovePath(db, j, to, e, r, k); }
    forall r, k: nat, i, d | r in db'.log && k < |db'.log[r]| ensures OrderOf(db', r, k, i, d) {
      MoveOrder(db, j, to, e, r, k, i, d);
    }
    forall r | r in db'.runs ensures StreamOk(db', r) { MoveStream(db, j, to, e, r); }
  }
}
