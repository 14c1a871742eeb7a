/**
 * The leased job queue, the spawn tree and the run lifecycle, as transactions on
 * one database value. A transaction is atomic: it either commits as a whole or
 * leaves no trace (`CommitOrder` derives this for the event stream from its statements).
 */
module QueueModel {
  import opened Common
  import opened Events

  datatype Kind = Captain | Build | Review

  /** The columns of a job row that never change. `birth` is its insertion order, `created` its timestamp. */
  datatype Spec = Spec(
    run: RunId, parent: Option<JobId>, birth: nat, created: int,
    kind: Kind, priority: int, maxAttempts: nat, deps: set<JobId>)

  datatype Job = Job(
    spec: Spec, status: JobStatus, vm: Option<VmId>, lease: Option<int>,
    attempts: nat, result: Option<string>, error: Option<string>)

  /** The spawn columns of a run row: how many jobs it has had, and its two limits. */
  datatype Budget = Budget(totalSpawns: nat, maxSpawns: nat, maxDepth: nat)

  datatype RunRow = RunRow(status: RunStatus, eventSeq: nat, budget: Budget)

  datatype Want = Want(kind: Kind, priority: int, deps: set<JobId>)

  /** What a spawn request answers: the jobs created, and how many wants were refused. */
  datatype Response = Response(spawned: seq<JobId>, refused: nat)

  datatype Receipt = Receipt(wants: seq<Want>, response: Response)

  datatype Db = Db(
    jobs: map<JobId, Job>, runs: map<RunId, RunRow>, log: map<RunId, seq<Event>>,
    closing: map<RunId, seq<string>>, receipts: map<(JobId, string), Receipt>, births: nat)

  const EMPTY_DB := Db(map[], map[], map[], map[], map[], 0)

  /* ------------------------------ the tree ------------------------------ */

  datatype Link = Link(run: RunId, parent: Option<JobId>, birth: nat)

  type Shape = map<JobId, Link>

  function ShapeOf(jobs: map<JobId, Job>): Shape {
    map j | j in jobs :: Link(jobs[j].spec.run, jobs[j].spec.parent, jobs[j].spec.birth)
  }

  function BudgetsOf(runs: map<RunId, RunRow>): map<RunId, Budget> { map r | r in runs :: runs[r].budget }

  /** Every parent exists, is in the same run, and was inserted earlier: the relation is acyclic. */
  ghost predicate Tree(t: Shape) {
    forall j :: j in t && t[j].parent.Some? ==>
      t[j].parent.value in t && t[t[j].parent.value].birth < t[j].birth && t[t[j].parent.value].run == t[j].run
  }

  /** `depthOf`: how far below its run's root a job sits. */
  ghost function Depth(t: Shape, j: JobId): nat
    requires Tree(t) && j in t
    decreases t[j].birth
  {
    if t[j].parent.None? then 0 else 1 + Depth(t, t[j].parent.value)
  }

  /** `a` is `j` or one of its ancestors. */
  ghost predicate Within(t: Shape, a: JobId, j: JobId)
    requires Tree(t) && j in t
    decreases t[j].birth
  {
    j == a || (t[j].parent.Some? && Within(t, a, t[j].parent.value))
  }

  /* ------------------------- one row, one event ------------------------- */

  function Detail(s: string): Option<string> { if s == "" then None else Some(s) }

  function StatusEvent(j: JobId, s: JobStatus, vm: Option<VmId>, attempts: Option<nat>, detail: Option<string>): Event {
    Event(Some(j), Orchestrator, StatusIs(s, vm, attempts, detail))
  }

  /** `appendEvent` */
  function Append(db: Db, r: RunId, e: Event): Db
    requires r in db.runs && r in db.log
  {
    db.(runs := db.runs[r := db.runs[r].(eventSeq := db.runs[r].eventSeq + 1)], log := db.log[r := db.log[r] + [e]])
  }

  /** One row changes and the change is recorded, as every queue mutation does. */
  function Move(db: Db, j: JobId, to: Job, e: Event): Db
    requires to.spec.run in db.runs && to.spec.run in db.log
  {
    Append(db.(jobs := db.jobs[j := to]), to.spec.run, e)
  }

  predicate Holder(db: Db, j: JobId, vm: VmId) {
    j in db.jobs && db.jobs[j].vm == Some(vm) && Leased(db.jobs[j].status)
  }

  /** Tables agree on which runs exist. */
  predicate Stored(db: Db) {
    && db.log.Keys == db.runs.Keys == db.closing.Keys
    && forall j :: j in db.jobs ==> db.jobs[j].spec.run in db.runs
  }

  /* ---------------------------- queue steps ---------------------------- */

  /** The dependency gate: no dependency that exists is short of success. */
  predicate Ready(db: Db, j: JobId)
    requires j in db.jobs
  {
    forall d :: d in db.jobs[j].spec.deps && d in db.jobs ==> db.jobs[d].status.Succeeded?
  }

  predicate Eligible(db: Db, j: JobId, kinds: set<Kind>, run: Option<RunId>, only: Option<JobId>) {
    && j in db.jobs && db.jobs[j].status.Queued?
    && (kinds == {} || db.jobs[j].spec.kind in kinds)
    && (run.None? || db.jobs[j].spec.run == run.value)
    && (only.None? || j == only.value)
    && Ready(db, j)
  }

  /** `ORDER BY priority DESC, created_at ASC`; rows that tie may come in any order. */
  predicate NoWorse(a: Spec, b: Spec) {
    a.priority > b.priority || (a.priority == b.priority && a.created <= b.created)
  }

  /** `j` is what a claim that must skip the rows in `locked` selects. */
  ghost predicate Best(
      db: Db, j: JobId, kinds: set<Kind>, run: Option<RunId>, only: Option<JobId>, locked: set<JobId>) {
    && j !in locked && Eligible(db, j, kinds, run, only)
    && forall k :: k !in locked && Eligible(db, k, kinds, run, only) ==> NoWorse(db.jobs[j].spec, db.jobs[k].spec)
  }

  function ClaimedRow(job: Job, vm: VmId, until: int): Job {
    job.(status := Claimed, vm := Some(vm), attempts := job.attempts + 1, lease := Some(until))
  }

  function Claim(db: Db, j: JobId, vm: VmId, until: int): Db
    requires Stored(db) && j in db.jobs
  {
    var job := ClaimedRow(db.jobs[j], vm, until);
    Move(db, j, job, StatusEvent(j, Claimed, Some(vm), Some(job.attempts), None))
  }

  function MarkRunning(db: Db, j: JobId, vm: VmId): Db
    requires Stored(db)
  {
    if Holder(db, j, vm) && db.jobs[j].status.Claimed? then
      Move(db, j, db.jobs[j].(status := Running), StatusEvent(j, Running, Some(vm), None, None))
    else db
  }

  function Heartbeat(db: Db, j: JobId, vm: VmId, until: int): Db {
    if Holder(db, j, vm) then db.(jobs := db.jobs[j := db.jobs[j].(lease := Some(until))]) else db
  }

  function Complete(db: Db, j: JobId, vm: VmId, summary: string): Db
    requires Stored(db)
  {
    if Holder(db, j, vm) then
      Move(db, j, db.jobs[j].(status := Succeeded, result := Some(summary), error := None, lease := None),
           StatusEvent(j, Succeeded, Some(vm), None, Detail(summary)))
    else db
  }

  /** Back to the queue while attempts remain, dead-lettered when they are used up. */
  function GivenBack(job: Job, error: string): Job {
    if job.attempts >= job.spec.maxAttempts
    then job.(status := Failed, lease := None, error := Some(error))
    else job.(status := Queued, vm := None, lease := None, error := Some(error))
  }

  function Fail(db: Db, j: JobId, vm: VmId, error: string): Db
    requires Stored(db)
  {
    if Holder(db, j, vm) then
      var job := GivenBack(db.jobs[j], error);
      Move(db, j, job, StatusEvent(j, job.status, Some(vm), Some(job.attempts), Detail(error)))
    else db
  }

  predicate Expired(db: Db, j: JobId, now: int) {
    j in db.jobs && Leased(db.jobs[j].status) && db.jobs[j].lease.Some? && db.jobs[j].lease.value < now
  }

  const LEASE_EXPIRED := "lease expired"

  function ReapOne(db: Db, j: JobId): Db
    requires Stored(db) && j in db.jobs
  {
    var job := GivenBack(db.jobs[j], LEASE_EXPIRED);
    Move(db, j, job, StatusEvent(j, job.status, None, Some(job.attempts), Detail(LEASE_EXPIRED)))
  }

  function ReapAll(db: Db, js: seq<JobId>): (r: Db)
    requires Stored(db) && forall j :: j in js ==> j in db.jobs
    ensures Stored(r) && r.jobs.Keys == db.jobs.Keys
    decreases |js|
  {
    if js == [] then db else ReapAll(ReapOne(db, js[0]), js[1..])
  }

  function CancelledRow(job: Job, reason: string): Job {
    job.(status := Cancelled, lease := None, error := Some(reason))
  }

  function CancelOne(db: Db, j: JobId, reason: string): Db
    requires Stored(db) && j in db.jobs
  {
    Move(db, j, CancelledRow(db.jobs[j], reason), StatusEvent(j, Cancelled, None, None, Detail(reason)))
  }

  function CancelAll(db: Db, js: seq<JobId>, reason: string): (r: Db)
    requires Stored(db) && forall j :: j in js ==> j in db.jobs
    ensures Stored(r) && r.jobs.Keys == db.jobs.Keys && r.runs.Keys == db.runs.Keys
    decreases |js|
  {
    if js == [] then db else CancelAll(CancelOne(db, js[0], reason), js[1..], reason)
  }

  /** The members of the subtree under `a` that are not over yet. */
  ghost function LiveSubtree(db: Db, a: JobId): set<JobId>
    requires Tree(ShapeOf(db.jobs))
  {
    set j | j in db.jobs && Within(ShapeOf(db.jobs), a, j) && !Terminal(db.jobs[j].status)
  }

  ghost function CancelSubtree(db: Db, a: JobId, reason: string): Db
    requires Stored(db) && Tree(ShapeOf(db.jobs))
  {
    CancelAll(db, Ascending(LiveSubtree(db, a)), reason)
  }

  /* ----------------------------- run steps ----------------------------- */

  function RunEvent(job: Option<JobId>, s: RunStatus): Event { Event(job, Orchestrator, RunIs(s)) }

  function SetRun(db: Db, r: RunId, s: RunStatus, e: Event): Db
    requires r in db.runs && r in db.log
  {
    Append(db.(runs := db.runs[r := db.runs[r].(status := s)]), r, e)
  }

  function StartRun(db: Db, r: RunId, j: JobId): Db
    requires Stored(db)
  {
    if r in db.runs && db.runs[r].status.RunQueued? then SetRun(db, r, RunRunning, RunEvent(Some(j), RunRunning))
      else db
  }

  const ROOT_FINISHED := "root captain finished"

  function Name(s: JobStatus): string {
    match s
    case Queued => "queued"
    case Claimed => "claimed"
    case Running => "running"
    case Succeeded => "succeeded"
    case Failed => "failed"
    case Cancelled => "cancelled"
  }

  /** The closing turn written into the thread. */
  function Closing(job: Job): string {
    match (job.result, job.error)
    case (Some(s), _) => s
    case (None, Some(e)) => e
    case _ => "the captain " + Name(job.status)
  }

  /** `finishRun`: the root captain `j` is over, so everything beneath it is cancelled and the run closes. */
  ghost function FinishRun(db: Db, j: JobId): Db
    requires Stored(db) && Tree(ShapeOf(db.jobs)) && j in db.jobs
  {
    var r := db.jobs[j].spec.run;
    if RunOver(db.runs[r].status) then db
    else
      var s := if db.jobs[j].status.Succeeded? then Completed else RunFailed;
      var db1 := CancelAll(db, Ascending(LiveSubtree(db, j) - {j}), ROOT_FINISHED);
      var db2 := db1.(closing := db1.closing[r := db1.closing[r] + [Closing(db.jobs[j])]]);
      SetRun(db2, r, s, RunEvent(Some(j), s))
  }

  ghost function LiveJobs(db: Db, r: RunId): set<JobId> {
    set j | j in db.jobs && db.jobs[j].spec.run == r && !Terminal(db.jobs[j].status)
  }

  ghost function CancelRun(db: Db, r: RunId, reason: string): Db
    requires Stored(db)
  {
    if r !in db.runs || RunOver(db.runs[r].status) then db
    else SetRun(CancelAll(db, Ascending(LiveJobs(db, r)), reason), r, RunCancelled, RunEvent(None, RunCancelled))
  }

  /* ------------------------------ creation ------------------------------ */

  /** `enqueueIn` */
  function Enqueue(db: Db, id: JobId, spec: Spec): Db
    requires spec.run in db.runs && spec.run in db.log
  {
    var r := spec.run;
    var job := Job(spec.(birth := db.births), Queued, None, None, 0, None, None);
    var db' := Move(db, id, job, StatusEvent(id, Queued, None, None, None));
    var used := db.runs[r].budget;
    db'.(births := db.births + 1,
         runs := db'.runs[r := db'.runs[r].(budget := used.(totalSpawns := used.totalSpawns + 1))])
  }

  function WithRun(db: Db, r: RunId, maxSpawns: nat, maxDepth: nat): Db {
    db.(runs := db.runs[r := RunRow(RunQueued, 0, Budget(0, maxSpawns, maxDepth))],
        log := db.log[r := []], closing := db.closing[r := []])
  }

  /** A run is opened together with its root captain. */
  function OpenRun(db: Db, r: RunId, root: JobId, maxSpawns: nat, maxDepth: nat, now: int): Db {
    Enqueue(WithRun(db, r, maxSpawns, maxDepth), root, Spec(r, None, 0, now, Captain, 10, 3, {}))
  }

  /** One child: the job, then the `agent.spawned` event that names its parent. */
  function SpawnOne(db: Db, parent: JobId, id: JobId, want: Want, now: int): Db
    requires Stored(db) && parent in db.jobs
  {
    var r := db.jobs[parent].spec.run;
    Append(Enqueue(db, id, Spec(r, Some(parent), 0, now, want.kind, want.priority, 3, want.deps)),
           r, Event(Some(id), Agent(parent), SpawnedChild(id)))
  }

  /** How many of `n` wants the run's budgets admit. */
  function Admitted(run: RunRow, depth: nat, n: nat): nat {
    if RunOver(run.status) || depth > run.budget.maxDepth then 0
    else Min(n, Max(0, run.budget.maxSpawns - run.budget.totalSpawns))
  }

  function SpawnMany(db: Db, parent: JobId, ids: seq<JobId>, wants: seq<Want>, now: int): (r: Db)
    requires Stored(db) && parent in db.jobs && |ids| == |wants|
    ensures Stored(r) && db.jobs.Keys <= r.jobs.Keys
    decreases |ids|
  {
    if ids == [] then db else SpawnMany(SpawnOne(db, parent, ids[0], wants[0], now), parent, ids[1..], wants[1..], now)
  }

  /** How many of the wants a request by `parent` gets. */
  ghost function Granted(db: Db, parent: JobId, wants: seq<Want>): (n: nat)
    requires Stored(db) && Tree(ShapeOf(db.jobs)) && parent in db.jobs
    ensures n <= |wants|
  {
    Admitted(db.runs[db.jobs[parent].spec.run], Depth(ShapeOf(db.jobs), parent) + 1, |wants|)
  }

  ghost function SpawnGranted(db: Db, parent: JobId, ids: seq<JobId>, wants: seq<Want>, now: int): Db
    requires Stored(db) && Tree(ShapeOf(db.jobs)) && parent in db.jobs && |ids| == |wants|
  {
    var n := Granted(db, parent, wants);
    SpawnMany(db, parent, ids[..n], wants[..n], now)
  }

  /** What a spawn request that has not been seen before is answered. */
  ghost function Answer(db: Db, parent: JobId, ids: seq<JobId>, wants: seq<Want>): Response
    requires Stored(db) && Tree(ShapeOf(db.jobs)) && parent in db.jobs && |ids| == |wants|
  {
    var n := Granted(db, parent, wants);
    Response(ids[..n], |wants| - n)
  }

  function WithReceipt(db: Db, parent: JobId, request: string, receipt: Receipt): Db {
    db.(receipts := db.receipts[(parent, request) := receipt])
  }

  /**
   * The `/agent/spawn` transaction. `ids` are the identifiers `newId` would hand out.
   * A request id that was seen before changes nothing, whether or not its payload matches.
   */
  ghost function Spawn(db: Db, parent: JobId, request: Option<string>, ids: seq<JobId>, wants: seq<Want>, now: int): Db
    requires Stored(db) && Tree(ShapeOf(db.jobs)) && parent in db.jobs && |ids| == |wants|
  {
    match request
    case None => SpawnGranted(db, parent, ids, wants, now)
    case Some(q) =>
      if (parent, q) in db.receipts then db
      else WithReceipt(SpawnGranted(db, parent, ids, wants, now), parent,
        q, Receipt(wants, Answer(db, parent, ids, wants)))
  }

  /** `/agent/events`: an agent reports something about itself, under its own address. */
  function Post(db: Db, j: JobId, body: Body): Db
    requires Stored(db)
  {
    if j in db.jobs then Append(db, db.jobs[j].spec.run, Event(Some(j), Agent(j), body)) else db
  }

  /** Events the plane itself appends about a run that move no job: a completed CI check, a budget notice. */
  function Announce(db: Db, r: RunId, job: Option<JobId>, text: string): Db
    requires Stored(db)
  {
    if r in db.runs then Append(db, r, Event(job, Orchestrator, Note(text))) else db
  }

  /* ------------------------------- steps ------------------------------- */

  datatype Step =
    | DoOpenRun(run: RunId, root: JobId, maxSpawns: nat, maxDepth: nat, now: int)
    | DoSpawn(parent: JobId, request: Option<string>, ids: seq<JobId>, wants: seq<Want>, now: int)
    | DoClaim(j: JobId, vm: VmId, until: int)
    | DoMarkRunning(j: JobId, vm: VmId)
    | DoHeartbeat(j: JobId, vm: VmId, until: int)
    | DoComplete(j: JobId, vm: VmId, summary: string)
    | DoFail(j: JobId, vm: VmId, error: string)
    | DoReap(batch: set<JobId>, now: int)
    | DoCancelSubtree(j: JobId, reason: string)
    | DoStartRun(run: RunId, j: JobId)
    | DoFinishRun(j: JobId)
    | DoCancelRun(run: RunId, reason: string)
    | DoPost(j: JobId, body: Body)
    | DoAnnounce(run: RunId, job: Option<JobId>, text: string)

  /** Identifiers nobody has used or mentioned yet: what `newId` is trusted to produce. */
  ghost predicate Fresh(db: Db, ids: seq<JobId>, wants: seq<Want>) {
    && (forall i :: 0 <= i < |ids| ==> ids[i] !in db.jobs && forall k :: k in db.jobs ==>
      ids[i] !in db.jobs[k].spec.deps)
    && (forall i, k :: 0 <= i < |ids| && 0 <= k < |wants| ==> ids[i] !in wants[k].deps)
    && (forall i, k :: 0 <= i < k < |ids| ==> ids[i] != ids[k])
  }

  /**
   * When a step can happen at all. `finishRun` is called for a root that has just
   * reported its result or its last failure, or lost its last lease; never for one
   * that was cancelled.
   */
  ghost predicate Enabled(db: Db, s: Step)
    requires Stored(db) && Tree(ShapeOf(db.jobs))
  {
    match s
    case DoOpenRun(r, root, maxSpawns, _, _) => r !in db.runs && Fresh(db, [root], []) && maxSpawns > 0
    case DoSpawn(parent, _, ids, wants, _) => parent in db.jobs && |ids| == |wants| && Fresh(db, ids, wants)
    case DoClaim(j, _, _) => Eligible(db, j, {}, None, None)
    case DoReap(batch, now) => forall j :: j in batch ==> Expired(db, j, now)
    case DoFinishRun(j) =>
      j in db.jobs && db.jobs[j].spec.parent.None? && (db.jobs[j].status.Succeeded? || db.jobs[j].status.Failed?)
    case _ => true
  }

  ghost function Next(db: Db, s: Step): Db
    requires Stored(db) && Tree(ShapeOf(db.jobs)) && Enabled(db, s)
  {
    match s
    case DoOpenRun(r, root, maxSpawns, maxDepth, now) => OpenRun(db, r, root, maxSpawns, maxDepth, now)
    case DoSpawn(parent, request, ids, wants, now) => Spawn(db, parent, request, ids, wants, now)
    case DoClaim(j, vm, until) => Claim(db, j, vm, until)
    case DoMarkRunning(j, vm) => MarkRunning(db, j, vm)
    case DoHeartbeat(j, vm, until) => Heartbeat(db, j, vm, until)
    case DoComplete(j, vm, summary) => Complete(db, j, vm, summary)
    case DoFail(j, vm, error) => Fail(db, j, vm, error)
    case DoReap(batch, _) => ReapAll(db, Ascending(batch))
    case DoCancelSubtree(j, reason) => CancelSubtree(db, j, reason)
    case DoStartRun(r, j) => StartRun(db, r, j)
    case DoFinishRun(j) => FinishRun(db, j)
    case DoCancelRun(r, reason) => CancelRun(db, r, reason)
    case DoPost(j, body) => Post(db, j, body)
    case DoAnnounce(r, job, text) => Announce(db, r, job, text)
  }
}
