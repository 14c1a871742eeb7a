/**
 * What each operation of the queue does, row by row and event by event: the outcomes the
 * laws about whole histories build on.
 */
module QueueEffects {
  import opened Common
  import opened Events
  import opened QueueModel
  import opened QueueInvariants
  import opened QueueProofs
  import opened QueueRuns
  import opened QueueTheorems
  import opened QueueLaws
  import opened QueueTrees
  import opened QueueEndings

  /* ------------------------------- one job's turns ------------------------------- */

  /** Nobody takes the job away or hands it out: its identity, attempts and holder stay. */
  predicate SameHand(a: Job, b: Job) { b.attempts == a.attempts && b.vm == a.vm }

  /**
   * The turns a job's row can take in one transaction. A claim costs an attempt and
   * gives a holder and a lease; only its holder's job starts, succeeds or is given back;
   * what is given back goes to the queue, free of its holder, while attempts remain, and
   * is dead only when they are used up; whoever is not over can be cancelled. Otherwise
   * the row stays, except that a lease may be extended.
   */
  predicate TakesTurn(a: Job, b: Job) {
    b.spec == a.spec &&
    match b.status
    case Claimed =>
      (a.status.Claimed? && LeaseOnly(a, b)) ||
      (a.status.Queued? && b.attempts == a.attempts + 1 && b.vm.Some? && b.lease.Some?
       && b.result == a.result && b.error == a.error)
    case Running => (a.status.Running? && LeaseOnly(a, b)) || (a.status.Claimed? && b == a.(status := Running))
    case Succeeded =>
      b == a || (Leased(a.status) && SameHand(a, b) && b.lease.None? && b.result.Some? && b.error.None?)
    case Queued =>
      b == a ||
      (Leased(a.status) && a.attempts < a.spec.maxAttempts && b.attempts == a.attempts
       && b.vm.None? && b.lease.None? && b.result == a.result && b.error.Some?)
    case Failed =>
      b == a ||
      (Leased(a.status) && a.attempts >= a.spec.maxAttempts && SameHand(a, b)
       && b.lease.None? && b.result == a.result && b.error.Some?)
    case Cancelled =>
      b == a ||
      (!Terminal(a.status) && SameHand(a, b) && b.lease.None? && b.result == a.result && b.error.Some?)
  }

  predicate LeaseOnly(a: Job, b: Job) { b == a || (a.vm.Some? && b.lease.Some? && b == a.(lease := b.lease)) }

  lemma TurnsSelf(a: Job)
    ensures TakesTurn(a, a)
  {}

  lemma RowsTurn(a: Job, reason: string)
    ensures !Terminal(a.status) ==> TakesTurn(a, CancelledRow(a, reason))
    ensures Leased(a.status) ==> TakesTurn(a, GivenBack(a, reason))
  {}

  lemma {:induction false} CancelTurns(db: Db, batch: set<JobId>, reason: string, j: JobId)
    requires Stored(db) && j in db.jobs && forall k :: k in batch ==> k in db.jobs && !Terminal(db.jobs[k].status)
    ensures var db' := CancelAll(db, Ascending(batch), reason); j in db'.jobs && TakesTurn(db.jobs[j], db'.jobs[j])
  {
    CancelAllExact(db, Ascending(batch), reason);
    RowsTurn(db.jobs[j], reason);
    TurnsSelf(db.jobs[j]);
    hide TakesTurn, CancelAll;
  }

  lemma {:induction false} ReapTurns(db: Db, batch: set<JobId>, j: JobId)
    requires Stored(db) && j in db.jobs && forall k :: k in batch ==> k in db.jobs && Leased(db.jobs[k].status)
    ensures var db' := ReapAll(db, Ascending(batch)); j in db'.jobs && TakesTurn(db.jobs[j], db'.jobs[j])
  {
    ReapAllExact(db, Ascending(batch));
    RowsTurn(db.jobs[j], LEASE_EXPIRED);
    TurnsSelf(db.jobs[j]);
    hide TakesTurn, ReapAll;
  }

  lemma {:induction false} FinishTurns(db: Db, a: JobId, j: JobId)
    requires Stored(db) && Tree(ShapeOf(db.jobs)) && a in db.jobs && j in db.jobs
    ensures j in FinishRun(db, a).jobs && TakesTurn(db.jobs[j], FinishRun(db, a).jobs[j])
  {
    TurnsSelf(db.jobs[j]);
    CancelTurns(db, LiveSubtree(db, a) - {a}, ROOT_FINISHED, j);
    hide TakesTurn, Within, CancelAll, Ascending, LiveSubtree, Tree, Closing;
  }

  lemma {:induction false} CancelRunTurns(db: Db, r: RunId, reason: string, j: JobId)
    requires Stored(db) && j in db.jobs
    ensures j in CancelRun(db, r, reason).jobs && TakesTurn(db.jobs[j], CancelRun(db, r, reason).jobs[j])
  {
    TurnsSelf(db.jobs[j]);
    CancelTurns(db, LiveJobs(db, r), reason, j);
    hide TakesTurn, CancelAll, Ascending, LiveJobs;
  }

  lemma {:induction false} BatchTurns(db: Db, s: Step, j: JobId)
    requires Stored(db) && Tree(ShapeOf(db.jobs)) && Enabled(db, s) && j in db.jobs
    requires s.DoReap? || s.DoCancelSubtree? || s.DoFinishRun? || s.DoCancelRun?
    ensures j in Next(db, s).jobs && TakesTurn(db.jobs[j], Next(db, s).jobs[j])
  {
    hide TakesTurn, Within, CancelAll, ReapAll, Ascending, FinishRun, CancelRun;
    match s
    case DoReap(batch, now) => ReapTurns(db, batch, j);
    case DoCancelSubtree(a, reason) => CancelTurns(db, LiveSubtree(db, a), reason, j);
    case DoFinishRun(a) => FinishTurns(db, a, j);
    case DoCancelRun(r, reason) => CancelRunTurns(db, r, reason, j);
  }

  lemma {:induction false} SingleTurns(db: Db, s: Step, j: JobId)
    requires Stored(db) && Tree(ShapeOf(db.jobs)) && Enabled(db, s) && j in db.jobs
    requires s.DoClaim? || s.DoMarkRunning? || s.DoHeartbeat? || s.DoComplete? || s.DoFail?
    ensures j in Next(db, s).jobs && TakesTurn(db.jobs[j], Next(db, s).jobs[j])
  {
    hide Tree, Stored, Ready;
  }

  lemma {:induction false} OtherTurns(db: Db, s: Step, j: JobId)
    requires Stored(db) && Tree(ShapeOf(db.jobs)) && Enabled(db, s) && j in db.jobs
    requires s.DoOpenRun? || s.DoStartRun? || s.DoPost? || s.DoAnnounce?
    requires s.DoOpenRun? ==> s.root !in db.jobs
    ensures j in Next(db, s).jobs && Next(db, s).jobs[j] == db.jobs[j]
  {
    hide Tree, Fresh;
  }

  lemma {:induction false} SpawnTurns(db: Db, s: Step, j: JobId)
    requires Stored(db) && Tree(ShapeOf(db.jobs)) && Enabled(db, s) && s.DoSpawn? && j in db.jobs
    ensures j in Next(db, s).jobs && Next(db, s).jobs[j] == db.jobs[j]
  {
    var n := Granted(db, s.parent, s.wants);
    FreshPrefix(db, s.ids, s.wants, n);
    hide Fresh, Granted, SpawnMany, Tree;
    SpawnLeaves(db, s.parent, s.ids[..n], s.wants[..n], s.now);
  }

  /** In every transaction every job takes a turn or stays. */
  lemma {:induction false} EveryTurn(db: Db, s: Step, j: JobId)
    requires Stored(db) && Tree(ShapeOf(db.jobs)) && Enabled(db, s) && j in db.jobs
    ensures j in Next(db, s).jobs && TakesTurn(db.jobs[j], Next(db, s).jobs[j])
  {
    NewRoot(db, s);
    TurnsSelf(db.jobs[j]);
    hide Next, Enabled, Tree, Stored, TakesTurn;
    if s.DoReap? || s.DoCancelSubtree? || s.DoFinishRun? || s.DoCancelRun? { BatchTurns(db, s, j); }
    else if s.DoSpawn? { SpawnTurns(db, s, j); }
    else if s.DoOpenRun? || s.DoStartRun? || s.DoPost? || s.DoAnnounce? { OtherTurns(db, s, j); }
    else { SingleTurns(db, s, j); }
  }

  lemma NewRoot(db: Db, s: Step)
    requires Stored(db) && Tree(ShapeOf(db.jobs)) && Enabled(db, s)
    ensures s.DoOpenRun? ==> s.root !in db.jobs
  {
    if s.DoOpenRun? { assert [s.root][0] == s.root; }
  }

  /* -------------------------------- new jobs -------------------------------- */

  /** A job as it is created: queued, in nobody's hands, with all its attempts left. */
  predicate NewJob(job: Job, r: RunId, parent: Option<JobId>, want: Want, priority: int, now: int) {
    && job == Job(job.spec, Queued, None, None, 0, None, None)
    && job.spec == Spec(r, parent, job.spec.birth, now, want.kind, priority, 3, want.deps)
  }

  /** The two events a new child is announced with. */
  function ChildEvents(parent: JobId, id: JobId): seq<Event> {
    [Event(Some(id), Orchestrator, StatusIs(Queued, None, None, None)),
      Event(Some(id), Agent(parent), SpawnedChild(id))]
  }

  function ChildrenEvents(parent: JobId, ids: seq<JobId>): seq<Event> {
    if ids == [] then [] else ChildEvents(parent, ids[0]) + ChildrenEvents(parent, ids[1..])
  }

  lemma {:induction false} SpawnOneEffect(db: Db, parent: JobId, id: JobId, want: Want, now: int)
    requires Stored(db) && parent in db.jobs && id !in db.jobs
    ensures var db1 := SpawnOne(db, parent, id, want, now); var r := db.jobs[parent].spec.run;
      && Stored(db1) && id in db1.jobs && db1.jobs == db.jobs[id := db1.jobs[id]]
      && NewJob(db1.jobs[id], r, Some(parent), want, want.priority, now)
      && db1.log == db.log[r := db.log[r] + ChildEvents(parent, id)]
      && db1.closing == db.closing && db1.receipts == db.receipts
  {
    var r, log := db.jobs[parent].spec.run, db.log[db.jobs[parent].spec.run];
    var first, second := ChildEvents(parent, id)[0], ChildEvents(parent, id)[1];
    assert (log + [first]) + [second] == log + ChildEvents(parent, id);
    assert db.log[r := log + [first]][r := (log + [first]) + [second]] == db.log[r := (log + [first]) + [second]];
  }

  lemma Chained(a: seq<Event>, b: seq<Event>, c: seq<Event>, x: seq<Event>, y: seq<Event>)
    requires x == a + b && y == x + c
    ensures y == a + (b + c)
  {}

  lemma Associates(a: seq<Event>, b: seq<Event>, c: seq<Event>)
    ensures (a + b) + c == a + (b + c)
  {}

  lemma NotThere(db: Db, ids: seq<JobId>, wants: seq<Want>)
    requires Fresh(db, ids, wants) && ids != []
    ensures ids[0] !in db.jobs
  {}

  lemma OneByOne(db: Db, parent: JobId, ids: seq<JobId>, wants: seq<Want>, now: int)
    requires Stored(db) && parent in db.jobs && |ids| == |wants| && ids != []
    ensures var db1 := SpawnOne(db, parent, ids[0], wants[0], now);
      && Stored(db1) && parent in db1.jobs
      && SpawnMany(db, parent, ids, wants, now) == SpawnMany(db1, parent, ids[1..], wants[1..], now)
      && ChildrenEvents(parent, ids) == ChildEvents(parent, ids[0]) + ChildrenEvents(parent, ids[1..])
  {
    hide ChildEvents;
  }

  lemma {:induction false} SpawnManyLog(db: Db, parent: JobId, ids: seq<JobId>, wants: seq<Want>, now: int)
    requires Stored(db) && parent in db.jobs && |ids| == |wants| && Fresh(db, ids, wants)
    ensures var db' := SpawnMany(db, parent, ids, wants, now); var r := db.jobs[parent].spec.run;
      && r in db.log && db'.log == db.log[r := db.log[r] + ChildrenEvents(parent, ids)]
      && db'.closing == db.closing && db'.receipts == db.receipts
    decreases |ids|
  {
    var r := db.jobs[parent].spec.run;
    if ids == [] {
      assert db.log[r] + [] == db.log[r];
    } else {
      hide *;
      var db1 := SpawnOne(db, parent, ids[0], wants[0], now);
      FreshTail(db, parent, ids, wants, now);
      NotThere(db, ids, wants);
      SpawnOneEffect(db, parent, ids[0], wants[0], now);
      SpawnManyLog(db1, parent, ids[1..], wants[1..], now);
      OneByOne(db, parent, ids, wants, now);
      Associates(db.log[r], ChildEvents(parent, ids[0]), ChildrenEvents(parent, ids[1..]));
    }
  }

  predicate ChildMade(db: Db, r: RunId, parent: JobId, id: JobId, want: Want, now: int) {
    id in db.jobs && NewJob(db.jobs[id], r, Some(parent), want, want.priority, now)
  }

  lemma {:induction false} SpawnManyRows(db: Db, parent: JobId, ids: seq<JobId>, wants: seq<Want>, now: int)
    requires Stored(db) && parent in db.jobs && |ids| == |wants| && Fresh(db, ids, wants)
    ensures forall i :: 0 <= i < |ids| ==>
      ChildMade(SpawnMany(db, parent, ids, wants, now), db.jobs[parent].spec.run, parent, ids[i], wants[i], now)
    decreases |ids|
  {
    if ids != [] {
      var db1, r := SpawnOne(db, parent, ids[0], wants[0], now), db.jobs[parent].spec.run;
      FreshTail(db, parent, ids, wants, now);
      SpawnOneEffect(db, parent, ids[0], wants[0], now);
      hide SpawnOne, NewJob, Stored, Fresh, ChildEvents;
      SpawnManyRows(db1, parent, ids[1..], wants[1..], now);
      SpawnLeaves(db1, parent, ids[1..], wants[1..], now);
      var db' := SpawnMany(db1, parent, ids[1..], wants[1..], now);
      forall i | 0 <= i < |ids| ensures ChildMade(db', r, parent, ids[i], wants[i], now) {
        if i > 0 { assert ids[i] == ids[1..][i - 1] && wants[i] == wants[1..][i - 1]; }
      }
    }
  }

  /**
   * Each job a spawn request creates is a new child of the asker, made as it was asked
   * for, and the stream gains exactly its report and the announcement by its parent.
   */
  lemma {:induction false} SpawnEffect(
      db: Db, parent: JobId, request: Option<string>, ids: seq<JobId>, wants: seq<Want>, now: int)
    requires Stored(db) && Tree(ShapeOf(db.jobs)) && Enabled(db, DoSpawn(parent, request, ids, wants, now))
    requires request.Some? ==> (parent, request.value) !in db.receipts
    ensures var db' := Spawn(db, parent, request, ids, wants, now); var r := db.jobs[parent].spec.run;
      var got := Answer(db, parent, ids, wants).spawned;
      && |got| <= |wants| && r in db.log && db'.log == db.log[r := db.log[r] + ChildrenEvents(parent, got)]
      && db'.closing == db.closing
      && forall i :: 0 <= i < |got| ==> ChildMade(db', r, parent, got[i], wants[i], now)
  {
    var n := Granted(db, parent, wants);
    FreshPrefix(db, ids, wants, n);
    hide Fresh, Granted, Tree, NewJob;
    SpawnManyLog(db, parent, ids[..n], wants[..n], now);
    SpawnManyRows(db, parent, ids[..n], wants[..n], now);
    hide SpawnMany, ChildrenEvents, ChildMade;
  }

  /**
   * A new run is queued, with its root captain as its only job and that job's report as
   * its only event; nothing else changes.
   */
  lemma {:induction false} OpenRunEffect(db: Db, r: RunId, root: JobId, maxSpawns: nat, maxDepth: nat, now: int)
    requires Stored(db) && r !in db.runs && root !in db.jobs
    ensures var db' := OpenRun(db, r, root, maxSpawns, maxDepth, now);
      && root in db'.jobs && db'.jobs == db.jobs[root := db'.jobs[root]]
      && NewJob(db'.jobs[root], r, None, Want(Captain, 10, {}), 10, now)
      && db'.runs == db.runs[r := RunRow(RunQueued, 1, Budget(1, maxSpawns, maxDepth))]
      && db'.log == db.log[r := [Event(Some(root), Orchestrator, StatusIs(Queued, None, None, None))]]
      && db'.closing == db.closing[r := []] && db'.receipts == db.receipts
  {
    var e := Event(Some(root), Orchestrator, StatusIs(Queued, None, None, None));
    assert [] + [e] == [e] && db.log[r := []][r := [e]] == db.log[r := [e]];
    var runs := OpenRun(db, r, root, maxSpawns, maxDepth, now).runs;
    assert runs[r] == RunRow(RunQueued, 1, Budget(1, maxSpawns, maxDepth)) && runs == db.runs[r := runs[r]];
  }

  /* ------------------------------ the holder's calls ------------------------------ */

  /** Nothing changes but the row of `j`, and the stream of its run, which gains `e`. */
  predicate OnlyMoves(db: Db, db': Db, j: JobId, e: Event)
    requires Stored(db) && j in db.jobs
  {
    var r := db.jobs[j].spec.run;
    && j in db'.jobs && db'.jobs == db.jobs[j := db'.jobs[j]] && db'.jobs[j].spec == db.jobs[j].spec
    && db' == db.(
         jobs := db'.jobs, log := db.log[r := db.log[r] + [e]],
         runs := db.runs[r := db.runs[r].(eventSeq := db.runs[r].eventSeq + 1)])
  }

  predicate HeldBy(db: Db, j: JobId, vm: VmId) {
    j in db.jobs && db.jobs[j].vm == Some(vm) && (db.jobs[j].status.Claimed? || db.jobs[j].status.Running?)
  }

  /** A claim hands the job over: an attempt is spent, and the holder has it until the lease runs out. */
  lemma {:induction false} ClaimEffect(db: Db, j: JobId, vm: VmId, until: int)
    requires Stored(db) && Tree(ShapeOf(db.jobs)) && Enabled(db, DoClaim(j, vm, until))
    ensures var db' := Claim(db, j, vm, until); var a := db.jobs[j];
      && OnlyMoves(db, db', j, Event(Some(j), Orchestrator, StatusIs(Claimed, Some(vm), Some(a.attempts + 1), None)))
      && db'.jobs[j] == Job(a.spec, Claimed, Some(vm), Some(until), a.attempts + 1, a.result, a.error)
      && HeldBy(db', j, vm)
  {
    hide Tree, Ready;
  }

  /** What the holder says counts, and what anybody else says does not: a start ... */
  lemma {:induction false} StartEffect(db: Db, j: JobId, vm: VmId)
    requires Stored(db)
    ensures var db' := MarkRunning(db, j, vm);
      if HeldBy(db, j, vm) && db.jobs[j].status.Claimed? then
        && OnlyMoves(db, db', j, Event(Some(j), Orchestrator, StatusIs(Running, Some(vm), None, None)))
        && db'.jobs[j] == db.jobs[j].(status := Running)
      else db' == db
  {}

  /** ... a heartbeat ... */
  lemma {:induction false} BeatEffect(db: Db, j: JobId, vm: VmId, until: int, now: int)
    requires Stored(db)
    ensures var db' := Heartbeat(db, j, vm, until);
      if HeldBy(db, j, vm) then
        && j in db'.jobs && db' == db.(jobs := db.jobs[j := db'.jobs[j]])
        && db'.jobs[j] == db.jobs[j].(lease := Some(until))
        && (Expired(db', j, now) <==> until < now)
      else db' == db
  {}

  /** ... a result ... */
  lemma {:induction false} CompleteEffect(db: Db, j: JobId, vm: VmId, summary: string)
    requires Stored(db)
    ensures var db' := Complete(db, j, vm, summary);
      if HeldBy(db, j, vm) then
        var a := db.jobs[j];
        && OnlyMoves(db, db', j,
             Event(Some(j), Orchestrator,
               StatusIs(Succeeded, Some(vm), None, if summary == "" then None else Some(summary))))
        && db'.jobs[j] == Job(a.spec, Succeeded, a.vm, None, a.attempts, Some(summary), None)
      else db' == db
  {}

  /**
   * ... and a failure. The job goes back to the queue, free of its holder, if and only if
   * it has attempts left; otherwise it is dead. Its report names what became of it.
   */
  lemma {:induction false} FailEffect(db: Db, j: JobId, vm: VmId, error: string)
    requires Stored(db)
    ensures var db' := Fail(db, j, vm, error);
      if HeldBy(db, j, vm) then
        var a := db.jobs[j];
        && j in db'.jobs && (db'.jobs[j].status.Queued? <==> a.attempts < a.spec.maxAttempts)
        && db'.jobs[j] == (if a.attempts < a.spec.maxAttempts
             then Job(a.spec, Queued, None, None, a.attempts, a.result, Some(error))
             else Job(a.spec, Failed, Some(vm), None, a.attempts, a.result, Some(error)))
        && OnlyMoves(db, db', j,
             Event(Some(j), Orchestrator,
               StatusIs(db'.jobs[j].status, Some(vm), Some(a.attempts), if error == "" then None else Some(error))))
      else db' == db
  {}

  /* --------------------------------- reaping --------------------------------- */

  /** What the reaper makes of a row: back to the queue while attempts remain, dead when they are used up. */
  predicate GivenUp(a: Job, b: Job) {
    b == if a.attempts < a.spec.maxAttempts
         then Job(a.spec, Queued, None, None, a.attempts, a.result, Some("lease expired"))
         else Job(a.spec, Failed, a.vm, None, a.attempts, a.result, Some("lease expired"))
  }

  /** The reports of a batch in one run's stream. */
  function ReapReports(jobs: map<JobId, Job>, js: seq<JobId>, r: RunId): seq<Event>
    requires forall j :: j in js ==> j in jobs
  {
    if js == [] then []
    else
      var j := js[0];
      var e := Event(Some(j), Orchestrator,
        StatusIs(if jobs[j].attempts < jobs[j].spec.maxAttempts then Queued else Failed, None, Some(jobs[j].attempts),
                 Some("lease expired")));
      (if jobs[j].spec.run == r then [e] else []) + ReapReports(jobs, js[1..], r)
  }

  lemma {:induction false} ReapOneEffect(db: Db, j: JobId)
    requires Stored(db) && j in db.jobs
    ensures var db1 := ReapOne(db, j);
      && Stored(db1) && j in db1.jobs && db1.jobs == db.jobs[j := db1.jobs[j]] && GivenUp(db.jobs[j], db1.jobs[j])
      && db1.log.Keys == db.log.Keys
      && forall r :: r in db.log ==> db1.log[r] == db.log[r] + ReapReports(db.jobs, [j], r)
  {
    assert [j][1..] == [];
  }

  lemma {:induction false} SameReports(jobs: map<JobId, Job>, jobs': map<JobId, Job>, js: seq<JobId>, r: RunId)
    requires forall j :: j in js ==> j in jobs && j in jobs' && jobs'[j] == jobs[j]
    ensures ReapReports(jobs', js, r) == ReapReports(jobs, js, r)
    decreases |js|
  {
    if js != [] { SameReports(jobs, jobs', js[1..], r); }
  }

  lemma FirstReport(jobs: map<JobId, Job>, js: seq<JobId>, r: RunId)
    requires js != [] && forall j :: j in js ==> j in jobs
    ensures ReapReports(jobs, js, r) == ReapReports(jobs, [js[0]], r) + ReapReports(jobs, js[1..], r)
  {
    assert [js[0]][1..] == [];
  }

  lemma {:induction false} ReapAllRows(db: Db, js: seq<JobId>)
    requires Stored(db) && Increasing(js) && forall j :: j in js ==> j in db.jobs
    ensures var db' := ReapAll(db, js);
      && db'.jobs.Keys == db.jobs.Keys
      && (forall j :: j in js ==> GivenUp(db.jobs[j], db'.jobs[j]))
      && (forall j :: j in db.jobs && j !in js ==> db'.jobs[j] == db.jobs[j])
    decreases |js|
  {
    if js != [] {
      ReapOneEffect(db, js[0]);
      assert js[0] !in js[1..] && forall j :: j in js <==> j == js[0] || j in js[1..];
      hide ReapOne, GivenUp, Stored, ReapReports;
      ReapAllRows(ReapOne(db, js[0]), js[1..]);
    }
  }

  lemma ReapStep(db: Db, js: seq<JobId>)
    requires Stored(db) && js != [] && forall j :: j in js ==> j in db.jobs
    ensures var db1 := ReapOne(db, js[0]);
      Stored(db1) && db1.jobs.Keys == db.jobs.Keys && ReapAll(db, js) == ReapAll(db1, js[1..])
  {}

  lemma {:induction false} ReapAllLog(db: Db, js: seq<JobId>, r: RunId)
    requires Stored(db) && Increasing(js) && (forall j :: j in js ==> j in db.jobs) && r in db.log
    ensures var db' := ReapAll(db, js);
      db'.log.Keys == db.log.Keys && db'.log[r] == db.log[r] + ReapReports(db.jobs, js, r)
    decreases |js|
  {
    if js != [] {
      assert Increasing(js[1..]) && forall j :: j in js[1..] ==> j != js[0] && j in js;
      hide *;
      var db1 := ReapOne(db, js[0]);
      ReapOneEffect(db, js[0]);
      FirstReport(db.jobs, js, r);
      ReapStep(db, js);
      SameReports(db.jobs, db1.jobs, js[1..], r);
      ReapAllLog(db1, js[1..], r);
      Chained(db.log[r], ReapReports(db.jobs, [js[0]], r), ReapReports(db.jobs, js[1..], r),
        db1.log[r], ReapAll(db, js).log[r]);
    } else {
      assert db.log[r] + [] == db.log[r];
    }
  }

  lemma {:induction false} ReapKeys(db: Db, js: seq<JobId>)
    requires Stored(db) && forall j :: j in js ==> j in db.jobs
    ensures ReapAll(db, js).log.Keys == db.log.Keys
    decreases |js|
  {
    if js != [] { ReapKeys(ReapOne(db, js[0]), js[1..]); }
  }

  /**
   * A pass of the reaper gives every job of its batch up and touches no other: those with
   * attempts left go back to the queue, the others are dead, and each run's stream gains
   * exactly the reports of its own.
   */
  lemma {:induction false} ReapEffect(db: Db, batch: set<JobId>, now: int)
    requires Stored(db) && Tree(ShapeOf(db.jobs)) && Enabled(db, DoReap(batch, now))
    ensures forall j :: j in Ascending(batch) ==> j in db.jobs
    ensures var db' := Next(db, DoReap(batch, now));
      && db'.jobs.Keys == db.jobs.Keys && db'.log.Keys == db.log.Keys
      && (forall j :: j in batch ==> GivenUp(db.jobs[j], db'.jobs[j]))
      && (forall j :: j in db.jobs && j !in batch ==> db'.jobs[j] == db.jobs[j])
      && (forall r :: r in db.log ==> db'.log[r] == db.log[r] + ReapReports(db.jobs, Ascending(batch), r))
  {
    var db' := ReapAll(db, Ascending(batch));
    ReapAllRows(db, Ascending(batch));
    hide GivenUp, ReapReports, Tree, ReapAll;
    forall r | r in db.log
      ensures db'.log.Keys == db.log.Keys && db'.log[r] == db.log[r] + ReapReports(db.jobs, Ascending(batch), r)
    { ReapAllLog(db, Ascending(batch), r); }
    ReapKeys(db, Ascending(batch));
  }

  /* ------------------------------ how jobs die ------------------------------ */

  /** A job is dead only when its attempts are used up. */
  predicate DeadAreSpent(db: Db) {
    forall j :: j in db.jobs && db.jobs[j].status.Failed? ==> db.jobs[j].attempts >= db.jobs[j].spec.maxAttempts
  }

  lemma {:induction false} NewAreAlive(db: Db, s: Step)
    requires Stored(db) && Tree(ShapeOf(db.jobs)) && Enabled(db, s)
    ensures forall j :: j in Next(db, s).jobs && j !in db.jobs ==> Next(db, s).jobs[j].status.Queued?
  {
    if s.DoSpawn? {
      var n := Granted(db, s.parent, s.wants);
      FreshPrefix(db, s.ids, s.wants, n);
      SpawnManyExact(db, s.parent, s.ids[..n], s.wants[..n], s.now);
      SpawnManyKeys(db, s.parent, s.ids[..n], s.wants[..n], s.now);
      hide SpawnMany, Fresh, Granted, Tree;
    } else if s.DoOpenRun? {
      hide Tree, Fresh;
    } else {
      hide *;
      NoNewJob(db, s);
    }
  }

  lemma {:induction false} DeadStaySpent(db: Db, steps: seq<Step>, db': Db)
    requires Leads(db, steps, db') && DeadAreSpent(db)
    ensures DeadAreSpent(db')
    decreases |steps|
  {
    if steps != [] {
      hide *;
      LeadsOn(db, steps, db');
      OneMoreStep(db, steps[0]);
      DeadStaySpent(Next(db, steps[0]), steps[1..], db');
    } else {
      hide DeadAreSpent;
    }
  }

  lemma {:induction false} OneMoreStep(db: Db, s: Step)
    requires Stored(db) && Tree(ShapeOf(db.jobs)) && Enabled(db, s) && DeadAreSpent(db)
    ensures DeadAreSpent(Next(db, s))
  {
    hide *;
    var db1 := Next(db, s);
    NewAreAlive(db, s);
    forall j | j in db1.jobs && j in db.jobs ensures TakesTurn(db.jobs[j], db1.jobs[j]) { EveryTurn(db, s, j); }
    TurnsKeepSpent(db, db1);
  }

  lemma TurnsKeepSpent(db: Db, db1: Db)
    requires DeadAreSpent(db) && forall j :: j in db1.jobs && j !in db.jobs ==> db1.jobs[j].status.Queued?
    requires forall j :: j in db1.jobs && j in db.jobs ==> TakesTurn(db.jobs[j], db1.jobs[j])
    ensures DeadAreSpent(db1)
  {}

  lemma LeadsOn(db: Db, steps: seq<Step>, db': Db)
    requires Leads(db, steps, db') && steps != []
    ensures Stored(db) && Tree(ShapeOf(db.jobs)) && Enabled(db, steps[0]) && Leads(Next(db, steps[0]), steps[1..], db')
  {}

  /**
   * No job dies early. In every history the plane reports a job failed only when all its
   * attempts are used up; whoever fails with attempts left is tried again.
   */
  lemma {:induction false} FailedOnlyWhenUsedUp(steps: seq<Step>, db: Db, r: RunId, j: JobId, a: nat)
    requires Leads(EMPTY_DB, steps, db) && r in db.log && a < |History(db.log[r], j)|
    requires History(db.log[r], j)[a].Failed?
    ensures HomeOf(db, r, j) && db.jobs[j].status.Failed? && db.jobs[j].attempts == db.jobs[j].spec.maxAttempts
  {
    hide *;
    Reachable(steps, db);
    LogHasRun(db, r);
    StreamReproducesState(steps, db, r, j);
    FailedIsTerminal();
    TerminalReportsAreLast(steps, db, r, j, a);
    NothingDead();
    DeadStaySpent(EMPTY_DB, steps, db);
    NonEmpty(History(db.log[r], j), a);
    AtHome(db, r, j);
    BoundedLife(steps, db, j);
    AppliesTo(db, j);
  }

  lemma LogHasRun(db: Db, r: RunId)
    requires Inv(db) && r in db.log
    ensures r in db.runs
  {}

  lemma FailedIsTerminal()
    ensures Terminal(Failed)
  {}

  lemma NothingDead()
    ensures DeadAreSpent(EMPTY_DB)
  {}

  lemma AtHome(db: Db, r: RunId, j: JobId)
    requires HomeOf(db, r, j)
    ensures j in db.jobs
  {}

  lemma NonEmpty(s: seq<JobStatus>, a: nat)
    requires a < |s|
    ensures s != []
  {}

  lemma AppliesTo(db: Db, j: JobId)
    requires DeadAreSpent(db) && j in db.jobs && db.jobs[j].status.Failed?
    ensures db.jobs[j].attempts >= db.jobs[j].spec.maxAttempts
  {}

  /* --------------------------- how runs begin and end --------------------------- */

  /** The row of a job that was cancelled for `reason`. */
  predicate CalledOff(a: Job, b: Job, reason: string) {
    b == Job(a.spec, Cancelled, a.vm, None, a.attempts, a.result, Some(reason))
  }

  /** Only the row of run `r` differs, and its budget does not. */
  predicate OnlyRun(db: Db, db': Db, r: RunId) {
    && r in db.runs && r in db'.runs && db'.runs == db.runs[r := db'.runs[r]] && db'.runs[r].budget == db.runs[r].budget
    && db'.receipts == db.receipts && db'.births == db.births
  }

  lemma {:induction false} CancelAllRun(db: Db, js: seq<JobId>, reason: string, r: RunId)
    requires Stored(db) && r in db.runs && forall j :: j in js ==> j in db.jobs && db.jobs[j].spec.run == r
    ensures var db' := CancelAll(db, js, reason);
      && OnlyRun(db, db', r) && db'.closing == db.closing
      && db'.runs[r] == db.runs[r].(eventSeq := db.runs[r].eventSeq + |js|)
    decreases |js|
  {
    if js != [] {
      CancelOneRun(db, js[0], reason);
      var db1 := CancelOne(db, js[0], reason);
      hide CancelOne, Stored, OnlyRun;
      CancelAllRun(db1, js[1..], reason, r);
      OnlyRunTwice(db, db1, CancelAll(db1, js[1..], reason), r);
    }
  }

  lemma {:induction false} CancelOneRun(db: Db, j: JobId, reason: string)
    requires Stored(db) && j in db.jobs
    ensures var db' := CancelOne(db, j, reason); var r := db.jobs[j].spec.run;
      && Stored(db') && OnlyRun(db, db', r) && db'.closing == db.closing
      && db'.jobs.Keys == db.jobs.Keys && (forall k :: k in db.jobs ==> db'.jobs[k].spec == db.jobs[k].spec)
      && db'.runs[r] == db.runs[r].(eventSeq := db.runs[r].eventSeq + 1)
  {}

  lemma OnlyRunTwice(db: Db, db1: Db, db2: Db, r: RunId)
    requires OnlyRun(db, db1, r) && OnlyRun(db1, db2, r)
    ensures OnlyRun(db, db2, r)
  {
    assert db2.runs == db.runs[r := db2.runs[r]];
  }

  /** Exactly the jobs of `live` were cancelled for `reason`. */
  predicate RowsOff(db: Db, db': Db, live: set<JobId>, reason: string) {
    && db'.jobs.Keys == db.jobs.Keys
    && (forall j :: j in live && j in db.jobs ==> CalledOff(db.jobs[j], db'.jobs[j], reason))
    && (forall j :: j in db.jobs && j !in live ==> db'.jobs[j] == db.jobs[j])
  }

  lemma {:induction false} BatchRows(db: Db, live: set<JobId>, reason: string)
    requires Stored(db) && live <= db.jobs.Keys
    ensures RowsOff(db, CancelAll(db, Ascending(live), reason), live, reason)
      && Stored(CancelAll(db, Ascending(live), reason))
  {
    CancelAllExact(db, Ascending(live), reason);
    hide CancelAll;
  }

  lemma OnlyAt(log: map<RunId, seq<Event>>, log': map<RunId, seq<Event>>, r: RunId)
    requires log'.Keys == log.Keys && r in log && forall q :: q in log && q != r ==> log'[q] == log[q]
    ensures log' == log[r := log'[r]]
  {}

  lemma {:induction false} BatchLog(db: Db, live: set<JobId>, reason: string, r: RunId)
    requires Stored(db) && r in db.runs && forall j :: j in live ==> j in db.jobs && db.jobs[j].spec.run == r
    ensures var db1 := CancelAll(db, Ascending(live), reason);
      r in db.log && db1.log == db.log[r := db.log[r] + CancelEvents(Ascending(live), reason)]
  {
    assert r in db.log;
    hide *;
    CancelAllLog(db, Ascending(live), reason, r);
    OnlyAt(db.log, CancelAll(db, Ascending(live), reason).log, r);
  }

  lemma {:induction false} BatchRun(db: Db, live: set<JobId>, reason: string, r: RunId)
    requires Stored(db) && r in db.runs && forall j :: j in live ==> j in db.jobs && db.jobs[j].spec.run == r
    ensures var db1 := CancelAll(db, Ascending(live), reason);
      && OnlyRun(db, db1, r) && db1.closing == db.closing
      && db1.runs[r] == db.runs[r].(eventSeq := db.runs[r].eventSeq + |live|)
  {
    CancelAllRun(db, Ascending(live), reason, r);
    AscendingCounts(live);
    hide CancelAll, OnlyRun;
  }

  /** A run's row and stream after it has been closed. */
  lemma {:induction false} SetRunEffect(db: Db, r: RunId, s: RunStatus, e: Event)
    requires r in db.runs && r in db.log
    ensures var db' := SetRun(db, r, s, e);
      && db'.jobs == db.jobs && db'.closing == db.closing && OnlyRun(db, db', r)
      && db'.runs[r] == db.runs[r].(status := s, eventSeq := db.runs[r].eventSeq + 1)
      && db'.log == db.log[r := db.log[r] + [e]]
  {}

  /** The jobs of run `r` that have neither succeeded nor failed nor been cancelled. */
  predicate AliveIn(db: Db, r: RunId, j: JobId) {
    && j in db.jobs && db.jobs[j].spec.run == r
    && !db.jobs[j].status.Succeeded? && !db.jobs[j].status.Failed? && !db.jobs[j].status.Cancelled?
  }

  /**
   * Cancelling an open run is exact: its live jobs, and no others, are cancelled for that
   * reason; its stream gains one report for each of them and then its own ending; it
   * writes no closing turn, and no other run, row, stream or thread changes.
   */
  lemma {:induction false} CancelRunExact(db: Db, r: RunId, reason: string, live: set<JobId>)
    requires Stored(db) && r in db.runs && !RunOver(db.runs[r].status) && forall j :: j in live <==> AliveIn(db, r, j)
    ensures var db' := CancelRun(db, r, reason);
      && db'.jobs.Keys == db.jobs.Keys
      && (forall j :: j in db.jobs && AliveIn(db, r, j) ==> CalledOff(db.jobs[j], db'.jobs[j], reason))
      && (forall j :: j in db.jobs && !AliveIn(db, r, j) ==> db'.jobs[j] == db.jobs[j])
      && db'.log == db.log[r :=
           (db.log[r] + CancelEvents(Ascending(live), reason)) + [Event(None, Orchestrator, RunIs(RunCancelled))]]
      && OnlyRun(db, db', r) && db'.runs[r].status == RunCancelled
      && db'.runs[r].eventSeq == db.runs[r].eventSeq + |live| + 1 && db'.closing == db.closing
  {
    hide *;
    AliveAre(db, r, live);
    var db1 := CancelAll(db, Ascending(live), reason);
    BatchRows(db, live, reason);
    BatchLog(db, live, reason, r);
    BatchRun(db, live, reason, r);
    CancelRunIs(db, r, reason);
    InOnlyRun(db, db1, r);
    SetRunEffect(db1, r, RunCancelled, Event(None, Orchestrator, RunIs(RunCancelled)));
    OnlyRunTwice(db, db1, CancelRun(db, r, reason), r);
    RowsOffKept(db, db1, CancelRun(db, r, reason), live, reason);
    RowsOffAlive(db, CancelRun(db, r, reason), r, live, reason);
  }

  lemma AliveAre(db: Db, r: RunId, live: set<JobId>)
    requires forall j :: j in live <==> AliveIn(db, r, j)
    ensures LiveJobs(db, r) == live && live <= db.jobs.Keys
    ensures forall j :: j in live ==> j in db.jobs && db.jobs[j].spec.run == r
  {}

  lemma InOnlyRun(db: Db, db': Db, r: RunId)
    requires OnlyRun(db, db', r)
    ensures r in db'.runs
  {}

  lemma CancelRunIs(db: Db, r: RunId, reason: string)
    requires Stored(db) && r in db.runs && !RunOver(db.runs[r].status)
    ensures var db1 := CancelAll(db, Ascending(LiveJobs(db, r)), reason);
      CancelRun(db, r, reason) == SetRun(db1, r, RunCancelled, Event(None, Orchestrator, RunIs(RunCancelled)))
  {
    hide CancelAll, LiveJobs, SetRun;
  }

  lemma RowsOffKept(db: Db, db1: Db, db2: Db, live: set<JobId>, reason: string)
    requires RowsOff(db, db1, live, reason) && db2.jobs == db1.jobs
    ensures RowsOff(db, db2, live, reason)
  {}

  lemma RowsOffAlive(db: Db, db': Db, r: RunId, live: set<JobId>, reason: string)
    requires RowsOff(db, db', live, reason) && forall j :: j in live <==> AliveIn(db, r, j)
    ensures db'.jobs.Keys == db.jobs.Keys
      && (forall j :: j in db.jobs && AliveIn(db, r, j) ==> CalledOff(db.jobs[j], db'.jobs[j], reason))
      && (forall j :: j in db.jobs && !AliveIn(db, r, j) ==> db'.jobs[j] == db.jobs[j])
  {}

  /** Cancelling a run that is over, or unknown, changes nothing. */
  lemma {:induction false} CancelRunTwice(db: Db, r: RunId, reason: string)
    requires Stored(db) && (r !in db.runs || RunOver(db.runs[r].status))
    ensures CancelRun(db, r, reason) == db
  {}

  /** What is alive beneath a root. */
  ghost predicate AliveBeneath(db: Db, root: JobId, j: JobId)
    requires Tree(ShapeOf(db.jobs))
  {
    && j in db.jobs && j != root && Within(ShapeOf(db.jobs), root, j)
    && !db.jobs[j].status.Succeeded? && !db.jobs[j].status.Failed? && !db.jobs[j].status.Cancelled?
  }

  lemma {:induction false} FinishRunIs(db: Db, root: JobId)
    requires Stored(db) && Tree(ShapeOf(db.jobs)) && root in db.jobs && !RunOver(db.runs[db.jobs[root].spec.run].status)
    ensures var r := db.jobs[root].spec.run; var db' := FinishRun(db, root);
      var s := if db.jobs[root].status.Succeeded? then RunStatus.Completed else RunFailed;
      var db1 := CancelAll(db, Ascending(LiveSubtree(db, root) - {root}), ROOT_FINISHED);
      && r in db1.closing && r in db1.runs && r in db1.log
      && db' == SetRun(db1.(closing := db1.closing[r := db1.closing[r] + [Closing(db.jobs[root])]]), r, s,
                       Event(Some(root), Orchestrator, RunIs(s)))
  {
    hide CancelAll, LiveSubtree, SetRun, Within, Closing, Tree;
  }

  lemma OnlyThread(db: Db, db1: Db, r: RunId, closing: map<RunId, seq<string>>)
    requires OnlyRun(db, db1, r)
    ensures OnlyRun(db, db1.(closing := closing), r)
  {}

  lemma {:induction false} Beneath(db: Db, root: JobId, beneath: set<JobId>)
    requires Stored(db) && Tree(ShapeOf(db.jobs)) && root in db.jobs
    requires forall j :: j in beneath <==> AliveBeneath(db, root, j)
    ensures LiveSubtree(db, root) - {root} == beneath && beneath <= db.jobs.Keys && db.jobs[root].spec.run in db.runs
    ensures forall j :: j in beneath ==> j in db.jobs && db.jobs[j].spec.run == db.jobs[root].spec.run
    ensures ROOT_FINISHED == "root captain finished"
  {
    forall j | j in beneath ensures db.jobs[j].spec.run == db.jobs[root].spec.run {
      SubtreeInRun(ShapeOf(db.jobs), root, j);
    }
    hide Within, Tree;
  }

  /**
   * The end of a run by its root is exact: what is alive beneath the root, and nothing
   * else, is cancelled; the stream gains one report for each and then the run's ending;
   * and no other run, row or stream changes.
   */
  lemma {:induction false} FinishRunExact(db: Db, root: JobId, beneath: set<JobId>)
    requires Stored(db) && Tree(ShapeOf(db.jobs)) && root in db.jobs && !RunOver(db.runs[db.jobs[root].spec.run].status)
    requires forall j :: j in beneath <==> AliveBeneath(db, root, j)
    ensures var db' := FinishRun(db, root); var r := db.jobs[root].spec.run;
      var s := if db.jobs[root].status.Succeeded? then RunStatus.Completed else RunFailed;
      && RowsOff(db, db', beneath, "root captain finished")
      && r in db.log && db'.log == db.log[r := (db.log[r] + CancelEvents(Ascending(beneath), "root captain finished"))
           + [Event(Some(root), Orchestrator, RunIs(s))]]
      && OnlyRun(db, db', r) && db'.runs[r].status == s
  {
    hide *;
    var r := db.jobs[root].spec.run;
    var s := if db.jobs[root].status.Succeeded? then RunStatus.Completed else RunFailed;
    Beneath(db, root, beneath);
    var db1 := CancelAll(db, Ascending(beneath), ROOT_FINISHED);
    FinishRunIs(db, root);
    BatchRows(db, beneath, ROOT_FINISHED);
    BatchLog(db, beneath, ROOT_FINISHED, r);
    BatchRun(db, beneath, ROOT_FINISHED, r);
    var db2 := db1.(closing := db1.closing[r := db1.closing[r] + [Closing(db.jobs[root])]]);
    OnlyThread(db, db1, r, db2.closing);
    SetRunEffect(db2, r, s, Event(Some(root), Orchestrator, RunIs(s)));
    OnlyRunTwice(db, db2, FinishRun(db, root), r);
    RowsOffKept(db, db1, FinishRun(db, root), beneath, ROOT_FINISHED);
  }

  /**
   * The thread gets one turn for it, and no other thread any: the root's summary if it has
   * one, else what it failed with, else the bare fact.
   */
  lemma {:induction false} FinishRunAnswers(db: Db, root: JobId)
    requires Stored(db) && Tree(ShapeOf(db.jobs)) && root in db.jobs && !RunOver(db.runs[db.jobs[root].spec.run].status)
    ensures var r := db.jobs[root].spec.run; var a := db.jobs[root]; var closing := FinishRun(db, root).closing;
      && r in db.closing && r in closing && closing == db.closing[r := closing[r]]
      && (a.result.Some? ==> closing[r] == db.closing[r] + [a.result.value])
      && (a.result.None? && a.error.Some? ==> closing[r] == db.closing[r] + [a.error.value])
      && (a.result.None? && a.error.None? && a.status.Failed? ==>
            closing[r] == db.closing[r] + ["the captain failed"])
  {
    var r := db.jobs[root].spec.run;
    var db1 := CancelAll(db, Ascending(LiveSubtree(db, root) - {root}), ROOT_FINISHED);
    CancelAllExact(db, Ascending(LiveSubtree(db, root) - {root}), ROOT_FINISHED);
    assert r in db.closing && db1.closing == db.closing;
    FinishRunIs(db, root);
    ClosingSays(db.jobs[root]);
    hide *;
    var s := if db.jobs[root].status.Succeeded? then RunStatus.Completed else RunFailed;
    SetRunEffect(db1.(closing := db1.closing[r := db1.closing[r] + [Closing(db.jobs[root])]]), r, s,
      Event(Some(root), Orchestrator, RunIs(s)));
  }

  lemma ClosingSays(a: Job)
    ensures a.result.Some? ==> Closing(a) == a.result.value
    ensures a.result.None? && a.error.Some? ==> Closing(a) == a.error.value
    ensures a.result.None? && a.error.None? && a.status.Failed? ==> Closing(a) == "the captain failed"
  {}

  /** The first start of a run's agents announces it as running, and no later one does anything. */
  lemma {:induction false} StartRunEffect(db: Db, r: RunId, j: JobId)
    requires Stored(db)
    ensures var db' := StartRun(db, r, j);
      if r in db.runs && db.runs[r].status.RunQueued? then
        && OnlyRun(db, db', r) && db'.jobs == db.jobs && db'.closing == db.closing
        && db'.runs[r].status == RunRunning && db'.runs[r].eventSeq == db.runs[r].eventSeq + 1
        && db'.log == db.log[r := db.log[r] + [Event(Some(j), Orchestrator, RunIs(RunRunning))]]
        && StartRun(db', r, j) == db'
      else db' == db
  {}

  /** What an agent posts is one event of its own run, under its own address, and moves nothing. */
  lemma {:induction false} PostEffect(db: Db, j: JobId, body: Body)
    requires Stored(db) && j in db.jobs
    ensures var db' := Post(db, j, body); var r := db.jobs[j].spec.run;
      && OnlyRun(db, db', r) && db'.jobs == db.jobs && db'.closing == db.closing
      && db'.runs[r] == db.runs[r].(eventSeq := db.runs[r].eventSeq + 1)
      && db'.log == db.log[r := db.log[r] + [Event(Some(j), Agent(j), body)]]
  {}

  /** What the plane announces about a run is one event of that run, and moves nothing. */
  lemma {:induction false} AnnounceEffect(db: Db, r: RunId, job: Option<JobId>, text: string)
    requires Stored(db)
    ensures var db' := Announce(db, r, job, text);
      if r in db.runs then
        && OnlyRun(db, db', r) && db'.jobs == db.jobs && db'.closing == db.closing
        && db'.runs[r] == db.runs[r].(eventSeq := db.runs[r].eventSeq + 1)
        && db'.log == db.log[r := db.log[r] + [Event(job, Orchestrator, Note(text))]]
      else db' == db
  {}

  /**
   * `/agent/cancel-child` does what it is asked exactly for the caller's own subtree: if
   * the target is the caller or beneath it, everything alive beneath the target is
   * cancelled for that reason and nothing else changes its row; any other target leaves
   * the database as it was.
   */
  lemma {:induction false} CancelChildExact(db: Db, caller: JobId, target: JobId, reason: string)
    requires Stored(db) && Tree(ShapeOf(db.jobs)) && caller in db.jobs
    ensures var db' := CancelChild(db, caller, target, reason); var t := ShapeOf(db.jobs);
      if target in db.jobs && Within(t, caller, target) then
        && db'.jobs.Keys == db.jobs.Keys
        && forall j :: j in db.jobs ==>
             if Within(t, target, j) && !Terminal(db.jobs[j].status) then CalledOff(db.jobs[j], db'.jobs[j], reason)
             else db'.jobs[j] == db.jobs[j]
      else db' == db
  {
    if target in db.jobs {
      OwnershipExact(ShapeOf(db.jobs), caller, target);
      if Within(ShapeOf(db.jobs), caller, target) { SubtreeInRun(ShapeOf(db.jobs), caller, target); }
      CancelSubtreeRows(db, target, reason);
    }
    hide CancelSubtree, Owned, Within, Tree;
  }

  predicate MayTake(db: Db, k: JobId, kinds: set<Kind>, run: Option<RunId>, locked: set<JobId>) {
    && k in db.jobs && k !in locked && db.jobs[k].status.Queued?
    && (kinds == {} || db.jobs[k].spec.kind in kinds) && (run.None? || db.jobs[k].spec.run == run.value)
    && forall d :: d in db.jobs[k].spec.deps && d in db.jobs ==> db.jobs[d].status.Succeeded?
  }

  /** What a claim selects: of all queued jobs it may take, none has a higher priority, or the same and is older. */
  lemma {:induction false} ClaimPicks(
      db: Db, j: JobId, kinds: set<Kind>, run: Option<RunId>, only: Option<JobId>, locked: set<JobId>, k: JobId)
    requires Best(db, j, kinds, run, only, locked)
    ensures j in db.jobs && db.jobs[j].status.Queued? && j !in locked
    ensures (kinds == {} || db.jobs[j].spec.kind in kinds) && (run.Some? ==> db.jobs[j].spec.run == run.value)
      && (only.Some? ==> j == only.value)
    ensures forall d :: d in db.jobs[j].spec.deps && d in db.jobs ==> db.jobs[d].status.Succeeded?
    ensures MayTake(db, k, kinds, run, locked) && only.None? ==>
        && db.jobs[k].spec.priority <= db.jobs[j].spec.priority
        && (db.jobs[k].spec.priority == db.jobs[j].spec.priority ==> db.jobs[j].spec.created <= db.jobs[k].spec.created)
  {
    if Eligible(db, k, kinds, run, only) && k !in locked { assert NoWorse(db.jobs[j].spec, db.jobs[k].spec); }
  }
}
