/** The queue's tables, mutated in place by each operation and proved against the transactions of `QueueModel`. */
module QueueStore {
  import opened Common
  import opened Events
  import opened QueueModel
  import opened QueueProofs
  import opened QueueTrees
  import opened QueueEndings
  import M = QueueModel

  /* ---------------------- what the selections promise ---------------------- */

  predicate Candidate(db: Db, j: JobId, now: int, locked: set<JobId>) { j !in locked && Expired(db, j, now) }

  /**
   * A reaper's batch: at most `limit` expired unlocked jobs, the longest expired first, and
   * all of them if they fit.
   */
  ghost predicate Due(db: Db, batch: set<JobId>, now: int, limit: nat, locked: set<JobId>) {
    && |batch| <= limit
    && (forall j :: j in batch ==> Candidate(db, j, now, locked))
    && (forall j, k :: j in batch && Candidate(db, k, now, locked) && k !in batch
          ==> |batch| == limit && db.jobs[j].lease.value <= db.jobs[k].lease.value)
    && (|batch| < limit ==> forall k :: Candidate(db, k, now, locked) ==> k in batch)
  }

  /** What `claim` and `reap` pick are steps of the state machine, so everything proved of its histories covers them. */
  lemma SelectionsAreSteps(
      db: Db, j: JobId, vm: VmId, until: int, kinds: set<Kind>, run: Option<RunId>, only: Option<JobId>,
      batch: set<JobId>, now: int, limit: nat, locked: set<JobId>)
    requires Stored(db) && Tree(ShapeOf(db.jobs))
    ensures Best(db, j, kinds, run, only, locked) ==> Enabled(db, DoClaim(j, vm, until))
    ensures Due(db, batch, now, limit, locked) ==> Enabled(db, DoReap(batch, now))
  {}

  /* ------------------------------ the closure ------------------------------ */

  /** The next child on the way down from `f` to `j`. */
  lemma {:induction false} StepDown(t: Shape, f: JobId, j: JobId) returns (c: JobId)
    requires Tree(t) && j in t && Within(t, f, j) && j != f
    ensures c in t && t[c].parent == Some(f) && Within(t, c, j)
    decreases t[j].birth
  {
    if t[j].parent.value == f { c := j; } else { c := StepDown(t, f, t[j].parent.value); }
  }

  /** Level `n` of the subtree under `a` has been reached; everything else lies beneath it. */
  ghost predicate Reached(t: Shape, a: JobId, n: nat, seen: set<JobId>, frontier: set<JobId>)
    requires Tree(t)
  {
    && a in t && frontier <= seen
    && (forall j :: j in seen ==> j in t && Within(t, a, j) && Depth(t, j) <= Depth(t, a) + n)
    && (forall j :: j in frontier ==> j in t && Depth(t, j) == Depth(t, a) + n)
    && (forall j :: j in t && Within(t, a, j) && j !in seen ==> exists f :: f in frontier && Within(t, f, j))
  }

  lemma {:induction false} ReachedDeeper(
      t: Shape, a: JobId, n: nat, seen: set<JobId>, frontier: set<JobId>, next: set<JobId>)
    requires Tree(t) && Reached(t, a, n, seen, frontier)
    requires forall j :: j in next <==> j in t && t[j].parent.Some? && t[j].parent.value in frontier
    ensures Reached(t, a, n + 1, seen + next, next) && next !! seen
  {
    forall j | j in next ensures Within(t, a, j) && Depth(t, j) == Depth(t, a) + n + 1 {
      assert Within(t, a, t[j].parent.value);
    }
    forall j | j in t && Within(t, a, j) && j !in seen + next ensures exists f :: f in next && Within(t, f, j) {
      var f :| f in frontier && Within(t, f, j);
      var c := StepDown(t, f, j);
      assert c in next;
    }
  }

  /** Going through the wants one by one admits the first `Admitted` of them and no more. */
  lemma AdmittedSoFar(run: RunRow, depth: nat, count: nat, i: nat)
    requires i < count
    ensures var n := Admitted(run, depth, count);
      var remaining := Max(0, run.budget.maxSpawns - run.budget.totalSpawns) - Min(i, n);
      i < n <==> !(RunOver(run.status) || depth > run.budget.maxDepth || remaining <= 0)
  {}

  lemma AdmittedBound(run: RunRow, depth: nat, count: nat)
    ensures Admitted(run, depth, count) <= count
  {}

  lemma SpawnManyStep(db: Db, parent: JobId, ids: seq<JobId>, wants: seq<Want>, i: nat, n: nat, now: int)
    requires Stored(db) && parent in db.jobs && i < n <= |ids| == |wants|
    ensures var db1 := SpawnOne(db, parent, ids[i], wants[i], now);
      && Stored(db1) && parent in db1.jobs
      && SpawnMany(db, parent, ids[i..n], wants[i..n], now)
        == SpawnMany(db1, parent, ids[i + 1..n], wants[i + 1..n], now)
  {
    assert ids[i..n][0] == ids[i] && ids[i..n][1..] == ids[i + 1..n];
    assert wants[i..n][0] == wants[i] && wants[i..n][1..] == wants[i + 1..n];
  }

  lemma SpawnNone(db: Db, parent: JobId, now: int)
    requires Stored(db) && parent in db.jobs
    ensures SpawnMany(db, parent, [], [], now) == db
  {}

  class Store {
    var jobs: map<JobId, Job>
    var runs: map<RunId, RunRow>
    var log: map<RunId, seq<Event>>
    var closing: map<RunId, seq<string>>
    var receipts: map<(JobId, string), Receipt>
    var births: nat

    function State(): Db
      reads this
    {
      Db(jobs, runs, log, closing, receipts, births)
    }

    constructor ()
      ensures State() == EMPTY_DB
    {
      jobs, runs, log, closing, receipts, births := map[], map[], map[], map[], map[], 0;
    }

    /** `appendEvent` */
    method AppendEvent(r: RunId, e: Event)
      requires r in runs && r in log
      modifies this`runs, this`log
      ensures State() == M.Append(old(State()), r, e)
    {
      runs := runs[r := runs[r].(eventSeq := runs[r].eventSeq + 1)];
      log := log[r := log[r] + [e]];
    }

    /** One guarded row update with the event that reports it. */
    method UpdateRow(j: JobId, to: Job, e: Event)
      requires to.spec.run in runs && to.spec.run in log
      modifies this`jobs, this`runs, this`log
      ensures State() == M.Move(old(State()), j, to, e)
    {
      jobs := jobs[j := to];
      AppendEvent(to.spec.run, e);
    }

    /** `enqueueIn` */
    method EnqueueIn(id: JobId, spec: Spec)
      requires spec.run in runs && spec.run in log
      modifies this
      ensures State() == M.Enqueue(old(State()), id, spec)
    {
      var job := Job(spec.(birth := births), Queued, None, None, 0, None, None);
      UpdateRow(id, job, StatusEvent(id, Queued, None, None, None));
      births := births + 1;
      var used := runs[spec.run].budget;
      runs := runs[spec.run := runs[spec.run].(budget := used.(totalSpawns := used.totalSpawns + 1))];
    }

    /** A run is opened together with its root captain. */
    method OpenRun(r: RunId, root: JobId, maxSpawns: nat, maxDepth: nat, now: int)
      modifies this
      ensures State() == M.OpenRun(old(State()), r, root, maxSpawns, maxDepth, now)
    {
      runs := runs[r := RunRow(RunQueued, 0, Budget(0, maxSpawns, maxDepth))];
      log, closing := log[r := []], closing[r := []];
      EnqueueIn(root, Spec(r, None, 0, now, Captain, 10, 3, {}));
    }

    /* -------------------------------- leases -------------------------------- */

    /**
     * `claim`: of the eligible rows no other transaction has locked, one of the best is
     * handed to `vm`; if there is none, nothing happens.
     */
    method Claim(vm: VmId, until: int, kinds: set<Kind>, run: Option<RunId>, only: Option<JobId>, locked: set<JobId>)
      returns (claimed: Option<JobId>)
      requires Stored(State())
      modifies this`jobs, this`runs, this`log
      ensures claimed.None? ==>
        State() == old(State()) && forall k :: k !in locked ==> !Eligible(old(State()), k, kinds, run, only)
      ensures claimed.Some? ==>
        && Best(old(State()), claimed.value, kinds, run, only, locked)
        && State() == M.Claim(old(State()), claimed.value, vm, until)
    {
      claimed := None;
      ghost var db := State();
      var todo := jobs.Keys;
      while todo != {}
        invariant todo <= jobs.Keys && State() == db
        invariant claimed.Some? ==> claimed.value !in locked && Eligible(db, claimed.value, kinds, run, only)
        invariant forall k :: k in jobs && k !in todo && k !in locked && Eligible(db, k, kinds, run, only) ==>
          claimed.Some? && NoWorse(jobs[claimed.value].spec, jobs[k].spec)
        decreases todo
      {
        var j :| j in todo;
        todo := todo - {j};
        if j !in locked && Eligible(State(), j, kinds, run, only) {
          if claimed.None? || !NoWorse(jobs[claimed.value].spec, jobs[j].spec) { claimed := Some(j); }
        }
      }
      if claimed.Some? {
        var j := claimed.value;
        var job := jobs[j].(status := Claimed, vm := Some(vm), attempts := jobs[j].attempts + 1, lease := Some(until));
        UpdateRow(j, job, StatusEvent(j, Claimed, Some(vm), Some(job.attempts), None));
      }
    }

    /** `markRunning` */
    method MarkRunning(j: JobId, vm: VmId) returns (ok: bool)
      requires Stored(State())
      modifies this`jobs, this`runs, this`log
      ensures State() == M.MarkRunning(old(State()), j, vm)
        && ok == (Holder(old(State()), j, vm) && old(jobs)[j].status.Claimed?)
    {
      ok := j in jobs && jobs[j].vm == Some(vm) && jobs[j].status.Claimed?;
      if ok { UpdateRow(j, jobs[j].(status := Running), StatusEvent(j, Running, Some(vm), None, None)); }
    }

    /** `heartbeat`: false when the lease is gone. */
    method Heartbeat(j: JobId, vm: VmId, until: int) returns (ok: bool)
      modifies this`jobs
      ensures State() == M.Heartbeat(old(State()), j, vm, until) && ok == Holder(old(State()), j, vm)
    {
      ok := j in jobs && jobs[j].vm == Some(vm) && Leased(jobs[j].status);
      if ok { jobs := jobs[j := jobs[j].(lease := Some(until))]; }
    }

    /** `complete` */
    method Complete(j: JobId, vm: VmId, summary: string) returns (ok: bool)
      requires Stored(State())
      modifies this`jobs, this`runs, this`log
      ensures State() == M.Complete(old(State()), j, vm, summary) && ok == Holder(old(State()), j, vm)
    {
      ok := j in jobs && jobs[j].vm == Some(vm) && Leased(jobs[j].status);
      if ok {
        var job := jobs[j].(status := Succeeded, result := Some(summary), error := None);
        UpdateRow(j, job.(lease := None), StatusEvent(j, Succeeded, Some(vm), None, Detail(summary)));
      }
    }

    /** `fail` */
    method Fail(j: JobId, vm: VmId, error: string) returns (ok: bool)
      requires Stored(State())
      modifies this`jobs, this`runs, this`log
      ensures State() == M.Fail(old(State()), j, vm, error) && ok == Holder(old(State()), j, vm)
    {
      ok := j in jobs && jobs[j].vm == Some(vm) && Leased(jobs[j].status);
      if ok {
        var job := jobs[j].(lease := None, error := Some(error));
        if job.attempts >= job.spec.maxAttempts { job := job.(status := Failed); }
        else { job := job.(status := Queued, vm := None); }
        UpdateRow(j, job, StatusEvent(j, job.status, Some(vm), Some(job.attempts), Detail(error)));
      }
    }

    method LongestExpired(from: set<JobId>) returns (j: JobId)
      requires from != {} && forall k :: k in from ==> k in jobs && jobs[k].lease.Some?
      ensures j in from && forall k :: k in from ==> jobs[j].lease.value <= jobs[k].lease.value
    {
      j :| j in from;
      var todo := from - {j};
      while todo != {}
        invariant todo <= from && j in from
        invariant forall k :: k in from && k !in todo ==> jobs[j].lease.value <= jobs[k].lease.value
        decreases todo
      {
        var k :| k in todo;
        todo := todo - {k};
        if jobs[k].lease.value < jobs[j].lease.value { j := k; }
      }
    }

    /** The reaper's `SELECT ... ORDER BY lease_expires_at LIMIT ... FOR UPDATE SKIP LOCKED`. */
    method SelectExpired(now: int, limit: nat, locked: set<JobId>) returns (batch: set<JobId>)
      ensures Due(State(), batch, now, limit, locked)
    {
      var rest := set j | j in jobs && Candidate(State(), j, now, locked);
      batch := {};
      while |batch| < limit && rest != {}
        invariant |batch| <= limit && batch !! rest
        invariant forall j :: Candidate(State(), j, now, locked) <==> j in batch || j in rest
        invariant forall j, k :: j in batch && k in rest ==> jobs[j].lease.value <= jobs[k].lease.value
        decreases rest
      {
        var j := LongestExpired(rest);
        batch, rest := batch + {j}, rest - {j};
      }
    }

    method ReapRow(j: JobId)
      requires Stored(State()) && j in jobs
      modifies this`jobs, this`runs, this`log
      ensures State() == ReapOne(old(State()), j) && Stored(State()) && jobs.Keys == old(jobs).Keys
    {
      var job := jobs[j].(lease := None, error := Some(LEASE_EXPIRED));
      if job.attempts >= job.spec.maxAttempts { job := job.(status := Failed); }
      else { job := job.(status := Queued, vm := None); }
      UpdateRow(j, job, StatusEvent(j, job.status, None, Some(job.attempts), Detail(LEASE_EXPIRED)));
    }

    method ReapRows(js: seq<JobId>)
      requires Stored(State()) && forall j :: j in js ==> j in jobs
      modifies this`jobs, this`runs, this`log
      ensures State() == ReapAll(old(State()), js)
    {
      for i := 0 to |js|
        invariant Stored(State()) && jobs.Keys == old(jobs).Keys
        invariant forall j :: j in js[i..] ==> j in jobs
        invariant ReapAll(State(), js[i..]) == ReapAll(old(State()), js)
      {
        assert js[i..][0] == js[i] && js[i..][1..] == js[i + 1..];
        ReapRow(js[i]);
      }
      assert js[|js|..] == [];
    }

    /** `reap` */
    method Reap(now: int, limit: nat, locked: set<JobId>) returns (batch: set<JobId>)
      requires Stored(State())
      modifies this`jobs, this`runs, this`log
      ensures Due(old(State()), batch, now, limit, locked) && (forall j :: j in batch ==> j in old(jobs))
      ensures State() == ReapAll(old(State()), Ascending(batch))
    {
      batch := SelectExpired(now, limit, locked);
      assert forall j :: j in batch ==> Candidate(State(), j, now, locked);
      var js := Sorted(batch);
      ReapRows(js);
    }

    /* ----------------------------- cancellation ----------------------------- */

    /** The recursive query: level by level from `a` down. It ends because the parent relation is acyclic. */
    method Subtree(a: JobId) returns (members: set<JobId>)
      requires Tree(ShapeOf(jobs))
      ensures members == set j | j in jobs && Within(ShapeOf(jobs), a, j)
    {
      ghost var t := ShapeOf(jobs);
      if a !in jobs {
        members := {};
        forall j | j in jobs ensures !Within(t, a, j) { ChainIsAncestors(t, j, a); }
        return;
      }
      members := {a};
      var frontier := {a};
      ghost var n: nat := 0;
      while frontier != {}
        invariant Reached(t, a, n, members, frontier)
        decreases jobs.Keys - members, frontier
      {
        var next := set j | j in jobs && jobs[j].spec.parent.Some? && jobs[j].spec.parent.value in frontier;
        ReachedDeeper(t, a, n, members, frontier, next);
        members, frontier, n := members + next, next, n + 1;
      }
    }

    method CancelRow(j: JobId, reason: string)
      requires Stored(State()) && j in jobs
      modifies this`jobs, this`runs, this`log
      ensures State() == CancelOne(old(State()), j, reason) && Stored(State()) && jobs.Keys == old(jobs).Keys
    {
      var job := jobs[j].(status := Cancelled, lease := None, error := Some(reason));
      UpdateRow(j, job, StatusEvent(j, Cancelled, None, None, Detail(reason)));
    }

    method CancelRows(js: seq<JobId>, reason: string)
      requires Stored(State()) && forall j :: j in js ==> j in jobs
      modifies this`jobs, this`runs, this`log
      ensures State() == CancelAll(old(State()), js, reason)
    {
      hide CancelOne, Stored;
      for i := 0 to |js|
        invariant Stored(State()) && jobs.Keys == old(jobs).Keys
        invariant forall j :: j in js[i..] ==> j in jobs
        invariant CancelAll(State(), js[i..], reason) == CancelAll(old(State()), js, reason)
      {
        assert js[i..][0] == js[i] && js[i..][1..] == js[i + 1..];
        CancelRow(js[i], reason);
      }
      assert js[|js|..] == [];
    }

    /** `cancelSubtree` */
    method CancelSubtree(a: JobId, reason: string) returns (cancelled: seq<JobId>)
      requires Stored(State()) && Tree(ShapeOf(jobs))
      modifies this`jobs, this`runs, this`log
      ensures State() == M.CancelSubtree(old(State()), a, reason)
        && cancelled == Ascending(LiveSubtree(old(State()), a))
    {
      var members := Subtree(a);
      var live := set j | j in members && !Terminal(jobs[j].status);
      assert live == LiveSubtree(State(), a);
      cancelled := Sorted(live);
      CancelRows(cancelled, reason);
    }

    /* --------------------------------- runs --------------------------------- */

    /** `startRun` */
    method StartRun(r: RunId, j: JobId) returns (ok: bool)
      requires Stored(State())
      modifies this`runs, this`log
      ensures State() == M.StartRun(old(State()), r, j)
      ensures ok == (r in old(runs) && old(runs)[r].status.RunQueued?)
    {
      ok := r in runs && runs[r].status.RunQueued?;
      if ok {
        runs := runs[r := runs[r].(status := RunRunning)];
        AppendEvent(r, RunEvent(Some(j), RunRunning));
      }
    }

    /** The first half of `finishRun`: everything beneath the root is cancelled. */
    method SweepBelow(j: JobId)
      requires Stored(State()) && Tree(ShapeOf(jobs)) && j in jobs
      modifies this`jobs, this`runs, this`log
      ensures State() == CancelAll(old(State()), Ascending(LiveSubtree(old(State()), j) - {j}), ROOT_FINISHED)
    {
      var members := Subtree(j);
      var live := set k | k in members && k != j && !Terminal(jobs[k].status);
      assert live == LiveSubtree(State(), j) - {j};
      var js := Sorted(live);
      CancelRows(js, ROOT_FINISHED);
    }

    /** The second half: the closing turn, the run's status and its event. */
    method CloseRun(r: RunId, s: RunStatus, j: JobId, turn: string)
      requires Stored(State()) && r in runs
      modifies this`runs, this`log, this`closing
      ensures State() == Close(old(State()), r, s, Some(j), [turn])
    {
      closing := closing[r := closing[r] + [turn]];
      runs := runs[r := runs[r].(status := s)];
      AppendEvent(r, RunEvent(Some(j), s));
    }

    /** `finishRun`: false when the run was over already. */
    method FinishRun(j: JobId) returns (ok: bool)
      requires Stored(State()) && Tree(ShapeOf(jobs)) && j in jobs
      modifies this
      ensures State() == M.FinishRun(old(State()), j)
      ensures ok == !RunOver(old(runs)[old(jobs)[j].spec.run].status)
    {
      var r, job := jobs[j].spec.run, jobs[j];
      ok := !RunOver(runs[r].status);
      if ok {
        FinishIs(State(), j);
        CancelAllFrame(State(), Ascending(LiveSubtree(State(), j) - {j}), ROOT_FINISHED);
        SweepBelow(j);
        CloseRun(r, if job.status.Succeeded? then Completed else RunFailed, j, Closing(job));
      }
    }

    /** `cancelRun` */
    method CancelRun(r: RunId, reason: string) returns (ok: bool)
      requires Stored(State())
      modifies this`jobs, this`runs, this`log
      ensures State() == M.CancelRun(old(State()), r, reason) && ok == (r in old(runs) && !RunOver(old(runs)[r].status))
    {
      ok := r in runs && !RunOver(runs[r].status);
      if ok {
        var live := set j | j in jobs && jobs[j].spec.run == r && !Terminal(jobs[j].status);
        assert live == LiveJobs(State(), r);
        var js := Sorted(live);
        CancelRows(js, reason);
        runs := runs[r := runs[r].(status := RunCancelled)];
        AppendEvent(r, RunEvent(None, RunCancelled));
      }
    }

    /* ------------------------------- spawning ------------------------------- */

    /** `depthOf` */
    method DepthOf(j: JobId) returns (depth: nat)
      requires Tree(ShapeOf(jobs)) && j in jobs
      ensures depth == Depth(ShapeOf(jobs), j)
    {
      depth := 0;
      var at := j;
      while jobs[at].spec.parent.Some?
        invariant at in jobs && depth + Depth(ShapeOf(jobs), at) == Depth(ShapeOf(jobs), j)
        decreases jobs[at].spec.birth
      {
        assert ShapeOf(jobs)[at].parent.value in ShapeOf(jobs);
        at, depth := jobs[at].spec.parent.value, depth + 1;
      }
    }

    method SpawnRow(parent: JobId, id: JobId, want: Want, now: int)
      requires Stored(State()) && parent in jobs
      modifies this
      ensures State() == SpawnOne(old(State()), parent, id, want, now) && Stored(State()) && parent in jobs
        && receipts == old(receipts)
    {
      var r := jobs[parent].spec.run;
      EnqueueIn(id, Spec(r, Some(parent), 0, now, want.kind, want.priority, 3, want.deps));
      AppendEvent(r, Event(Some(id), Agent(parent), SpawnedChild(id)));
    }

    /** The loop of `/agent/spawn`: each want is created or refused, under the run row's budgets as first read. */
    method SpawnLoop(parent: JobId, ids: seq<JobId>, wants: seq<Want>, now: int, run: RunRow, depth: nat)
      returns (spawned: seq<JobId>, refused: nat)
      requires Stored(State()) && parent in jobs && |ids| == |wants|
      modifies this
      ensures receipts == old(receipts)
      ensures var n := Admitted(run, depth, |wants|);
        && n <= |wants| && spawned == ids[..n] && refused == |wants| - n
        && State() == SpawnMany(old(State()), parent, ids[..n], wants[..n], now)
    {
      hide SpawnOne, Stored, Admitted, SpawnMany;
      ghost var n := Admitted(run, depth, |wants|);
      AdmittedBound(run, depth, |wants|);
      var remaining := Max(0, run.budget.maxSpawns - run.budget.totalSpawns);
      spawned, refused := [], 0;
      ghost var goal := SpawnMany(State(), parent, ids[0..n], wants[0..n], now);
      for i := 0 to |wants|
        invariant Stored(State()) && parent in jobs && receipts == old(receipts)
        invariant spawned == ids[..Min(i, n)] && refused == i - Min(i, n)
        invariant remaining == Max(0, run.budget.maxSpawns - run.budget.totalSpawns) - Min(i, n)
        invariant SpawnMany(State(), parent, ids[Min(i, n)..n], wants[Min(i, n)..n], now) == goal
      {
        AdmittedSoFar(run, depth, |wants|, i);
        if RunOver(run.status) || depth > run.budget.maxDepth || remaining <= 0 {
          refused := refused + 1;
        } else {
          SpawnManyStep(State(), parent, ids, wants, i, n, now);
          SpawnRow(parent, ids[i], wants[i], now);
          remaining := remaining - 1;
          spawned := spawned + [ids[i]];
        }
      }
      assert ids[n..n] == [] && wants[n..n] == [] && ids[0..n] == ids[..n] && wants[0..n] == wants[..n];
      SpawnNone(State(), parent, now);
    }

    method SpawnWants(parent: JobId, ids: seq<JobId>, wants: seq<Want>, now: int) returns (response: Response)
      requires Stored(State()) && Tree(ShapeOf(jobs)) && parent in jobs && |ids| == |wants|
      modifies this
      ensures State() == SpawnGranted(old(State()), parent, ids, wants, now)
      ensures response == Answer(old(State()), parent, ids, wants) && receipts == old(receipts)
    {
      var above := DepthOf(parent);
      hide Tree, SpawnMany, Depth, Admitted;
      var spawned, refused := SpawnLoop(parent, ids, wants, now, runs[jobs[parent].spec.run], above + 1);
      response := Response(spawned, refused);
    }

    /** The `/agent/spawn` transaction. */
    method Spawn(
        parent: JobId, request: Option<string>, ids: seq<JobId>, wants: seq<Want>, now: int) returns (reply: Reply)
      requires Stored(State()) && Tree(ShapeOf(jobs)) && parent in jobs && |ids| == |wants|
      modifies this
      ensures State() == M.Spawn(old(State()), parent, request, ids, wants, now)
      ensures reply == SpawnReply(old(State()), parent, request, ids, wants)
    {
      if request.Some? && (parent, request.value) in receipts {
        var saved := receipts[(parent, request.value)];
        return if saved.wants == wants then Given(saved.response) else Conflict;
      }
      hide SpawnGranted, Answer, Tree, Stored;
      var response := SpawnWants(parent, ids, wants, now);
      if request.Some? { receipts := receipts[(parent, request.value) := Receipt(wants, response)]; }
      reply := Given(response);
    }

    /* ----------------------- how a root ends its run ----------------------- */

    /**
     * `/agent/complete`, by a plane that lives through the first `reach` of its
     * transactions: the report, the review, and the end of the run when it was the
     * root's last word.
     */
    method AgentComplete(j: JobId, vm: VmId, outcome: Outcome, review: Option<string>, reach: nat) returns (ok: bool)
      requires Stored(State()) && Tree(ShapeOf(jobs))
      modifies this
      ensures State() == WoundUp(old(State()), j, vm, outcome, review, reach)
      ensures ok == (reach > 0 && Holder(old(State()), j, vm))
    {
      ok := false;
      if reach == 0 { return; }
      ReportedKeeps(State(), j, vm, outcome);
      match outcome {
        case Done(summary) => ok := Complete(j, vm, summary);
        case Gave(error) => ok := Fail(j, vm, error);
      }
      assert State() == Reported(old(State()), j, vm, outcome);
      if !ok || reach == 1 { return; }
      ReviewedKeeps(State(), j, review);
      Review(j, review);
      if reach == 2 { return; }
      if jobs[j].spec.parent.None? && Terminal(jobs[j].status) { var _ := FinishRun(j); }
    }

    /** The review's event, in a transaction of its own. */
    method Review(j: JobId, review: Option<string>)
      requires Stored(State()) && j in jobs
      modifies this`runs, this`log
      ensures State() == Reviewed(old(State()), j, review)
    {
      if review.Some? { AppendEvent(jobs[j].spec.run, Event(Some(j), Agent(j), Note(review.value))); }
    }

    /**
     * `onReap`: finishes the run of every root captain the reaper has just dead-lettered,
     * as far as it gets through. `rows` are the rows the reaper returned.
     */
    method OnReap(rows: map<JobId, Job>, js: seq<JobId>, ran: set<JobId>)
      requires Stored(State()) && Tree(ShapeOf(jobs)) && forall j :: j in js ==> j in jobs && j in rows
      modifies this
      ensures State() == Reaped(old(State()), rows, js, ran)
    {
      for i := 0 to |js|
        invariant Stored(State()) && Tree(ShapeOf(jobs)) && forall j :: j in js[i..] ==> j in jobs && j in rows
        invariant Reaped(State(), rows, js[i..], ran) == Reaped(old(State()), rows, js, ran)
      {
        assert js[i..][0] == js[i] && js[i..][1..] == js[i + 1..];
        FinishKeeps(State(), js[i]);
        var row := rows[js[i]];
        if row.spec.parent.None? && Terminal(row.status) && js[i] in ran { var _ := FinishRun(js[i]); }
      }
      assert js[|js|..] == [];
    }
  }
}
