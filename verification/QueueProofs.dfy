/** Each queue and run transaction keeps the invariants; so every run of the system does. */
module QueueProofs {
  import opened Common
  import opened Events
  import opened QueueModel
  import opened QueueInvariants

  /* ------------------------------ the tree ------------------------------ */

  lemma {:induction false} LeafKeepsPaths(t: Shape, id: JobId, leaf: Link, a: JobId, j: JobId)
    requires Tree(t) && id !in t && Tree(t[id := leaf]) && j in t
    ensures Depth(t[id := leaf], j) == Depth(t, j)
    ensures Within(t[id := leaf], a, j) == Within(t, a, j)
    decreases t[j].birth
  {
    if t[j].parent.Some? { LeafKeepsPaths(t, id, leaf, a, t[j].parent.value); }
  }

  /** Every job is beneath a root of its own run. */
  lemma {:induction false} RootAbove(t: Shape, j: JobId) returns (root: JobId)
    requires Tree(t) && j in t
    ensures root in t && t[root].parent.None? && t[root].run == t[j].run && Within(t, root, j)
    decreases t[j].birth
  {
    if t[j].parent.None? { root := j; } else { root := RootAbove(t, t[j].parent.value); }
  }

  lemma {:induction false} SubtreeInRun(t: Shape, a: JobId, j: JobId)
    requires Tree(t) && j in t && Within(t, a, j)
    ensures a in t && t[a].run == t[j].run
    decreases t[j].birth
  {
    if j != a { SubtreeInRun(t, a, t[j].parent.value); }
  }

  /** Where a new leaf may be hung. */
  ghost predicate MayGrow(t: Shape, budgets: map<RunId, Budget>, id: JobId, leaf: Link) {
    && Forest(t, budgets) && id !in t && leaf.run in budgets
    && (forall j :: j in t ==> t[j].birth < leaf.birth)
    && budgets[leaf.run].totalSpawns < budgets[leaf.run].maxSpawns
    && (match leaf.parent
        case None => forall j :: j in t ==> t[j].run != leaf.run
        case Some(p) => p in t && t[p].run == leaf.run && Depth(t, p) < budgets[leaf.run].maxDepth)
  }

  function OneMore(b: Budget): Budget { b.(totalSpawns := b.totalSpawns + 1) }

  lemma {:induction false} DepthsGrow(t: Shape, budgets: map<RunId, Budget>, id: JobId, leaf: Link, j: JobId)
    requires MayGrow(t, budgets, id, leaf) && (j in t || j == id)
    ensures Tree(t[id := leaf]) && Depth(t[id := leaf], j) <= budgets[t[id := leaf][j].run].maxDepth
  {
    if j != id { LeafKeepsPaths(t, id, leaf, j, j); }
    else if leaf.parent.Some? { LeafKeepsPaths(t, id, leaf, id, leaf.parent.value); }
  }

  lemma {:induction false} CountsGrow(t: Shape, id: JobId, leaf: Link, r: RunId)
    requires id !in t
    ensures |JobsOf(t[id := leaf], r)| == |JobsOf(t, r)| + if r == leaf.run then 1 else 0
  {
    assert JobsOf(t[id := leaf], r) == JobsOf(t, r) + if r == leaf.run then {id} else {};
  }

  lemma {:induction false} RootsGrow(
      t: Shape, budgets: map<RunId, Budget>, id: JobId, leaf: Link, r: RunId, i: JobId, j: JobId)
    requires MayGrow(t, budgets, id, leaf) && RootOf(t[id := leaf], r, i) && RootOf(t[id := leaf], r, j)
    ensures i == j
  {
    if i != id && j != id { assert RootOf(t, r, i) && RootOf(t, r, j); }
  }

  lemma {:induction false} ForestGrows(t: Shape, budgets: map<RunId, Budget>, id: JobId, leaf: Link)
    requires MayGrow(t, budgets, id, leaf)
    ensures Forest(t[id := leaf], budgets[leaf.run := OneMore(budgets[leaf.run])])
  {
    var t' := t[id := leaf];
    DepthsGrow(t, budgets, id, leaf, id);
    forall j | j in t' ensures Depth(t', j) <= budgets[t'[j].run].maxDepth { DepthsGrow(t, budgets, id, leaf, j); }
    forall r, i, j | RootOf(t', r, i) && RootOf(t', r, j) ensures i == j { RootsGrow(t, budgets, id, leaf, r, i, j); }
    forall r | r in budgets ensures |JobsOf(t', r)| == |JobsOf(t, r)| + if r == leaf.run then 1 else 0 {
      CountsGrow(t, id, leaf, r);
    }
  }

  /* --------------------------- other appends --------------------------- */

  /** An event that reports no status. */
  predicate Quiet(e: Event) { e.from.Agent? || !(e.body.StatusIs? || e.body.RunIs?) }

  /** A stream that gains an event which is not a job report still tells every job's life in order. */
  lemma {:induction false} AppendPaths(db: Db, r: RunId, e: Event, db': Db)
    requires Stored(db) && PathsOk(db) && OrderOk(db) && r in db.log
    requires db'.jobs == db.jobs && db'.log == db.log[r := db.log[r] + [e]]
      && !(e.from.Orchestrator? && e.body.StatusIs?)
    ensures PathsOk(db') && OrderOk(db')
  {
    forall s, k | s in db'.log ensures PathOf(db', s, k) {
      assert PathOf(db, s, k);
      if s == r { Appended(db.log[r], e, k); }
    }
    forall s, k: nat, i, d | s in db'.log && k < |db'.log[s]| ensures OrderOf(db', s, k, i, d) {
      if k < |db.log[s]| {
        assert OrderOf(db, s, k, i, d);
        if SucceededBefore(db.log[s], d, k) { StillBefore(db.log[s], if s == r then [e] else [], d, k); }
        assert db'.log[s] == db.log[s] + if s == r then [e] else [];
      }
    }
  }

  /** What only speaks of rows is untouched when the rows are. */
  lemma {:induction false} SameJobs(db: Db, db': Db)
    requires db'.jobs == db.jobs && db'.births == db.births && BudgetsOf(db'.runs) == BudgetsOf(db.runs)
    requires RowsOk(db) && GatesOk(db) && ForestOk(db)
    ensures RowsOk(db') && GatesOk(db') && ForestOk(db')
  {
    hide Forest;
    forall j | j in db'.jobs && db'.jobs[j].attempts > 0 ensures Ready(db', j) { assert Ready(db, j); }
  }

  lemma {:induction false} QuietStream(db: Db, r: RunId, e: Event, q: RunId)
    requires Stored(db) && r in db.runs && Quiet(e) && q in db.runs && StreamOk(db, q)
    ensures Stored(Append(db, r, e)) && StreamOk(Append(db, r, e), q)
  {
    Appended(db.log[r], e, 0);
  }

  lemma {:induction false} AppendFrame(db: Db, r: RunId, e: Event)
    requires Stored(db) && OverOk(db) && r in db.runs
    ensures Stored(Append(db, r, e)) && OverOk(Append(db, r, e))
      && BudgetsOf(Append(db, r, e).runs) == BudgetsOf(db.runs)
  {}

  lemma {:induction false} QuietKeeps(db: Db, r: RunId, e: Event)
    requires Inv(db) && r in db.runs && Quiet(e)
    ensures Inv(Append(db, r, e)) && ShapeOf(Append(db, r, e).jobs) == ShapeOf(db.jobs)
  {
    hide RowsOk, GatesOk, ForestOk, PathsOk, OrderOk, OverOk;
    var db' := Append(db, r, e);
    AppendPaths(db, r, e, db');
    AppendFrame(db, r, e);
    SameJobs(db, db');
    forall q | q in db'.runs ensures StreamOk(db', q) { QuietStream(db, r, e, q); }
  }

  /** The transaction that changes a run's status, with the closing turns it writes. */
  function Close(db: Db, r: RunId, s: RunStatus, job: Option<JobId>, turns: seq<string>): Db
    requires Stored(db) && r in db.runs
  {
    SetRun(db.(closing := db.closing[r := db.closing[r] + turns]), r, s, RunEvent(job, s))
  }

  lemma {:induction false} CloseStream(db: Db, r: RunId, s: RunStatus, job: Option<JobId>, turns: seq<string>, q: RunId)
    requires Stored(db) && r in db.runs && !RunOver(db.runs[r].status) && q in db.runs && StreamOk(db, q)
    requires |turns| == if s.Completed? || s.RunFailed? then 1 else 0
    ensures Stored(Close(db, r, s, job, turns)) && StreamOk(Close(db, r, s, job, turns), q)
  {
    Appended(db.log[r], RunEvent(job, s), 0);
  }

  predicate NoLiveJob(db: Db, r: RunId) {
    forall j :: j in db.jobs && db.jobs[j].spec.run == r ==> Terminal(db.jobs[j].status)
  }

  lemma {:induction false} CloseFrame(db: Db, r: RunId, s: RunStatus, job: Option<JobId>, turns: seq<string>)
    requires Stored(db) && OverOk(db) && r in db.runs && !RunOver(db.runs[r].status)
    requires RunOver(s) ==> NoLiveJob(db, r)
    ensures var db' := Close(db, r, s, job, turns);
      && Stored(db') && OverOk(db') && db'.jobs == db.jobs && db'.births == db.births
      && db'.log == db.log[r := db.log[r] + [RunEvent(job, s)]] && BudgetsOf(db'.runs) == BudgetsOf(db.runs)
  {}

  /** A guarded change of a run's status, announced once; a closing turn goes with an ending by the captain. */
  lemma {:induction false} CloseKeeps(db: Db, r: RunId, s: RunStatus, job: Option<JobId>, turns: seq<string>)
    requires Inv(db) && r in db.runs && !RunOver(db.runs[r].status)
    requires RunOver(s) ==> NoLiveJob(db, r)
    requires |turns| == if s.Completed? || s.RunFailed? then 1 else 0
    ensures Inv(Close(db, r, s, job, turns))
  {
    hide RowsOk, GatesOk, ForestOk, PathsOk, OrderOk, OverOk, NoLiveJob;
    var db' := Close(db, r, s, job, turns);
    CloseFrame(db, r, s, job, turns);
    AppendPaths(db, r, RunEvent(job, s), db');
    SameJobs(db, db');
    forall q | q in db'.runs ensures StreamOk(db', q) { CloseStream(db, r, s, job, turns, q); }
  }

  /* ------------------------------ creation ------------------------------ */

  /** What `enqueueIn` may be asked to insert. */
  ghost predicate MayEnqueue(db: Db, id: JobId, spec: Spec) {
    && Stored(db) && id !in db.jobs && spec.run in db.runs && !RunOver(db.runs[spec.run].status)
    && spec.maxAttempts > 0 && id !in spec.deps && (forall k :: k in db.jobs ==> id !in db.jobs[k].spec.deps)
  }

  function LeafOf(db: Db, spec: Spec): Link { Link(spec.run, spec.parent, db.births) }

  lemma {:induction false} EnqueuePath(db: Db, id: JobId, spec: Spec, r: RunId, k: JobId)
    requires MayEnqueue(db, id, spec) && r in db.log && PathOf(db, r, k)
    ensures PathOf(Enqueue(db, id, spec), r, k)
  {
    Appended(db.log[spec.run], StatusEvent(id, Queued, None, None, None), k);
    assert [] + [Queued] == [Queued];
  }

  lemma {:induction false} NoReports(log: seq<Event>, j: JobId, k: nat)
    requires k < |log| && Reports(log[k], j)
    ensures History(log, j) != []
    decreases |log|
  {
    if k < |log| - 1 { NoReports(log[..|log| - 1], j, k); }
  }

  lemma {:induction false} EnqueueOrder(db: Db, id: JobId, spec: Spec, r: RunId, k: nat, j: JobId, d: JobId)
    requires MayEnqueue(db, id, spec) && PathsOk(db) && OrderOk(db) && r in db.log && k < |Enqueue(db, id, spec).log[r]|
    ensures OrderOf(Enqueue(db, id, spec), r, k, j, d)
  {
    var db' := Enqueue(db, id, spec);
    var e := StatusEvent(id, Queued, None, None, None);
    if ClaimedAt(db'.log[r], k, j) && HomeOf(db', r, j) && d in db'.jobs[j].spec.deps && HomeOf(db', r, d) {
      assert k < |db.log[r]|;
      if j == id {
        assert ClaimedAt(db.log[r], k, j) && PathOf(db, r, id);
        NoReports(db.log[r], id, k);
      } else {
        assert d in db.jobs;
        assert OrderOf(db, r, k, j, d);
        StillBefore(db.log[r], if r == spec.run then [e] else [], d, k);
        assert db'.log[r] == db.log[r] + if r == spec.run then [e] else [];
      }
    }
  }

  lemma {:induction false} EnqueueShape(db: Db, id: JobId, spec: Spec)
    requires MayEnqueue(db, id, spec)
    ensures var db' := Enqueue(db, id, spec);
      && Stored(db')
      && ShapeOf(db'.jobs) == ShapeOf(db.jobs)[id := LeafOf(db, spec)]
      && BudgetsOf(db'.runs) == BudgetsOf(db.runs)[spec.run := OneMore(db.runs[spec.run].budget)]
  {
    var db' := Enqueue(db, id, spec);
    assert db'.jobs == db.jobs[id := db'.jobs[id]];
    assert db'.runs == db.runs[spec.run := db'.runs[spec.run]];
  }

  lemma {:induction false} EnqueueRows(db: Db, id: JobId, spec: Spec)
    requires MayEnqueue(db, id, spec) && RowsOk(db) && GatesOk(db) && OverOk(db)
    ensures var db' := Enqueue(db, id, spec); Stored(db') && RowsOk(db') && GatesOk(db') && OverOk(db')
  {
    var db' := Enqueue(db, id, spec);
    forall k | k in db'.jobs && db'.jobs[k].attempts > 0 ensures Ready(db', k) { assert Ready(db, k); }
  }

  lemma {:induction false} EnqueueFrame(db: Db, id: JobId, spec: Spec, r: RunId)
    requires MayEnqueue(db, id, spec) && r in db.runs
    ensures var db' := Enqueue(db, id, spec); var e := StatusEvent(id, Queued, None, None, None);
      && Stored(db') && r in db'.runs && db'.runs[r].status == db.runs[r].status && db'.closing == db.closing
      && db'.log[r] == (if r == spec.run then db.log[r] + [e] else db.log[r])
      && db'.runs[r].eventSeq == (if r == spec.run then db.runs[r].eventSeq + 1 else db.runs[r].eventSeq)
  {}

  lemma {:induction false} EnqueueStream(db: Db, id: JobId, spec: Spec, r: RunId)
    requires MayEnqueue(db, id, spec) && r in db.runs && StreamOk(db, r)
    ensures Stored(Enqueue(db, id, spec)) && StreamOk(Enqueue(db, id, spec), r)
  {
    EnqueueFrame(db, id, spec, r);
    Appended(db.log[r], StatusEvent(id, Queued, None, None, None), id);
    hide Enqueue, MayEnqueue, RunReplay, Endings;
  }

  lemma {:induction false} EnqueueStreams(db: Db, id: JobId, spec: Spec)
    requires MayEnqueue(db, id, spec) && PathsOk(db) && OrderOk(db) && StreamsOk(db)
    ensures var db' := Enqueue(db, id, spec); Stored(db') && PathsOk(db') && OrderOk(db') && StreamsOk(db')
  {
    var db' := Enqueue(db, id, spec);
    EnqueueShape(db, id, spec);
    forall r, k | r in db'.log ensures PathOf(db', r, k) { assert PathOf(db, r, k); EnqueuePath(db, id, spec, r, k); }
    forall r, k: nat, j, d | r in db'.log && k < |db'.log[r]| ensures OrderOf(db', r, k, j, d) {
      EnqueueOrder(db, id, spec, r, k, j, d);
    }
    forall r | r in db'.runs ensures StreamOk(db', r) { EnqueueStream(db, id, spec, r); }
  }

  lemma {:induction false} EnqueueKeeps(db: Db, id: JobId, spec: Spec)
    requires Inv(db) && MayEnqueue(db, id, spec) && MayGrow(ShapeOf(db.jobs), BudgetsOf(db.runs), id, LeafOf(db, spec))
    ensures var db' := Enqueue(db, id, spec);
      && Inv(db')
      && ShapeOf(db'.jobs) == ShapeOf(db.jobs)[id := LeafOf(db, spec)]
      && BudgetsOf(db'.runs) == BudgetsOf(db.runs)[spec.run := OneMore(db.runs[spec.run].budget)]
  {
    hide RowsOk, GatesOk, OverOk, PathsOk, OrderOk, StreamsOk, Forest, MayGrow;
    EnqueueShape(db, id, spec);
    ForestGrows(ShapeOf(db.jobs), BudgetsOf(db.runs), id, LeafOf(db, spec));
    EnqueueRows(db, id, spec);
    EnqueueStreams(db, id, spec);
  }
}
