/** What a browser shows of a run: the agent tree folded from the event stream. */
module Browser {
  import opened Common
  import opened Events
  import opened QueueModel

  /** One line of an agent's trace: which event put it there, and what that event said. */
  datatype Line = Line(seqNo: nat, body: Body)

  datatype Node = Node(
    parent: Option<JobId>, status: JobStatus, attempts: nat, vm: Option<VmId>,
    summary: Option<string>, error: Option<string>, activity: seq<Line>)

  /** `order` is discovery order. */
  datatype View = View(status: RunStatus, order: seq<JobId>, nodes: map<JobId, Node>)

  const MAX_ACTIVITY: nat := 400

  const BLANK_NODE := Node(None, Queued, 0, None, None, None, [])

  /** The value if there is one, else the fallback: the `??` of the source. */
  function Else<T>(value: Option<T>, fallback: Option<T>): Option<T> { if value.Some? then value else fallback }

  function NodeOf(v: View, j: JobId): Node { if j in v.nodes then v.nodes[j] else BLANK_NODE }

  /** The last `n` elements. */
  function Last<T>(s: seq<T>, n: nat): seq<T> { if |s| <= n then s else s[|s| - n..] }

  function Edit(v: View, j: JobId, node: Node): View {
    v.(order := if j in v.nodes then v.order else v.order + [j], nodes := v.nodes[j := node])
  }

  function NoteLine(v: View, j: JobId, row: Row): View {
    var node := NodeOf(v, j);
    Edit(v, j, node.(activity := Last(node.activity + [Line(row.seqNo, row.event.body)], MAX_ACTIVITY)))
  }

  function SenderJob(a: Actor): Option<JobId> { if a.Agent? then Some(a.job) else None }

  /** Which agent an event is about; a spawn is something the parent did. */
  function Subject(e: Event): Option<JobId> {
    if e.body.SpawnedChild? then SenderJob(e.from) else Else(e.job, SenderJob(e.from))
  }

  function WithStatus(node: Node, b: Body): Node
    requires b.StatusIs?
  {
    node.(status := b.status,
          vm := Else(b.vm, node.vm),
          attempts := if b.attempts.Some? then b.attempts.value else node.attempts,
          summary := if b.status.Succeeded? then Else(b.detail, node.summary) else node.summary,
          error := if b.status.Succeeded? then None
            else if b.status.Failed? then Else(b.detail, node.error) else node.error)
  }

  /** `applyEvent` */
  function Apply(v: View, row: Row): View {
    var e := row.event;
    match e.body
    case RunIs(s) => v.(status := s)
    case StatusIs(_, _, _, _) =>
      if e.job.None? then v
      else NoteLine(Edit(v, e.job.value, WithStatus(NodeOf(v, e.job.value), e.body)), e.job.value, row)
    case SpawnedChild(child) =>
      var node := NodeOf(v, child);
      var v' := Edit(v, child, node.(parent := Else(Subject(e), node.parent)));
      if Subject(e).Some? then NoteLine(v', Subject(e).value, row) else v'
    case Note(_) => if Subject(e).Some? then NoteLine(v, Subject(e).value, row) else v
  }

  function ApplyAll(v: View, rows: seq<Row>): View
    decreases |rows|
  {
    if rows == [] then v else ApplyAll(Apply(v, rows[0]), rows[1..])
  }

  /** `mergeJobResult`: a job row read late enriches a node, and leaves its status to the stream. */
  function Merge(v: View, j: JobId, job: Job): View {
    if j !in v.nodes then v
    else
      var node := v.nodes[j];
      v.(nodes := v.nodes[j := node.(
        attempts := job.attempts,
        vm := Else(job.vm, node.vm),
        summary := Else(job.result, node.summary),
        error := if job.status.Succeeded? then None else Else(job.error, node.error))])
  }

  function SeedNode(job: Job): Node {
    Node(job.spec.parent, job.status, job.attempts, job.vm, job.result, job.error, [])
  }

  /** `seedFromJobs`: `ids` lists the run's jobs as the detail request returned them. */
  function Seed(jobs: map<JobId, Job>, ids: seq<JobId>, status: RunStatus): View
    requires forall j :: j in ids ==> j in jobs
    decreases |ids|
  {
    if ids == [] then View(status, [], map[])
    else
      var n := |ids| - 1;
      var v := Seed(jobs, ids[..n], status);
      v.(order := v.order + [ids[n]], nodes := v.nodes[ids[n] := SeedNode(jobs[ids[n]])])
  }

  /* ------------------------- the fold as a reference ------------------------- */

  /** The view after the whole of `log` has been applied to `seed`, once and in order. */
  function Replay(seed: View, log: seq<Event>): View {
    if log == [] then seed else Apply(Replay(seed, log[..|log| - 1]), Row(|log|, log[|log| - 1]))
  }

  /** The status the stream last gave job `j`, whoever said so. */
  function Shown(log: seq<Event>, j: JobId): Option<JobStatus> {
    if log == [] then None
    else
      var e := log[|log| - 1];
      if e.job == Some(j) && e.body.StatusIs? then Some(e.body.status) else Shown(log[..|log| - 1], j)
  }

  function RunShown(log: seq<Event>): Option<RunStatus> {
    if log == [] then None
    else if log[|log| - 1].body.RunIs? then Some(log[|log| - 1].body.run)
    else RunShown(log[..|log| - 1])
  }

  /** What an event says about who spawned `j`; nothing, if it says nothing about that. */
  function SaysParent(e: Event, j: JobId): Option<JobId> {
    if e.body.SpawnedChild? && e.body.child == j then SenderJob(e.from) else None
  }

  predicate Speaks(e: Event, j: JobId) { e.body.StatusIs? && e.job == Some(j) }

  function SaysVm(e: Event, j: JobId): Option<VmId> { if Speaks(e, j) then e.body.vm else None }

  function SaysAttempts(e: Event, j: JobId): Option<nat> { if Speaks(e, j) then e.body.attempts else None }

  function SaysSummary(e: Event, j: JobId): Option<string> {
    if Speaks(e, j) && e.body.status.Succeeded? then e.body.detail else None
  }

  /** A success clears the error, a failure that gives a reason sets it. */
  function SaysError(e: Event, j: JobId): Option<Option<string>> {
    if Speaks(e, j) && e.body.status.Succeeded? then Some(None)
    else if Speaks(e, j) && e.body.status.Failed? && e.body.detail.Some? then Some(e.body.detail)
    else None
  }

  /** The last thing the stream says about `j` in some respect, or else `before`. */
  function Latest<T>(log: seq<Event>, j: JobId, says: (Event, JobId) -> Option<T>, before: T): T {
    if log == [] then before
    else
      var said := says(log[|log| - 1], j);
      if said.Some? then said.value else Latest(log[..|log| - 1], j, says, before)
  }

  function Lifted<T>(says: (Event, JobId) -> Option<T>): (Event, JobId) -> Option<Option<T>> {
    (e: Event, j: JobId) => if says(e, j).Some? then Some(says(e, j)) else None
  }

  /** Whether an event adds a line to the trace of `j`. */
  predicate Traces(e: Event, j: JobId) {
    if e.body.RunIs? then false
    else if e.body.StatusIs? then e.job == Some(j)
    else Subject(e) == Some(j)
  }

  /** Everything the stream has to say about `j`. */
  function Trace(log: seq<Event>, j: JobId): seq<Line> {
    if log == [] then []
    else
      var e := log[|log| - 1];
      var before := Trace(log[..|log| - 1], j);
      if Traces(e, j) then before + [Line(|log|, e.body)] else before
  }

  predicate Alike(a: Node, b: Node) { a.status == b.status && a.parent == b.parent && a.activity == b.activity }

  /** Two views that differ at most in the fields a late job row may enrich. */
  predicate SameStory(v: View, w: View) {
    && v.status == w.status && v.order == w.order && v.nodes.Keys == w.nodes.Keys
    && forall j :: j in v.nodes ==> Alike(v.nodes[j], w.nodes[j])
  }

  /** Discovery order lists every node once. */
  ghost predicate Listed(v: View) {
    && (forall j :: j in v.order <==> j in v.nodes)
    && (forall a, b :: 0 <= a < b < |v.order| ==> v.order[a] != v.order[b])
  }

  /* --------------------------------- lemmas --------------------------------- */

  lemma {:induction false} ApplyAllIsReplay(seed: View, log: seq<Event>, a: nat, rows: seq<Row>)
    requires a + |rows| <= |log|
    requires forall i :: 0 <= i < |rows| ==> rows[i] == Row(a + 1 + i, log[a + i])
    ensures ApplyAll(Replay(seed, log[..a]), rows) == Replay(seed, log[..a + |rows|])
    decreases |rows|
  {
    hide Apply;
    if rows != [] {
      assert log[..a + 1][..a] == log[..a];
      ApplyAllIsReplay(seed, log, a + 1, rows[1..]);
    }
  }

  lemma {:induction false} OneMoreRow(seed: View, log: seq<Event>, a: nat)
    requires a < |log|
    ensures Replay(seed, log[..a + 1]) == Apply(Replay(seed, log[..a]), Row(a + 1, log[a]))
  {
    assert log[..a + 1][..a] == log[..a];
  }

  /** A node shows the status the stream last gave it; only a job the stream never mentioned keeps its seeded one. */
  lemma {:induction false} ReplayStatus(seed: View, log: seq<Event>, j: JobId)
    ensures Shown(log, j).Some? ==>
      j in Replay(seed, log).nodes && Replay(seed, log).nodes[j].status == Shown(log, j).value
    ensures Shown(log, j).None? && j in seed.nodes ==>
      j in Replay(seed, log).nodes && Replay(seed, log).nodes[j].status == seed.nodes[j].status
    decreases |log|
  {
    if log != [] { ReplayStatus(seed, log[..|log| - 1], j); }
  }

  lemma {:induction false} ReplayRunStatus(seed: View, log: seq<Event>)
    ensures Replay(seed, log).status == if RunShown(log).Some? then RunShown(log).value else seed.status
    decreases |log|
  {
    if log != [] { ReplayRunStatus(seed, log[..|log| - 1]); }
  }

  lemma {:induction false} ApplyFields(v: View, row: Row, j: JobId)
    ensures var a, b, e := NodeOf(v, j), NodeOf(Apply(v, row), j), row.event;
      && b.parent == Else(SaysParent(e, j), a.parent)
      && b.vm == Else(SaysVm(e, j), a.vm)
      && b.attempts == (if SaysAttempts(e, j).Some? then SaysAttempts(e, j).value else a.attempts)
      && b.summary == Else(SaysSummary(e, j), a.summary)
      && b.error == (if SaysError(e, j).Some? then SaysError(e, j).value else a.error)
  {}

  /**
   * In every field the last word wins: a node shows the last spawner, machine, attempt
   * count and summary the stream named for it, and the last failure's reason unless a
   * success came after it; what the stream never mentioned is as it was seeded.
   */
  lemma {:induction false} ReplayFields(seed: View, log: seq<Event>, j: JobId)
    ensures var a, b := NodeOf(seed, j), NodeOf(Replay(seed, log), j);
      && b.parent == Latest(log, j, Lifted(SaysParent), a.parent)
      && b.vm == Latest(log, j, Lifted(SaysVm), a.vm)
      && b.attempts == Latest(log, j, SaysAttempts, a.attempts)
      && b.summary == Latest(log, j, Lifted(SaysSummary), a.summary)
      && b.error == Latest(log, j, SaysError, a.error)
    decreases |log|
  {
    if log != [] {
      var n := |log| - 1;
      ReplayFields(seed, log[..n], j);
      ApplyFields(Replay(seed, log[..n]), Row(|log|, log[n]), j);
      hide Apply, SaysParent, SaysVm, SaysAttempts, SaysSummary, SaysError;
    }
  }

  lemma LastOfMore<T>(s: seq<T>, x: T, n: nat)
    requires n > 0
    ensures Last(Last(s, n) + [x], n) == Last(s + [x], n)
  {}

  lemma {:induction false} ApplyActivity(v: View, row: Row, j: JobId)
    ensures NodeOf(Apply(v, row), j).activity ==
      if Traces(row.event, j) then Last(NodeOf(v, j).activity + [Line(row.seqNo, row.event.body)], MAX_ACTIVITY)
      else NodeOf(v, j).activity
  {}

  /** An agent's trace is exactly the last 400 of the lines the stream has for it. */
  lemma {:induction false} ReplayTrace(seed: View, log: seq<Event>, j: JobId)
    requires NodeOf(seed, j).activity == []
    ensures NodeOf(Replay(seed, log), j).activity == Last(Trace(log, j), MAX_ACTIVITY)
    decreases |log|
  {
    if log != [] {
      var n := |log| - 1;
      ReplayTrace(seed, log[..n], j);
      ApplyActivity(Replay(seed, log[..n]), Row(|log|, log[n]), j);
      LastOfMore(Trace(log[..n], j), Line(|log|, log[n].body), MAX_ACTIVITY);
    }
  }

  lemma {:induction false} EditListed(v: View, j: JobId, node: Node)
    requires Listed(v)
    ensures Listed(Edit(v, j, node)) && v.order <= Edit(v, j, node).order
  {}

  lemma {:induction false} ApplyListed(v: View, row: Row)
    requires Listed(v)
    ensures Listed(Apply(v, row)) && v.order <= Apply(v, row).order
  {
    hide Listed, Last, WithStatus;
    var e := row.event;
    match e.body
    case RunIs(s) => StatusListed(v, s);
    case StatusIs(_, _, _, _) =>
      if e.job.Some? {
        var v1 := Edit(v, e.job.value, WithStatus(NodeOf(v, e.job.value), e.body));
        EditListed(v, e.job.value, WithStatus(NodeOf(v, e.job.value), e.body));
        NoteListed(v1, e.job.value, row);
      }
    case SpawnedChild(child) =>
      var node := NodeOf(v, child);
      EditListed(v, child, node.(parent := Else(Subject(e), node.parent)));
      if Subject(e).Some? {
        NoteListed(Edit(v, child, node.(parent := Else(Subject(e), node.parent))), Subject(e).value, row);
      }
    case Note(_) => if Subject(e).Some? { NoteListed(v, Subject(e).value, row); }
  }

  lemma StatusListed(v: View, s: RunStatus)
    requires Listed(v)
    ensures Listed(v.(status := s))
  {}

  lemma {:induction false} NoteListed(v: View, j: JobId, row: Row)
    requires Listed(v)
    ensures Listed(NoteLine(v, j, row)) && v.order <= NoteLine(v, j, row).order
  {
    var node := NodeOf(v, j);
    EditListed(v, j, node.(activity := Last(node.activity + [Line(row.seqNo, row.event.body)], MAX_ACTIVITY)));
  }

  /** Discovery order never changes once shown, and lists every node exactly once. */
  lemma {:induction false} ReplayListed(seed: View, log: seq<Event>, n: nat)
    requires Listed(seed) && n <= |log|
    ensures Listed(Replay(seed, log)) && Replay(seed, log[..n]).order <= Replay(seed, log).order
    decreases |log|
  {
    hide Listed, Apply;
    if n == |log| { assert log[..n] == log; }
    if log != [] {
      var m := |log| - 1;
      ReplayListed(seed, log[..m], Min(n, m));
      if n < |log| { assert log[..m][..n] == log[..n]; }
      ApplyListed(Replay(seed, log[..m]), Row(|log|, log[m]));
    }
  }

  lemma {:induction false} MergeKeepsStory(v: View, w: View, j: JobId, job: Job)
    requires SameStory(v, w)
    ensures SameStory(Merge(v, j, job), w)
  {}

  lemma {:induction false} EditKeepsStory(v: View, w: View, j: JobId, a: Node, b: Node)
    requires SameStory(v, w) && Alike(a, b)
    ensures SameStory(Edit(v, j, a), Edit(w, j, b))
  {}

  lemma {:induction false} NodesAlike(v: View, w: View, j: JobId)
    requires SameStory(v, w)
    ensures Alike(NodeOf(v, j), NodeOf(w, j))
  {}

  lemma {:induction false} NoteKeepsStory(v: View, w: View, j: JobId, row: Row)
    requires SameStory(v, w)
    ensures SameStory(NoteLine(v, j, row), NoteLine(w, j, row))
  {
    NodesAlike(v, w, j);
    hide SameStory, Last;
    var a, b := NodeOf(v, j), NodeOf(w, j);
    EditKeepsStory(v, w, j,
      a.(activity := Last(a.activity + [Line(row.seqNo, row.event.body)], MAX_ACTIVITY)),
      b.(activity := Last(b.activity + [Line(row.seqNo, row.event.body)], MAX_ACTIVITY)));
  }

  lemma StatusKeepsStory(v: View, w: View, s: RunStatus)
    requires SameStory(v, w)
    ensures SameStory(v.(status := s), w.(status := s))
  {}

  /** An event tells two views of the same story the same thing. */
  lemma {:induction false} ApplyKeepsStory(v: View, w: View, row: Row)
    requires SameStory(v, w)
    ensures SameStory(Apply(v, row), Apply(w, row))
  {
    hide SameStory, NoteLine, Edit, NodeOf;
    var e := row.event;
    match e.body
    case RunIs(s) => StatusKeepsStory(v, w, s);
    case StatusIs(_, _, _, _) =>
      if e.job.Some? {
        var j := e.job.value;
        var a, b := WithStatus(NodeOf(v, j), e.body), WithStatus(NodeOf(w, j), e.body);
        NodesAlike(v, w, j);
        EditKeepsStory(v, w, j, a, b);
        NoteKeepsStory(Edit(v, j, a), Edit(w, j, b), j, row);
      }
    case SpawnedChild(child) =>
      var a, b := NodeOf(v, child), NodeOf(w, child);
      var a', b' := a.(parent := Else(Subject(e), a.parent)), b.(parent := Else(Subject(e), b.parent));
      NodesAlike(v, w, child);
      EditKeepsStory(v, w, child, a', b');
      if Subject(e).Some? { NoteKeepsStory(Edit(v, child, a'), Edit(w, child, b'), Subject(e).value, row); }
    case Note(_) => if Subject(e).Some? { NoteKeepsStory(v, w, Subject(e).value, row); }
  }

  /* ------------------------------ late job rows ------------------------------ */

  /**
   * An enriched node shows the row. Wherever the row has a machine, a summary or, unless
   * it succeeded, an error, the node shows it after a merge just as it would if it had
   * been seeded from the row, and its attempts are the row's; where the row has nothing the
   * node keeps what it had, except that a success shows no error. No other node changes,
   * and a job the view does not know is not added.
   */
  lemma {:induction false} MergedShowsRow(v: View, j: JobId, job: Job)
    ensures var w := Merge(v, j, job); var s := SeedNode(job);
      if j !in v.nodes then w == v
      else
        && w.nodes.Keys == v.nodes.Keys && (forall k :: k in v.nodes && k != j ==> w.nodes[k] == v.nodes[k])
        && w.nodes[j].attempts == s.attempts
        && (w.nodes[j].vm == if s.vm.Some? then s.vm else v.nodes[j].vm)
        && (w.nodes[j].summary == if s.summary.Some? then s.summary else v.nodes[j].summary)
        && (job.status.Succeeded? ==> w.nodes[j].error.None?)
        && (!job.status.Succeeded? ==> w.nodes[j].error == if s.error.Some? then s.error else v.nodes[j].error)
  {}

  /** What the columns of a row are shown as. */
  predicate ShowsRow(node: Node, job: Job) {
    && node.status == job.status && node.parent == job.spec.parent && node.attempts == job.attempts
    && node.vm == job.vm && node.summary == job.result && node.error == job.error && node.activity == []
  }

  lemma {:induction false} SeedShowsRow(jobs: map<JobId, Job>, ids: seq<JobId>, status: RunStatus, j: JobId)
    requires forall k :: k in ids ==> k in jobs
    ensures var v := Seed(jobs, ids, status);
      v.status == status && v.order == ids && (j in v.nodes <==> j in ids)
        && (j in ids ==> ShowsRow(v.nodes[j], jobs[j]))
    decreases |ids|
  {
    if ids != [] {
      var n := |ids| - 1;
      SeedShowsRow(jobs, ids[..n], status, j);
      assert ids == ids[..n] + [ids[n]];
    }
  }

  /** A seeded view lists the jobs in the order given and shows every one of them as its row. */
  lemma {:induction false} SeedShowsRows(jobs: map<JobId, Job>, ids: seq<JobId>, status: RunStatus)
    requires forall j :: j in ids ==> j in jobs
    ensures var v := Seed(jobs, ids, status);
      && v.status == status && v.order == ids && (forall j :: j in v.nodes <==> j in ids)
      && forall j :: j in ids ==> ShowsRow(v.nodes[j], jobs[j])
  {
    hide Seed, ShowsRow;
    SeedShowsRow(jobs, ids, status, 0);
    forall j ensures var v := Seed(jobs, ids, status);
      (j in v.nodes <==> j in ids) && (j in ids ==> ShowsRow(v.nodes[j], jobs[j]))
    { SeedShowsRow(jobs, ids, status, j); }
  }

  /** Merging a row into the node seeded from it changes nothing, unless a success still carries an old error. */
  lemma {:induction false} MergeOfSeed(v: View, j: JobId, job: Job)
    requires j in v.nodes && ShowsRow(v.nodes[j], job) && (job.status.Succeeded? ==> job.error.None?)
    ensures Merge(v, j, job) == v
  {
    assert v.nodes[j := v.nodes[j]] == v.nodes;
  }
}
