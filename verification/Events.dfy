/** The vocabulary of the run event stream: job and run statuses and the events that report them. */
module Events {
  import opened Common

  type JobId = nat
  type RunId = nat
  type VmId = nat

  datatype JobStatus = Queued | Claimed | Running | Succeeded | Failed | Cancelled

  predicate Terminal(s: JobStatus) { s.Succeeded? || s.Failed? || s.Cancelled? }

  predicate Leased(s: JobStatus) { s.Claimed? || s.Running? }

  datatype RunStatus = RunQueued | RunRunning | Completed | RunFailed | RunCancelled

  predicate RunOver(s: RunStatus) { s.Completed? || s.RunFailed? || s.RunCancelled? }

  datatype Actor = Orchestrator | Agent(job: JobId)

  /** What an event says. `Note` stands for the kinds that carry no status: messages, logs, tool calls, CI, verdicts. */
  datatype Body =
    | StatusIs(status: JobStatus, vm: Option<VmId>, attempts: Option<nat>, detail: Option<string>)
    | RunIs(run: RunStatus)
    | SpawnedChild(child: JobId)
    | Note(text: string)

  /** One event of a run. Its sequence number is its position in the run's log, counted from 1. */
  datatype Event = Event(job: Option<JobId>, from: Actor, body: Body)

  /** A stored event together with its sequence number, as the store returns it. */
  datatype Row = Row(seqNo: nat, event: Event)

  predicate Genuine(log: seq<Event>, row: Row) { 0 < row.seqNo <= |log| && row.event == log[row.seqNo - 1] }

  /** `listEvents`: at most `limit` rows after `after`, read when the first `seen` events were committed. */
  function Page(log: seq<Event>, seen: nat, after: nat, limit: nat): (p: seq<Row>)
    requires seen <= |log|
    ensures |p| == if after >= seen then 0 else Min(limit, seen - after)
    ensures forall i :: 0 <= i < |p| ==> p[i] == Row(after + 1 + i, log[after + i])
  {
    var n := if after >= seen then 0 else Min(limit, seen - after);
    seq(n, i requires 0 <= i < n => Row(after + 1 + i, log[after + i]))
  }
}
