/**
 * The agent's turn loop and its durable journal. The process may die at any
 * checkpoint, which may or may not have been stored; a new process then resumes
 * from whatever is stored. The model, the tools and the lease are oracles.
 */
module AgentLoop {
  import opened Common
  import opened Transcript

  datatype Response = Response(text: string, calls: seq<Call>, budgetExhausted: bool)

  /** A response whose calls are being worked through: `next` is the current one, `started` that it may have run. */
  datatype Pending = Pending(response: Response, next: nat, started: bool, results: seq<ToolResult>)

  /** What is saved, and also everything the loop carries from one turn to the next. */
  datatype Checkpoint = Checkpoint(
    step: nat, messages: seq<Message>, pending: Option<Pending>, finished: bool,
    summary: string, blocked: Option<Reason>)

  /** The limits of the job and its tools: their names, and which of them end it. */
  datatype Config = Config(maxSteps: nat, keepFull: int, tools: set<string>, terminal: set<string>)

  /** One execution of a tool: the `index`th call of the response of step `step`. */
  datatype Exec = Exec(step: nat, index: nat, call: Call)

  /** Why a process stops before the job is finished. */
  datatype Reason = LeaseLost | BudgetExhausted | NeedsReconciliation | ModelFailed(message: string)

  /** What a tool gave back, and whether it succeeded. */
  datatype Output = Output(text: string, ok: bool)

  /**
   * What may keep a process from going on: a save was not acknowledged, the lease was
   * gone, the model failed, or the model had spent its budget.
   */
  datatype Cause = Unsaved | Unleased | Unanswered(message: string) | Unpaid

  datatype End = Crashed | Stopped(reason: Reason) | Exhausted | Finished(summary: string)

  const NUDGE := "Call a tool or finish."

  /** Near the cap the agent is asked to land. */
  function Landing(remaining: nat): Message {
    User("You have " + Decimal(remaining + 1) + " step(s) left.")
  }

  function NoSuchTool(tool: string): string { "ERROR: no such tool \"" + tool + "\"." }

  predicate Command(tool: string) { tool == "run_command" || tool == "run_tests" }

  /* ------------------------------- the journal ------------------------------- */

  /** `x` is something the checkpoint `d` admits may have run. */
  predicate Covered(d: Checkpoint, x: Exec) {
    if d.pending.None? then x.step <= d.step
    else
      var p := d.pending.value;
      x.step < d.step ||
      (x.step == d.step && x.index < |p.response.calls| && x.call == p.response.calls[x.index]
       && (x.index < p.next || (x.index == p.next && p.started)))
  }

  ghost predicate Journalled(d: Checkpoint, executed: seq<Exec>) { forall x :: x in executed ==> Covered(d, x) }

  predicate NotAfter(x: Exec, y: Exec) { x.step < y.step || (x.step == y.step && x.index <= y.index) }

  /** Two executions in this order: never going back, and the same place again only for a tool that is no command. */
  predicate InOrder(x: Exec, y: Exec) {
    NotAfter(x, y) && (x.step == y.step && x.index == y.index ==> x.call == y.call && !Command(x.call.tool))
  }

  predicate InOrderAt(executed: seq<Exec>, a: nat, b: nat) { a < b < |executed| ==> InOrder(executed[a], executed[b]) }

  ghost predicate OnceInOrder(executed: seq<Exec>) { forall a: nat, b: nat :: InOrderAt(executed, a, b) }

  /** A command may have run and nobody knows: it is the current call and was started. */
  predicate Uncertain(d: Checkpoint, tools: set<string>) {
    && !d.finished && d.pending.Some? && d.pending.value.started
      && d.pending.value.next < |d.pending.value.response.calls|
    && var call := d.pending.value.response.calls[d.pending.value.next]; Command(call.tool) && call.tool in tools
  }

  /* ------------------------------- the transcript ------------------------------- */

  /** The results so far answer the first calls, in order. */
  predicate ResultsSoFar(p: Pending) {
    && |p.results| == p.next <= |p.response.calls|
    && forall i :: 0 <= i < p.next ==> p.results[i].id == p.response.calls[i].id
  }

  /** With a window of at least one step, the transcript is well formed. */
  predicate Neat(ms: seq<Message>, keepFull: int) { keepFull >= 1 ==> WellFormed(ms) }

  /** The shape a checkpoint's transcript has while the job goes on. */
  predicate Sound(d: Checkpoint, keepFull: int) {
    && (d.pending.None? && !d.finished ==> d.messages != [] && Neat(d.messages, keepFull))
    && (d.pending.Some? && !d.finished ==>
          var p := d.pending.value; var n := |d.messages|;
          && p.response.calls != [] && ResultsSoFar(p)
          && n > 0 && d.messages[n - 1] == Assistant(p.response.text, p.response.calls)
          && Neat(d.messages[..n - 1], keepFull))
  }

  /** What may be sent to the model: paired turns, and at most a call to land behind them. */
  predicate GoodPrompt(prompt: seq<Message>, keepFull: int) {
    keepFull >= 1 ==>
      && |prompt| <= 2 * keepFull + 3
      && (WellFormed(prompt) || (prompt != [] && prompt[|prompt| - 1].User? && WellFormed(prompt[..|prompt| - 1])))
  }

  /* --------------------------------- lemmas --------------------------------- */

  /** Running the current call for the first time in this place keeps the order. */
  lemma {:induction false} RunsInOrder(d: Checkpoint, executed: seq<Exec>, before: Checkpoint)
    requires OnceInOrder(executed) && Journalled(before, executed)
    requires before.pending.Some? && before.pending.value.next < |before.pending.value.response.calls|
    requires d == before.(pending := Some(before.pending.value.(started := true)))
    requires before.pending.value.started ==>
      !Command(before.pending.value.response.calls[before.pending.value.next].tool)
    ensures var p := d.pending.value; var x := Exec(d.step, p.next, p.response.calls[p.next]);
      OnceInOrder(executed + [x]) && Journalled(d, executed + [x])
  {
    var p := d.pending.value;
    var x := Exec(d.step, p.next, p.response.calls[p.next]);
    forall a: nat, b: nat ensures InOrderAt(executed + [x], a, b) {
      if a < b == |executed| {
        assert executed[a] in executed;
        assert Covered(before, executed[a]);
      } else {
        assert InOrderAt(executed, a, b);
      }
    }
  }

  /** Moving on never uncovers anything. */
  lemma {:induction false} MovesOn(d: Checkpoint, d': Checkpoint, executed: seq<Exec>)
    requires Journalled(d, executed)
    requires d'.step >= d.step && (d'.step == d.step ==> Farther(d, d'))
    ensures Journalled(d', executed)
  {
    forall x | x in executed ensures Covered(d', x) { assert Covered(d, x); }
  }

  /** Within a step: towards later calls, and from the last of them to the end of the step. */
  predicate Farther(d: Checkpoint, d': Checkpoint) {
    d'.pending.None? ||
    (d.pending.Some? && d'.pending.value.response == d.pending.value.response
     && (d.pending.value.next < d'.pending.value.next
         || (d.pending.value.next == d'.pending.value.next && (d.pending.value.started ==> d'.pending.value.started))))
  }

  lemma {:induction false} StepClosed(messages: seq<Message>, a: Message, m: Message)
    requires WellFormed(messages) && a.Assistant? && Answers(m, a)
    ensures WellFormed(messages + [a, m])
  {
    var from := 1 + Lead(messages);
    PairedAppend(messages[from..], a, m);
    assert (messages + [a, m])[1 + Lead(messages + [a, m])..] == messages[from..] + [a, m];
  }

  lemma PromptGood(messages: seq<Message>, keepFull: int, remaining: nat)
    requires keepFull >= 1 ==> WellFormed(messages) && |messages| <= 2 + 2 * keepFull
    ensures GoodPrompt(messages, keepFull) && GoodPrompt(messages + [Landing(remaining)], keepFull)
  {
    assert (messages + [Landing(remaining)])[..|messages|] == messages;
  }

  lemma {:induction false} CompactGood(messages: seq<Message>, keepFull: int, remaining: nat)
    requires messages != [] && Neat(messages, keepFull)
    ensures var c := Compact(messages, keepFull).messages;
      && c != [] && Neat(c, keepFull) && GoodPrompt(c, keepFull) && GoodPrompt(c + [Landing(remaining)], keepFull)
  {
    if keepFull >= 1 { CompactKeepsPairs(messages, keepFull); }
    hide WellFormed;
    PromptGood(Compact(messages, keepFull).messages, keepFull, remaining);
  }

  /** The model neither called a tool nor finished. */
  function Nudged(d: Checkpoint, text: string): Checkpoint {
    d.(messages := d.messages + [Assistant(if text == "" then "(no output)" else text, []), User(NUDGE)])
  }

  /** The model's intent, not yet acted on. */
  function Intending(d: Checkpoint, response: Response): Checkpoint {
    d.(messages := d.messages + [Assistant(response.text, response.calls)],
      pending := Some(Pending(response, 0, false, [])))
  }

  lemma {:induction false} NudgedSound(
      start: Checkpoint, d: Checkpoint, messages: seq<Message>, text: string, executed: seq<Exec>, keepFull: int)
    requires Journalled(start, executed) && start.pending.None? && !start.finished && Neat(messages, keepFull)
    requires d == Nudged(start.(step := start.step + 1, messages := messages), text)
    ensures Journalled(d, executed) && Sound(d, keepFull)
  {
    MovesOn(start, d, executed);
    if keepFull >= 1 { StepClosed(messages, Assistant(if text == "" then "(no output)" else text, []), User(NUDGE)); }
  }

  lemma {:induction false} IntendingSound(
      start: Checkpoint, d: Checkpoint, messages: seq<Message>, response: Response, executed: seq<Exec>, keepFull: int)
    requires Journalled(start, executed) && start.pending.None? && !start.finished && Neat(messages, keepFull)
    requires response.calls != [] && d == Intending(start.(step := start.step + 1, messages := messages), response)
    ensures Journalled(d, executed) && Sound(d, keepFull)
  {
    MovesOn(start, d, executed);
    assert d.messages[..|d.messages| - 1] == messages;
  }

  /** The current call is about to run. */
  function Begun(d: Checkpoint): Checkpoint
    requires d.pending.Some?
  {
    d.(pending := Some(d.pending.value.(started := true)))
  }

  /** The current call has its result, and the next one is up. */
  function Advanced(d: Checkpoint, output: string, started: bool): Checkpoint
    requires d.pending.Some? && d.pending.value.next < |d.pending.value.response.calls|
  {
    var p := d.pending.value;
    var call := p.response.calls[p.next];
    d.(pending := Some(p.(results := p.results + [ToolResult(call.id, call.tool, output)],
      next := p.next + 1, started := started)))
  }

  lemma {:induction false} BegunSound(d: Checkpoint, executed: seq<Exec>, keepFull: int)
    requires d.pending.Some? && Sound(d, keepFull) && Journalled(d, executed)
    ensures Sound(Begun(d), keepFull) && Journalled(Begun(d), executed)
  {
    MovesOn(d, Begun(d), executed);
  }

  lemma {:induction false} AdvancedSound(
      d: Checkpoint, executed: seq<Exec>, output: string, started: bool, finished: bool, summary: string, keepFull: int)
    requires d.pending.Some? && d.pending.value.next < |d.pending.value.response.calls|
    requires !d.finished && Sound(d, keepFull) && Journalled(d, executed)
    ensures var d' := Advanced(d, output, started).(finished := finished, summary := summary);
      Sound(d', keepFull) && Journalled(d', executed)
  {
    MovesOn(d, Advanced(d, output, started).(finished := finished, summary := summary), executed);
  }

  lemma {:induction false} BlockedSound(d: Checkpoint, executed: seq<Exec>, reason: Reason, keepFull: int)
    requires Sound(d, keepFull) && Journalled(d, executed)
    ensures Sound(d.(blocked := Some(reason)), keepFull) && Journalled(d.(blocked := Some(reason)), executed)
  {
    forall x | x in executed ensures Covered(d.(blocked := Some(reason)), x) { assert Covered(d, x); }
  }

  /** The step is closed: the results go into the transcript. */
  function Answered(d: Checkpoint): Checkpoint
    requires d.pending.Some?
  {
    d.(messages := d.messages + [Results(d.pending.value.results)], pending := None)
  }

  lemma {:induction false} AnsweredSound(d: Checkpoint, executed: seq<Exec>, keepFull: int)
    requires d.pending.Some? && Sound(d, keepFull) && Journalled(d, executed)
    requires !d.finished ==> d.pending.value.next == |d.pending.value.response.calls|
    ensures Sound(Answered(d), keepFull) && Journalled(Answered(d), executed)
  {
    MovesOn(d, Answered(d), executed);
    if !d.finished {
      var n := |d.messages|;
      var a := d.messages[n - 1];
      if keepFull >= 1 { StepClosed(d.messages[..n - 1], a, Results(d.pending.value.results)); }
      assert Answered(d).messages == d.messages[..n - 1] + [a, Results(d.pending.value.results)];
    }
  }

  lemma Resumed(d: Checkpoint, durable: Option<Checkpoint>, executed: seq<Exec>, brief: string, keepFull: int)
    requires durable.None? ==> executed == [] && d == Checkpoint(0, [User(brief)], None, false, "", None)
    requires durable.Some? ==>
      && Journalled(durable.value, executed) && Sound(durable.value, keepFull)
      && d == durable.value.(messages := if durable.value.messages == [] then [User(brief)] else durable.value.messages)
    ensures Journalled(d, executed) && Sound(d, keepFull)
  {
    if durable.Some? {
      assert forall x :: x in executed ==> Covered(durable.value, x);
    } else {
      assert [User(brief)][1..] == [];
    }
  }

  /* ------------------------------ a step's executions ------------------------------ */

  /** The executions that make up the calls `from` to `until` of a response: one for each known tool, in order. */
  ghost function Ran(step: nat, calls: seq<Call>, from: nat, until: nat, tools: set<string>): seq<Exec>
    requires from <= until && until <= |calls|
    decreases until
  {
    if until == from then []
    else
      Ran(step, calls, from, until - 1, tools)
      + if calls[until - 1].tool in tools then [Exec(step, until - 1, calls[until - 1])] else []
  }

  /** The answers to these calls: what the execution returned, or that there is no such tool. */
  ghost function Replies(
      step: nat, calls: seq<Call>, from: nat, until: nat, tools: set<string>, outputs: seq<Output>): seq<ToolResult>
    requires from <= until && until <= |calls| && |outputs| == |Ran(step, calls, from, until, tools)|
    decreases until
  {
    if until == from then []
    else
      var call := calls[until - 1];
      if call.tool in tools then
        Replies(step, calls, from, until - 1, tools, outputs[..|outputs| - 1])
        + [ToolResult(call.id, call.tool, outputs[|outputs| - 1].text)]
      else
        Replies(step, calls, from, until - 1, tools, outputs) + [ToolResult(call.id, call.tool, NoSuchTool(call.tool))]
  }

  /**
   * The calls of `p` up to `until` have been worked through: every known one has been
   * executed once, in order, and `results` holds what each of them answered.
   */
  ghost predicate WorkedOff(
      step: nat, p: Pending, until: nat, tools: set<string>, ran: seq<Exec>,
      outputs: seq<Output>, results: seq<ToolResult>)
  {
    && p.next <= until && until <= |p.response.calls|
    && ran == Ran(step, p.response.calls, p.next, until, tools) && |outputs| == |ran|
    && results == p.results + Replies(step, p.response.calls, p.next, until, tools, outputs)
  }

  lemma StartedOff(step: nat, p: Pending, tools: set<string>)
    requires p.next <= |p.response.calls|
    ensures WorkedOff(step, p, p.next, tools, [], [], p.results)
  {
    assert Ran(step, p.response.calls, p.next, p.next, tools) == [];
  }

  lemma {:induction false} OneWorkedOff(step: nat, p: Pending, tools: set<string>, outputs: seq<Output>)
    requires p.next < |p.response.calls|
    requires |outputs| == if p.response.calls[p.next].tool in tools then 1 else 0
    ensures var call := p.response.calls[p.next]; var known := call.tool in tools;
      WorkedOff(step, p, p.next + 1, tools, if known then [Exec(step, p.next, call)] else [], outputs,
        p.results + [ToolResult(call.id, call.tool, if known then outputs[0].text else NoSuchTool(call.tool))])
  {
    assert Ran(step, p.response.calls, p.next, p.next, tools) == [];
  }

  lemma {:induction false} WorkedOn(
      step: nat, p: Pending, q: Pending, until: nat, tools: set<string>, ran: seq<Exec>, outputs: seq<Output>,
      ran': seq<Exec>, outputs': seq<Output>, results: seq<ToolResult>)
    requires q.response == p.response && WorkedOff(step, p, q.next, tools, ran, outputs, q.results)
    requires WorkedOff(step, q, until, tools, ran', outputs', results)
    ensures WorkedOff(step, p, until, tools, ran + ran', outputs + outputs', results)
  {
    RanOn(step, p.response.calls, p.next, q.next, until, tools);
    RepliesOn(step, p.response.calls, p.next, q.next, until, tools, outputs, outputs');
    hide Ran, Replies;
    assert (p.results + Replies(step, p.response.calls, p.next, q.next, tools, outputs))
        + Replies(step, q.response.calls, q.next, until, tools, outputs')
      == p.results + (Replies(step, p.response.calls, p.next, q.next, tools, outputs)
        + Replies(step, q.response.calls, q.next, until, tools, outputs'));
  }

  lemma {:induction false} RanOn(step: nat, calls: seq<Call>, a: nat, b: nat, c: nat, tools: set<string>)
    requires a <= b && b <= c && c <= |calls|
    ensures Ran(step, calls, a, c, tools) == Ran(step, calls, a, b, tools) + Ran(step, calls, b, c, tools)
    decreases c
  {
    if b < c { RanOn(step, calls, a, b, c - 1, tools); }
  }

  /** One more reply. */
  lemma RepliesStep(step: nat, calls: seq<Call>, a: nat, c: nat, tools: set<string>, outputs: seq<Output>)
    requires a < c && c <= |calls| && |outputs| == |Ran(step, calls, a, c, tools)|
    ensures var call := calls[c - 1]; var known := call.tool in tools;
      && (known ==> outputs != [])
      && var rest := if known then outputs[..|outputs| - 1] else outputs;
      && |rest| == |Ran(step, calls, a, c - 1, tools)|
      && Replies(step, calls, a, c, tools, outputs) == Replies(step, calls, a, c - 1, tools, rest)
           + [ToolResult(call.id, call.tool, if known then outputs[|outputs| - 1].text else NoSuchTool(call.tool))]
  {}

  lemma RepliesNone(step: nat, calls: seq<Call>, a: nat, tools: set<string>)
    requires a <= |calls|
    ensures Ran(step, calls, a, a, tools) == [] && Replies(step, calls, a, a, tools, []) == []
  {}

  lemma LastOff(first: seq<Output>, rest: seq<Output>)
    requires rest != []
    ensures (first + rest)[..|first + rest| - 1] == first + rest[..|rest| - 1]
    ensures (first + rest)[|first + rest| - 1] == rest[|rest| - 1]
  {}

  lemma {:induction false} RepliesOn(
      step: nat, calls: seq<Call>, a: nat, b: nat, c: nat, tools: set<string>, first: seq<Output>, rest: seq<Output>)
    requires a <= b && b <= c && c <= |calls|
    requires |first| == |Ran(step, calls, a, b, tools)| && |rest| == |Ran(step, calls, b, c, tools)|
    ensures |first + rest| == |Ran(step, calls, a, c, tools)|
    ensures Replies(step, calls, a, c, tools, first + rest)
      == Replies(step, calls, a, b, tools, first) + Replies(step, calls, b, c, tools, rest)
    decreases c
  {
    hide *;
    RanOn(step, calls, a, b, c, tools);
    if b == c {
      RepliesNone(step, calls, c, tools);
      assert first + rest == first;
    } else {
      RepliesStep(step, calls, b, c, tools, rest);
      RepliesStep(step, calls, a, c, tools, first + rest);
      if calls[c - 1].tool in tools {
        LastOff(first, rest);
        RepliesOn(step, calls, a, b, c - 1, tools, first, rest[..|rest| - 1]);
      } else {
        RepliesOn(step, calls, a, b, c - 1, tools, first, rest);
      }
    }
  }

  /** What a terminal call that succeeds leaves as the job's summary: the one its input gives, else its output. */
  function SummaryFrom(call: Call, output: string): string {
    if call.summary.Some? then call.summary.value else output
  }

  /** Whether this call, with these outputs, ends the job. */
  predicate Ends(call: Call, config: Config, outputs: seq<Output>) {
    call.tool in config.tools && call.tool in config.terminal && outputs != [] && outputs[|outputs| - 1].ok
  }

  /**
   * From `start` the calls have been worked off up to `d`: each known one has been executed
   * once and answered by what it returned, and the job is finished exactly if the last of
   * them ended it.
   */
  ghost predicate Advances(start: Checkpoint, d: Checkpoint, config: Config, ran: seq<Exec>, outputs: seq<Output>) {
    && start.pending.Some? && d.pending.Some? && d.pending.value.response == start.pending.value.response
    && d.step == start.step && d.messages == start.messages && d.blocked == start.blocked
    && WorkedOff(start.step, start.pending.value, d.pending.value.next, config.tools, ran, outputs,
         d.pending.value.results)
    && (!d.finished ==> d.summary == start.summary)
    && (d.finished ==>
          && d.pending.value.next > 0
          && var call := d.pending.value.response.calls[d.pending.value.next - 1];
          Ends(call, config, outputs) && d.summary == SummaryFrom(call, outputs[|outputs| - 1].text))
  }

  lemma Behind<T>(a: seq<T>, b: seq<T>, c: seq<T>)
    ensures (a + b) + c == a + (b + c)
  {}

  lemma {:induction false} AdvancesNot(start: Checkpoint, config: Config)
    requires start.pending.Some? && !start.finished && start.pending.value.next <= |start.pending.value.response.calls|
    ensures Advances(start, start, config, [], [])
  {
    StartedOff(start.step, start.pending.value, config.tools);
  }

  lemma {:induction false} AdvancesOn(
      start: Checkpoint, mid: Checkpoint, d: Checkpoint, config: Config, ran: seq<Exec>, outputs: seq<Output>,
      ran': seq<Exec>, outputs': seq<Output>)
    requires Advances(start, mid, config, ran, outputs) && Advances(mid, d, config, ran', outputs') && !mid.finished
    ensures Advances(start, d, config, ran + ran', outputs + outputs')
  {
    hide WorkedOff;
    WorkedOn(start.step, start.pending.value, mid.pending.value, d.pending.value.next, config.tools,
      ran, outputs, ran', outputs', d.pending.value.results);
  }

  class World {
    /** The stored checkpoint. */
    var durable: Option<Checkpoint>
    /** Every tool execution of the job so far, by any of its processes. */
    ghost var executed: seq<Exec>
    /** What each of them returned. */
    ghost var returned: seq<Output>
    /** Every prompt sent so far. */
    ghost var prompts: seq<seq<Message>>
    /** What has gone wrong outside the current process since it began. */
    ghost var causes: set<Cause>

    ghost predicate Valid(config: Config)
      reads this
    {
      && OnceInOrder(executed) && |returned| == |executed|
      && (durable.None? ==> executed == [])
      && (durable.Some? ==> Journalled(durable.value, executed) && Sound(durable.value, config.keepFull))
      && forall p :: p in prompts ==> GoodPrompt(p, config.keepFull)
    }

    constructor (config: Config)
      ensures Valid(config) && durable.None? && executed == []
    {
      durable, executed, returned, prompts, causes := None, [], [], [], {};
    }

    /**
     * `saveCheckpoint`, which throws unless the store acknowledges. When it throws, the
     * checkpoint may have been stored or not, and the process is over.
     */
    method Save(d: Checkpoint, config: Config) returns (acknowledged: bool)
      requires Valid(config) && Journalled(d, executed) && Sound(d, config.keepFull)
      modifies this`durable, this`causes
      ensures Valid(config) && (durable == Some(d) || (!acknowledged && durable == old(durable)))
      ensures acknowledged ==> durable == Some(d) && causes == old(causes)
      ensures !acknowledged ==> causes == old(causes) + {Unsaved}
    {
      var stored: bool := *;
      acknowledged := *;
      if stored || acknowledged { durable := Some(d); }
      if !acknowledged { causes := causes + {Unsaved}; }
    }

    /** The lease, as the heartbeat last found it. */
    method LeaseHeld() returns (live: bool)
      modifies this`causes
      ensures causes == old(causes) + if live then {} else {Unleased}
    {
      live := *;
      if !live { causes := causes + {Unleased}; }
    }

    /** Runs the current call, which the stored checkpoint says has started. */
    method RunTool(ghost before: Checkpoint, d: Checkpoint, config: Config) returns (output: string, ok: bool)
      requires Valid(config) && durable == Some(d) && Journalled(before, executed)
      requires before.pending.Some? && before.pending.value.next < |before.pending.value.response.calls|
      requires d == before.(pending := Some(before.pending.value.(started := true)))
      requires before.pending.value.started ==>
        !Command(before.pending.value.response.calls[before.pending.value.next].tool)
      modifies this`executed, this`returned
      ensures Valid(config) && Journalled(d, executed)
      ensures var p := d.pending.value; executed == old(executed) + [Exec(d.step, p.next, p.response.calls[p.next])]
      ensures returned == old(returned) + [Output(output, ok)]
    {
      RunsInOrder(d, executed, before);
      executed := executed + [Exec(d.step, d.pending.value.next, d.pending.value.response.calls[d.pending.value.next])];
      output, ok := *, *;
      returned := returned + [Output(output, ok)];
    }

    /** The model is asked; it may fail. */
    method CallModel(prompt: seq<Message>, config: Config) returns (response: Option<Response>, message: string)
      requires Valid(config) && GoodPrompt(prompt, config.keepFull)
      modifies this`prompts, this`causes
      ensures Valid(config) && prompts == old(prompts) + [prompt]
      ensures response.None? ==> causes == old(causes) + {Unanswered(message)}
      ensures response.Some? ==> causes == old(causes) + if response.value.budgetExhausted then {Unpaid} else {}
    {
      prompts := prompts + [prompt];
      response, message := *, *;
      if response.None? { causes := causes + {Unanswered(message)}; }
      else if response.value.budgetExhausted { causes := causes + {Unpaid}; }
    }

    /** What holds between the loop's state and the store at every point of a turn. */
    ghost predicate Going(d: Checkpoint, config: Config)
      reads this
    {
      Valid(config) && Journalled(d, executed) && Sound(d, config.keepFull)
    }

    /**
     * One call, made durable before and after it runs. A known tool is executed exactly
     * once and its output becomes the call's result; an unknown one is answered and not
     * executed; a command found already started is not run again.
     */
    method RunCall(start: Checkpoint, config: Config)
      returns (d: Checkpoint, stopped: Option<Reason>, crashed: bool, ghost ran: seq<Exec>, ghost outputs: seq<Output>)
      requires Going(start, config) && start.pending.Some? && !start.finished
      requires start.pending.value.next < |start.pending.value.response.calls|
      modifies this`durable, this`executed, this`returned, this`causes
      ensures Valid(config)
      ensures executed == old(executed) + ran && returned == old(returned) + outputs
      ensures !crashed && stopped.None? ==>
        && Journalled(d, executed) && Sound(d, config.keepFull)
        && Advances(start, d, config, ran, outputs) && d.pending.value.next == start.pending.value.next + 1
        && (d.finished <==> Ends(start.pending.value.response.calls[start.pending.value.next], config, outputs))
        && durable == Some(d) && causes == old(causes)
      ensures var p := start.pending.value; ran == [] || ran == [Exec(start.step, p.next, p.response.calls[p.next])]
      ensures crashed ==> Unsaved in causes
      ensures stopped.Some? ==>
        stopped == Some(NeedsReconciliation) && Uncertain(start, config.tools) && !d.finished
      ensures stopped.Some? && !crashed ==> durable == Some(d) && d.blocked == stopped && causes == old(causes)
      ensures Uncertain(start, config.tools) ==>
        && executed == old(executed) && (crashed || stopped.Some?)
        && (durable == old(durable) || (durable.Some? && Uncertain(durable.value, config.tools)))
    {
      d, stopped, crashed, ran, outputs := start, None, false, [], [];
      var call, interrupted := d.pending.value.response.calls[d.pending.value.next], d.pending.value.started;
      if call.tool !in config.tools {
        OneWorkedOff(start.step, start.pending.value, config.tools, []);
        AdvancedSound(d, executed, NoSuchTool(call.tool), interrupted, false, d.summary, config.keepFull);
        d := Advanced(d, NoSuchTool(call.tool), interrupted);
        var saved := Save(d, config);
        crashed := !saved;
        return;
      }
      BegunSound(d, executed, config.keepFull);
      d := Begun(d);
      var saved := Save(d, config);
      if !saved { crashed := true; return; }
      if interrupted && Command(call.tool) {
        BlockedSound(d, executed, NeedsReconciliation, config.keepFull);
        d := d.(blocked := Some(NeedsReconciliation));
        saved := Save(d, config);
        crashed, stopped := !saved, Some(NeedsReconciliation);
        return;
      }
      d, crashed, ran, outputs := Perform(start, d, config);
    }

    /** The call itself, once the store knows that it has started: the tool runs, and its result is made durable. */
    method Perform(ghost start: Checkpoint, begun: Checkpoint, config: Config)
      returns (d: Checkpoint, crashed: bool, ghost ran: seq<Exec>, ghost outputs: seq<Output>)
      requires Valid(config) && durable == Some(begun) && Journalled(start, executed) && Sound(begun, config.keepFull)
      requires start.pending.Some? && !start.finished && begun == Begun(start)
      requires start.pending.value.next < |start.pending.value.response.calls|
      requires var call := start.pending.value.response.calls[start.pending.value.next];
        call.tool in config.tools && (start.pending.value.started ==> !Command(call.tool))
      modifies this`durable, this`executed, this`returned, this`causes
      ensures Valid(config)
      ensures executed == old(executed) + ran && returned == old(returned) + outputs
      ensures var p := start.pending.value; ran == [Exec(start.step, p.next, p.response.calls[p.next])]
      ensures !crashed ==>
        && Journalled(d, executed) && Sound(d, config.keepFull)
        && Advances(start, d, config, ran, outputs) && d.pending.value.next == start.pending.value.next + 1
        && (d.finished <==> Ends(start.pending.value.response.calls[start.pending.value.next], config, outputs))
        && durable == Some(d) && causes == old(causes)
      ensures crashed ==> Unsaved in causes
    {
      var call := begun.pending.value.response.calls[begun.pending.value.next];
      var output, ok := RunTool(start, begun, config);
      ran, outputs := [Exec(begun.step, begun.pending.value.next, call)], [Output(output, ok)];
      OneWorkedOff(start.step, start.pending.value, config.tools, outputs);
      var ends := call.tool in config.terminal && ok;
      var summary := if ends then SummaryFrom(call, output) else begun.summary;
      AdvancedSound(begun, executed, output, false, ends, summary, config.keepFull);
      d := Advanced(begun, output, false).(finished := ends, summary := summary);
      var saved := Save(d, config);
      crashed := !saved;
    }

    /**
     * The calls of a response, one after the other, until one ends the job, the lease is
     * lost or a command is uncertain. Every known call on the way is executed once.
     */
    method RunCalls(start: Checkpoint, config: Config)
      returns (d: Checkpoint, stopped: Option<Reason>, crashed: bool, ghost ran: seq<Exec>, ghost outputs: seq<Output>)
      requires Going(start, config) && start.pending.Some? && !start.finished
      modifies this`durable, this`executed, this`returned, this`causes
      ensures Valid(config)
      ensures executed == old(executed) + ran && returned == old(returned) + outputs
      ensures !crashed && stopped.None? ==>
        && Journalled(d, executed) && Sound(d, config.keepFull) && Advances(start, d, config, ran, outputs)
        && (!d.finished ==> d.pending.value.next == |d.pending.value.response.calls|)
        && causes == old(causes)
      ensures crashed ==> Unsaved in causes
      ensures stopped.Some? && !crashed ==> Caused(stopped.value) && !d.finished && stopped != Some(BudgetExhausted)
      ensures !crashed ==> causes == old(causes) + CauseOf(stopped)
      ensures Uncertain(start, config.tools) ==>
        && executed == old(executed) && (crashed || stopped.Some?)
        && (durable == old(durable) || (durable.Some? && Uncertain(durable.value, config.tools)))
    {
      d, stopped, crashed, ran, outputs := start, None, false, [], [];
      AdvancesNot(start, config);
      ghost var before, given := executed, returned;
      while d.pending.value.next < |d.pending.value.response.calls| && !d.finished
        invariant Going(d, config) && Advances(start, d, config, ran, outputs) && causes == old(causes)
        invariant !crashed && stopped.None?
        invariant d.pending.Some? && d.pending.value.next <= |d.pending.value.response.calls|
        invariant executed == before + ran && returned == given + outputs
        invariant Uncertain(start, config.tools) ==> d == start && ran == [] && durable == old(durable)
        decreases |d.pending.value.response.calls| - d.pending.value.next
      {
        d, stopped, crashed, ran, outputs := NextCall(start, d, config, ran, outputs, before, given);
        if crashed || stopped.Some? { return; }
      }
    }

    /**
     * The next call, if the lease still holds; `sofar` and `had` are what the calls before
     * it ran and returned, beyond `before` and `given`.
     */
    method NextCall(
        ghost start: Checkpoint, mid: Checkpoint, config: Config, ghost sofar: seq<Exec>, ghost had: seq<Output>,
        ghost before: seq<Exec>, ghost given: seq<Output>)
      returns (d: Checkpoint, stopped: Option<Reason>, crashed: bool, ghost ran: seq<Exec>, ghost outputs: seq<Output>)
      requires Going(mid, config) && Advances(start, mid, config, sofar, had) && !mid.finished
      requires executed == before + sofar && returned == given + had
      requires mid.pending.value.next < |mid.pending.value.response.calls|
      modifies this`durable, this`executed, this`returned, this`causes
      ensures Valid(config) && executed == before + ran && returned == given + outputs
      ensures !crashed && stopped.None? ==>
        && Going(d, config) && Advances(start, d, config, ran, outputs) && causes == old(causes)
        && d.pending.value.next == mid.pending.value.next + 1
      ensures crashed ==> Unsaved in causes
      ensures stopped.Some? && !crashed ==> Caused(stopped.value) && !d.finished && stopped != Some(BudgetExhausted)
      ensures !crashed ==> causes == old(causes) + CauseOf(stopped)
      ensures Uncertain(mid, config.tools) ==>
        && executed == old(executed) && (crashed || stopped.Some?)
        && (durable == old(durable) || (durable.Some? && Uncertain(durable.value, config.tools)))
    {
      d, stopped, crashed, ran, outputs := mid, None, false, sofar, had;
      var live := LeaseHeld();
      if !live { stopped := Some(LeaseLost); return; }
      ghost var ran', outputs';
      d, stopped, crashed, ran', outputs' := RunCall(d, config);
      Behind(before, sofar, ran');
      Behind(given, had, outputs');
      ran, outputs := sofar + ran', had + outputs';
      if !crashed && stopped.None? { AdvancesOn(start, mid, d, config, sofar, had, ran', outputs'); }
    }

    /** The cause outside the process that goes with a stop; a spent budget is kept apart. */
    static function CauseOf(stopped: Option<Reason>): set<Cause> {
      match stopped
      case Some(LeaseLost) => {Unleased}
      case Some(ModelFailed(message)) => {Unanswered(message)}
      case _ => {}
    }

    static lemma NothingElse(causes: set<Cause>, before: set<Cause>, stopped: Option<Reason>)
      ensures before == {} && causes - {Unpaid} == (before - {Unpaid}) + CauseOf(stopped) ==>
        causes - {Unpaid} == CauseOf(stopped)
    {}

    /** There is a cause for stopping so: something went wrong outside, or the stored checkpoint is blocked. */
    ghost predicate Caused(reason: Reason)
      reads this
    {
      (durable.Some? && durable.value.blocked == Some(reason)) ||
      match reason
      case LeaseLost => Unleased in causes
      case ModelFailed(message) => Unanswered(message) in causes
      case BudgetExhausted => Unpaid in causes
      case NeedsReconciliation => false
    }

    /** The transcript is compacted, and near the cap the agent is asked to land. */
    static method Prepare(
        start: Checkpoint, config: Config, ghost executed: seq<Exec>) returns (d: Checkpoint, prompt: seq<Message>)
      requires Sound(start, config.keepFull) && Journalled(start, executed) && start.pending.None? && !start.finished
      requires start.step < config.maxSteps
      ensures d == start.(step := start.step + 1, messages := Compact(start.messages, config.keepFull).messages)
      ensures prompt == PromptFor(d, config)
      ensures GoodPrompt(prompt, config.keepFull) && Neat(d.messages, config.keepFull)
    {
      CompactGood(start.messages, config.keepFull, config.maxSteps - start.step - 1);
      var compacted := CompactMessages(start.messages, config.keepFull);
      d := start.(step := start.step + 1, messages := compacted.messages);
      var remaining := config.maxSteps - d.step;
      prompt := if remaining <= 1 then d.messages + [Landing(remaining)] else d.messages;
    }

    /** What the model is sent in a step: the transcript, and in the last two steps a call to land behind it. */
    static function PromptFor(d: Checkpoint, config: Config): (prompt: seq<Message>)
      requires d.step <= config.maxSteps
      ensures d.messages <= prompt && (d.step + 1 < config.maxSteps ==> prompt == d.messages)
      ensures d.step + 1 >= config.maxSteps ==> |prompt| == |d.messages| + 1 && prompt[|d.messages|].User?
    {
      d.messages + if d.step + 1 >= config.maxSteps then [Landing(config.maxSteps - d.step)] else []
    }

    /** The reply is made durable: a nudge if it calls nothing, else the intent, before any external effect. */
    method Record(ghost start: Checkpoint, d: Checkpoint, response: Response, config: Config)
      returns (d': Checkpoint, saved: bool)
      requires Valid(config) && Journalled(start, executed) && start.pending.None? && !start.finished
      requires Neat(d.messages, config.keepFull) && d == start.(step := start.step + 1, messages := d.messages)
      modifies this`durable, this`causes
      ensures Valid(config)
        && (saved ==> Journalled(d', executed) && Sound(d', config.keepFull) && d'.step == d.step && !d'.finished)
      ensures d' == if response.calls == [] then Nudged(d, response.text) else Intending(d, response)
      ensures if saved then durable == Some(d') && causes == old(causes) else causes == old(causes) + {Unsaved}
    {
      if response.calls == [] {
        d' := Nudged(d, response.text);
        NudgedSound(start, d', d.messages, response.text, executed, config.keepFull);
      } else {
        d' := Intending(d, response);
        IntendingSound(start, d', d.messages, response, executed, config.keepFull);
      }
      saved := Save(d', config);
    }

    /** The step's checkpoint before the model is asked. */
    static function Stepped(start: Checkpoint, config: Config): Checkpoint {
      start.(step := start.step + 1, messages := Compact(start.messages, config.keepFull).messages)
    }

    /** A new step: compact, ask the model, and record what it said. */
    method Ask(start: Checkpoint, config: Config)
      returns (d: Checkpoint, stopped: Option<Reason>, crashed: bool, ghost reply: Option<Response>)
      requires Valid(config) && Journalled(start, executed) && Sound(start, config.keepFull) && start.pending.None?
        && !start.finished
      requires start.step < config.maxSteps
      modifies this`durable, this`prompts, this`causes
      ensures Valid(config) && prompts == old(prompts) + [PromptFor(Stepped(start, config), config)]
      ensures !crashed && stopped.None? ==>
        Journalled(d, executed) && Sound(d, config.keepFull) && d.step == start.step + 1 && !d.finished
      ensures reply.Some? ==>
        && d == (if reply.value.calls == [] then Nudged(Stepped(start, config), reply.value.text)
                 else Intending(Stepped(start, config), reply.value))
        && (crashed || durable == Some(d))
        && (reply.value.budgetExhausted ==> Unpaid in causes)
      ensures reply.None? ==>
        && !crashed && stopped.Some? && stopped.value.ModelFailed? && !d.finished
        && Unanswered(stopped.value.message) in causes && durable == old(durable)
      ensures crashed ==> Unsaved in causes
      ensures !crashed ==> causes - {Unpaid} == (old(causes) - {Unpaid}) + CauseOf(stopped)
      ensures !crashed && Unpaid in causes ==> Unpaid in old(causes) || (reply.Some? && reply.value.budgetExhausted)
      ensures reply.Some? ==>
        && !d.finished && stopped == if reply.value.calls == [] && reply.value.budgetExhausted
          then Some(BudgetExhausted) else None
    {
      stopped, crashed := None, false;
      var prompt;
      d, prompt := Prepare(start, config, executed);
      var response, message := CallModel(prompt, config);
      reply := response;
      if response.None? {
        stopped := Some(ModelFailed(message));
        return;
      }
      var saved;
      d, saved := Record(start, d, response.value, config);
      crashed := !saved;
      if response.value.calls == [] && response.value.budgetExhausted { stopped := Some(BudgetExhausted); }
    }

    /**
     * A step is closed: its calls have been worked off from `asked` on, all of them unless
     * one ended the job, and the transcript has their answers behind it.
     */
    static ghost predicate Closed(
        asked: Checkpoint, d: Checkpoint, config: Config, ran: seq<Exec>, outputs: seq<Output>)
    {
      exists done: Checkpoint ::
        && Advances(asked, done, config, ran, outputs) && d == Answered(done)
        && (!done.finished ==> done.pending.value.next == |done.pending.value.response.calls|)
    }

    /** The second half of a turn: the calls run, and their results are kept. */
    method CloseStep(asked: Checkpoint, config: Config)
      returns (d: Checkpoint, stopped: Option<Reason>, crashed: bool, ghost ran: seq<Exec>, ghost outputs: seq<Output>)
      requires Going(asked, config) && asked.pending.Some? && !asked.finished
      modifies this`durable, this`executed, this`returned, this`causes
      ensures Valid(config)
      ensures executed == old(executed) + ran && returned == old(returned) + outputs
      ensures !crashed && (stopped.None? || stopped == Some(BudgetExhausted)) ==>
        && Journalled(d, executed) && Sound(d, config.keepFull) && durable == Some(d)
        && Closed(asked, d, config, ran, outputs)
      ensures !crashed && stopped.None? && asked.pending.value.response.budgetExhausted ==> d.finished
      ensures !crashed ==> causes - {Unpaid} == (old(causes) - {Unpaid}) + CauseOf(stopped)
      ensures !crashed && stopped.None? && !d.finished && Unpaid in causes ==> Unpaid in old(causes)
      ensures crashed ==> Unsaved in causes
      ensures stopped.Some? && !crashed ==> Caused(stopped.value) && !d.finished
      ensures Uncertain(asked, config.tools) ==>
        && executed == old(executed) && (crashed || (stopped.Some? && stopped != Some(BudgetExhausted)))
        && (durable == old(durable) || (durable.Some? && Uncertain(durable.value, config.tools)))
    {
      d, stopped, crashed, ran, outputs := RunCalls(asked, config);
      if crashed || stopped.Some? { return; }
      var exhausted := d.pending.value.response.budgetExhausted;
      AnsweredSound(d, executed, config.keepFull);
      ghost var done := d;
      d := Answered(d);
      var saved := Save(d, config);
      crashed := !saved;
      assert Advances(asked, done, config, ran, outputs) && d == Answered(done);
      if exhausted { causes := causes + {Unpaid}; }
      if exhausted && !d.finished { stopped := Some(BudgetExhausted); }
    }

    /**
     * One turn: a new step asks the model, a pending one goes on; then its calls run and
     * their results are kept. `asked` is the step as it stood when its calls began.
     */
    method Turn(start: Checkpoint, config: Config)
      returns (d: Checkpoint, stopped: Option<Reason>, crashed: bool, ghost asked: Checkpoint,
               ghost ran: seq<Exec>, ghost outputs: seq<Output>)
      requires Going(start, config) && !start.finished && (start.step < config.maxSteps || start.pending.Some?)
      modifies this
      ensures Valid(config) && |prompts| == |old(prompts)| + if start.pending.None? then 1 else 0
      ensures executed == old(executed) + ran && returned == old(returned) + outputs
      ensures !crashed && (stopped.None? || stopped == Some(BudgetExhausted)) ==>
        && Journalled(d, executed) && Sound(d, config.keepFull) && durable == Some(d) && d.pending.None?
        && d.step == start.step + (if start.pending.None? then 1 else 0) && d.blocked == start.blocked
      ensures !crashed && (stopped.None? || stopped == Some(BudgetExhausted)) ==>
        && (start.pending.Some? ==> asked == start)
        && (start.pending.None? ==> Opened(Stepped(start, config), asked))
        && if asked.pending.Some? then Closed(asked, d, config, ran, outputs) else d == asked && ran == []
      ensures crashed ==> Unsaved in causes
      ensures stopped.Some? && !crashed ==> Caused(stopped.value) && !d.finished
      ensures !crashed ==> causes - {Unpaid} == (old(causes) - {Unpaid}) + CauseOf(stopped)
      ensures !crashed && stopped.None? && !d.finished && Unpaid in causes ==> Unpaid in old(causes)
      ensures Uncertain(start, config.tools) ==>
        && executed == old(executed) && (crashed || (stopped.Some? && stopped != Some(BudgetExhausted)))
        && (durable == old(durable) || (durable.Some? && Uncertain(durable.value, config.tools)))
    {
      d, stopped, crashed, ran, outputs := start, None, false, [], [];
      if d.pending.None? {
        ghost var reply;
        d, stopped, crashed, reply := Ask(d, config);
        asked := d;
        if reply.Some? { OpensStep(Stepped(start, config), asked, reply.value); }
        if crashed || stopped.Some? || d.pending.None? { return; }
      }
      asked := d;
      d, stopped, crashed, ran, outputs := CloseStep(d, config);
    }

    /** `asked` is the step after the model's reply: its intent, or a nudge if it called nothing. */
    static predicate OpenedBy(stepped: Checkpoint, asked: Checkpoint, reply: Response) {
      asked == if reply.calls == [] then Nudged(stepped, reply.text) else Intending(stepped, reply)
    }

    static lemma OpensStep(stepped: Checkpoint, asked: Checkpoint, reply: Response)
      requires OpenedBy(stepped, asked, reply)
      ensures Opened(stepped, asked)
    {}

    static ghost predicate Opened(stepped: Checkpoint, asked: Checkpoint) {
      exists reply :: OpenedBy(stepped, asked, reply)
    }

    /**
     * One process of the job, from the stored checkpoint to wherever it ends. Nothing it
     * does breaks the journal; every prompt it sends is short and well paired; it makes
     * at most one model call for each step left; and if it finds a command that may have
     * run, it executes nothing at all. It ends only when the job is finished, its steps are
     * used up, or something outside it made it stop; whenever something outside does, it
     * ends so; and what is finished stays finished.
     */
    method RunLoop(brief: string, config: Config) returns (end: End)
      requires Valid(config)
      modifies this
      ensures Valid(config)
      ensures |prompts| <= |old(prompts)|
        + Max(0, config.maxSteps - if old(durable).Some? then old(durable).value.step else 0)
      ensures old(executed) <= executed
      ensures old(durable).Some? && Uncertain(old(durable).value, config.tools) ==>
        executed == old(executed) && durable.Some? && Uncertain(durable.value, config.tools)
      ensures old(durable).Some? && (old(durable).value.finished || old(durable).value.blocked.Some?) ==>
        executed == old(executed) && prompts == old(prompts) && durable == old(durable)
      ensures end.Finished? ==> durable.Some? && durable.value.finished && durable.value.summary == end.summary
      ensures end.Exhausted? && durable.Some? ==>
        !durable.value.finished && durable.value.pending.None? && durable.value.step >= config.maxSteps
      ensures end.Exhausted? && durable.None? ==> config.maxSteps == 0
      ensures end.Crashed? ==> Unsaved in causes
      ensures end.Stopped? ==> Caused(end.reason)
      ensures !end.Crashed? && (old(durable).Some? ==> old(durable).value.blocked.None?) ==>
        causes - {Unpaid} == CauseOf(if end.Stopped? then Some(end.reason) else None)
      ensures Unpaid in causes ==> !end.Exhausted?
    {
      causes := {};
      var first := ResumedFrom(durable, brief);
      Resumed(first, durable, executed, brief, config.keepFull);
      var d, stopped, crashed := Work(first, config);
      if crashed { return Crashed; }
      end := if d.finished then Finished(d.summary) else if stopped.Some? then Stopped(stopped.value) else Exhausted;
    }

    /** Where a process begins: at the stored checkpoint, or with the brief alone. */
    static function ResumedFrom(stored: Option<Checkpoint>, brief: string): Checkpoint {
      if stored.None? then Checkpoint(0, [User(brief)], None, false, "", None)
      else if stored.value.messages == [] then stored.value.(messages := [User(brief)])
      else stored.value
    }

    /** The checkpoint at the end of a turn is the stored one, or nothing has been done yet. */
    ghost predicate Kept(first: Checkpoint, d: Checkpoint, stored: Option<Checkpoint>, sent: nat)
      reads this
    {
      durable == Some(d) || (durable == stored && d == first && |prompts| == sent)
    }

    /** The turns of one process. */
    method Work(first: Checkpoint, config: Config) returns (d: Checkpoint, stopped: Option<Reason>, crashed: bool)
      requires Going(first, config)
      requires durable.Some? && Uncertain(durable.value, config.tools) ==> first == durable.value
      requires durable.Some? ==> first.blocked == durable.value.blocked
      requires durable.None? ==> first.blocked.None?
      modifies this
      ensures Valid(config)
      ensures |prompts| <= |old(prompts)| + Max(0, config.maxSteps - first.step)
      ensures old(executed) <= executed
      ensures old(durable).Some? && Uncertain(old(durable).value, config.tools) ==>
        executed == old(executed) && durable.Some? && Uncertain(durable.value, config.tools)
      ensures first.finished || first.blocked.Some? ==>
        executed == old(executed) && prompts == old(prompts) && durable == old(durable) && d == first
      ensures !crashed && (d.finished || stopped.None?) ==> Kept(first, d, old(durable), |old(prompts)|)
      ensures !crashed && !d.finished && stopped.None? ==> d.pending.None? && d.step >= config.maxSteps
      ensures crashed ==> Unsaved in causes
      ensures !crashed && !d.finished && stopped.Some? ==> Caused(stopped.value)
      ensures !crashed && first.blocked.None? && stopped.Some? ==> !d.finished
      ensures !crashed && first.blocked.None? && old(causes) == {} ==> causes - {Unpaid} == CauseOf(stopped)
      ensures !crashed && stopped.None? && !d.finished && old(causes) == {} ==> Unpaid !in causes
    {
      d, stopped, crashed := first, first.blocked, false;
      if stopped.Some? || d.finished { return; }
      ghost var stuck := durable.Some? && Uncertain(durable.value, config.tools);
      ghost var stored, sent, ran, known := durable, |prompts|, executed, causes;
      while (d.step < config.maxSteps || d.pending.Some?) && !d.finished
        invariant Midway(first, d, config, stored, sent, ran, known)
        invariant stuck ==> executed == ran && durable == stored && d == first
        invariant !crashed && stopped.None?
        decreases 2 * Max(0, config.maxSteps - d.step) + if d.pending.Some? then 1 else 0
      {
        d, stopped, crashed := NextTurn(first, d, config, stored, sent, ran, known);
        if crashed || stopped.Some? { return; }
      }
      NothingElse(causes, known, stopped);
    }

    /** Between two turns of a process that began with `first` and found the world so. */
    ghost predicate Midway(
        first: Checkpoint, d: Checkpoint, config: Config, stored: Option<Checkpoint>, sent: nat, ran: seq<Exec>,
        known: set<Cause>)
      reads this
    {
      && Going(d, config) && Kept(first, d, stored, sent) && ran <= executed
      && causes - {Unpaid} == known - {Unpaid} && (!d.finished && Unpaid in causes ==> Unpaid in known)
      && first.step <= d.step && d.step <= Max(first.step, config.maxSteps)
      && |prompts| <= sent + (d.step - first.step)
    }

    /** The next turn, if the lease still holds. */
    method NextTurn(
        ghost first: Checkpoint, mid: Checkpoint, config: Config, ghost stored: Option<Checkpoint>, ghost sent: nat,
        ghost ran: seq<Exec>, ghost known: set<Cause>)
      returns (d: Checkpoint, stopped: Option<Reason>, crashed: bool)
      requires Midway(first, mid, config, stored, sent, ran, known) && !mid.finished
      requires mid.step < config.maxSteps || mid.pending.Some?
      modifies this
      ensures Valid(config) && ran <= executed && |prompts| <= sent + Max(0, config.maxSteps - first.step)
      ensures !crashed && stopped.None? ==>
        && Midway(first, d, config, stored, sent, ran, known) && d.pending.None?
        && d.step == mid.step + if mid.pending.None? then 1 else 0
      ensures crashed ==> Unsaved in causes
      ensures !crashed && stopped.Some? ==> Caused(stopped.value) && !d.finished
      ensures !crashed && known == {} ==> causes - {Unpaid} == CauseOf(stopped)
      ensures Uncertain(mid, config.tools) ==>
        && executed == old(executed) && (crashed || stopped.Some?)
        && (durable == old(durable) || (durable.Some? && Uncertain(durable.value, config.tools)))
    {
      d, stopped, crashed := mid, None, false;
      var live := LeaseHeld();
      if !live {
        stopped := Some(LeaseLost);
        NothingElse(causes, known, stopped);
        return;
      }
      ghost var asked, more, outputs;
      d, stopped, crashed, asked, more, outputs := Turn(d, config);
      NothingElse(causes, known, stopped);
    }

    /**
     * Any number of processes, one after another. However many there are and wherever
     * each of them dies, executions never go back behind an earlier one, a command runs
     * at most once, every prompt is short and paired, and once a command is uncertain
     * nothing of the job ever runs again.
     */
    method Lives(brief: string, config: Config, lives: nat)
      requires Valid(config)
      modifies this
      ensures Valid(config)
      ensures old(executed) <= executed
      ensures old(durable).Some? && Uncertain(old(durable).value, config.tools) ==> executed == old(executed)
    {
      for i := 0 to lives
        invariant Valid(config) && old(executed) <= executed
        invariant old(durable).Some? && Uncertain(old(durable).value, config.tools) ==>
          executed == old(executed) && durable.Some? && Uncertain(durable.value, config.tools)
      {
        var _ := RunLoop(brief, config);
      }
    }
  }

  /** A command executed in one place of the job is executed there only once. */
  lemma {:induction false} CommandsRunOnce(executed: seq<Exec>, a: nat, b: nat)
    requires OnceInOrder(executed) && a < |executed| && b < |executed|
    requires executed[a].step == executed[b].step && executed[a].index == executed[b].index
      && Command(executed[a].call.tool)
    ensures a == b
  {
    assert InOrderAt(executed, a, b) && InOrderAt(executed, b, a);
  }

  /** Once a later call has run, no earlier one runs again. */
  lemma {:induction false} NeverBack(executed: seq<Exec>, a: nat, b: nat)
    requires OnceInOrder(executed) && a < |executed| && b < |executed|
    requires executed[a].step < executed[b].step
      || (executed[a].step == executed[b].step && executed[a].index < executed[b].index)
    ensures a < b
  {
    assert InOrderAt(executed, b, a);
  }

  /** In every state that any number of processes can bring about, both hold of what has been executed. */
  lemma {:induction false} EveryWorld(w: World, config: Config, a: nat, b: nat)
    requires w.Valid(config) && a < |w.executed| && b < |w.executed|
    ensures var x, y := w.executed[a], w.executed[b];
      && (x.step == y.step && x.index == y.index && x.call.tool in {"run_command", "run_tests"} ==> a == b)
      && (x.step < y.step || (x.step == y.step && x.index < y.index) ==> a < b)
  {
    var x, y := w.executed[a], w.executed[b];
    if x.step == y.step && x.index == y.index && Command(x.call.tool) { CommandsRunOnce(w.executed, a, b); }
    if x.step < y.step || (x.step == y.step && x.index < y.index) { NeverBack(w.executed, a, b); }
  }
}
