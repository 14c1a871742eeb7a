/** The transcript an agent sends to the model, and how it is kept short. */
module Transcript {
  import opened Common

  /**
   * A tool call. `target` is the path or command its input names, empty if it names none,
   * and `summary` the closing summary, if its input gives one.
   */
  datatype Call = Call(id: string, tool: string, target: string, summary: Option<string>)

  datatype ToolResult = ToolResult(id: string, tool: string, output: string)

  datatype Message = User(text: string) | Assistant(text: string, calls: seq<Call>) | Results(results: seq<ToolResult>)

  /* ------------------------------ what compact does ------------------------------ */

  /** How many assistant turns there are. */
  function Turns(ms: seq<Message>): (n: nat)
    ensures n <= |ms|
  {
    if ms == [] then 0 else Turns(ms[..|ms| - 1]) + if ms[|ms| - 1].Assistant? then 1 else 0
  }

  /** Where the `k`th assistant turn from the end begins. */
  function Cut(ms: seq<Message>, k: nat): (i: nat)
    requires 1 <= k <= Turns(ms)
    ensures i < |ms| && ms[i].Assistant?
  {
    var n := |ms| - 1;
    if ms[n].Assistant? then (if k == 1 then n else Cut(ms[..n], k - 1)) else Cut(ms[..n], k)
  }

  function ActionOf(c: Call): string {
    c.tool + if c.target == "" then "" else ": " + if |c.target| <= 80 then c.target else c.target[..80]
  }

  /** However long a command is, what the summary says about a call stays short. */
  lemma ActionsAreShort(c: Call)
    ensures |c.tool| <= |ActionOf(c)| && |ActionOf(c)| <= |c.tool| + 82 && ActionOf(c)[..|c.tool|] == c.tool
    ensures 0 < |c.target| && |c.target| <= 80 ==> ActionOf(c)[|c.tool| + 2..] == c.target
  {}

  /** The actions of the assistant turns, oldest first. */
  function Actions(ms: seq<Message>): seq<string> {
    if ms == [] then []
    else
      var n := |ms| - 1;
      Actions(ms[..n]) + if ms[n].Assistant?
        then seq(|ms[n].calls|, i requires 0 <= i < |ms[n].calls| => ActionOf(ms[n].calls[i])) else []
  }

  function Digit(d: nat): string
    requires d < 10
  {
    ["0123456789"[d]]
  }

  function Decimal(n: nat): string { if n < 10 then Digit(n) else Decimal(n / 10) + Digit(n % 10) }

  /** The number that a string of digits stands for. */
  function ValueOf(s: string): int {
    if s == "" then 0 else 10 * ValueOf(s[..|s| - 1]) + (s[|s| - 1] as int - '0' as int)
  }

  /** A decimal is read as the number it was made from. */
  lemma {:induction false} DecimalReads(n: nat)
    ensures ValueOf(Decimal(n)) == n && Decimal(n) != ""
    decreases n
  {
    if n >= 10 {
      DecimalReads(n / 10);
      DigitReads(n % 10);
      assert Decimal(n)[..|Decimal(n)| - 1] == Decimal(n / 10);
    } else {
      DigitReads(n);
      assert Decimal(n)[..0] == "";
    }
  }

  lemma DigitReads(d: nat)
    requires d < 10
    ensures |Digit(d)| == 1 && Digit(d)[0] as int - '0' as int == d
  {}

  function Item(n: nat, action: string): string { Decimal(n + 1) + ". " + action }

  /** The line begins with that number. */
  ghost predicate Numbered(line: string, number: nat, action: string) {
    exists digits: string :: ValueOf(digits) == number && line == digits + ". " + action
  }

  lemma ItemIsNumbered(n: nat, action: string)
    ensures Numbered(Item(n, action), n + 1, action)
  {
    DecimalReads(n + 1);
    assert Item(n, action) == Decimal(n + 1) + ". " + action;
  }

  /** The numbered list, one action a line. */
  function Listing(actions: seq<string>): string {
    if actions == [] then ""
    else
      var n := |actions| - 1;
      Listing(actions[..n]) + (if n == 0 then "" else "\n") + Item(n, actions[n])
  }

  const DONE_ALREADY := "Already completed:\n"
  const DO_NOT_REPEAT := "\n\nDo not repeat these."

  function SummaryOf(actions: seq<string>): string {
    if actions == [] then "" else DONE_ALREADY + Listing(actions) + DO_NOT_REPEAT
  }

  /** The summary message, if there is one. */
  function LeadOf(summary: string): seq<Message> { if summary == "" then [] else [User(summary)] }

  datatype Compacted = Compacted(messages: seq<Message>, summary: string)

  function Condensed(brief: Message, dropped: seq<Message>, kept: seq<Message>): Compacted {
    var summary := SummaryOf(Actions(dropped));
    Compacted([brief] + LeadOf(summary) + kept, summary)
  }

  /**
   * `compact`. With a window of less than one step the cut index does not exist, and
   * both slices of the source then take the whole transcript.
   */
  function Compact(messages: seq<Message>, keepFull: int): Compacted {
    if messages == [] then Compacted(messages, "")
    else
      var rest := messages[1..];
      if Turns(rest) <= keepFull then Compacted(messages, "")
      else if keepFull <= 0 then Condensed(messages[0], rest, rest)
      else
        var cut := Cut(rest, keepFull);
        Condensed(messages[0], rest[..cut], rest[cut..])
  }

  /* ---------------------------- the loops that do it ---------------------------- */

  /** The positions of the assistant turns. */
  method AssistantIndexes(rest: seq<Message>) returns (at: seq<nat>)
    ensures |at| == Turns(rest)
    ensures forall k :: 1 <= k <= |at| ==> at[|at| - k] == Cut(rest, k)
  {
    at := [];
    for i := 0 to |rest|
      invariant |at| == Turns(rest[..i])
      invariant forall k :: 1 <= k <= |at| ==> at[|at| - k] == Cut(rest[..i], k)
    {
      assert rest[..i + 1][..i] == rest[..i];
      if rest[i].Assistant? { at := at + [i]; }
    }
    assert rest[..|rest|] == rest;
  }

  method ActionsOf(dropped: seq<Message>) returns (actions: seq<string>)
    ensures actions == Actions(dropped)
  {
    actions := [];
    for i := 0 to |dropped|
      invariant actions == Actions(dropped[..i])
    {
      assert dropped[..i + 1][..i] == dropped[..i];
      if dropped[i].Assistant? {
        ghost var before := actions;
        var calls := dropped[i].calls;
        for k := 0 to |calls|
          invariant actions == before + seq(k, j requires 0 <= j < k => ActionOf(calls[j]))
        {
          actions := actions + [ActionOf(calls[k])];
        }
      }
    }
    assert dropped[..|dropped|] == dropped;
  }

  method CompactMessages(messages: seq<Message>, keepFull: int) returns (c: Compacted)
    ensures c == Compact(messages, keepFull)
  {
    if messages == [] { return Compacted(messages, ""); }
    var rest := messages[1..];
    var at := AssistantIndexes(rest);
    if |at| <= keepFull { return Compacted(messages, ""); }
    var dropped, kept := rest, rest;
    if keepFull > 0 {
      var cut := at[|at| - keepFull];
      assert cut == Cut(rest, keepFull);
      dropped, kept := rest[..cut], rest[cut..];
    }
    var actions := ActionsOf(dropped);
    var summary := SummaryOf(actions);
    c := Compacted([messages[0]] + LeadOf(summary) + kept, summary);
  }

  /* ------------------------------ its discipline ------------------------------ */

  lemma {:induction false} TurnsSplit(a: seq<Message>, b: seq<Message>)
    ensures Turns(a + b) == Turns(a) + Turns(b)
    decreases |b|
  {
    if b == [] {
      assert a + b == a;
    } else {
      assert (a + b)[..|a + b| - 1] == a + b[..|b| - 1];
      TurnsSplit(a, b[..|b| - 1]);
    }
  }

  /** The cut keeps exactly the last `k` steps. */
  lemma {:induction false} CutKeeps(ms: seq<Message>, k: nat)
    requires 1 <= k <= Turns(ms)
    ensures Turns(ms[Cut(ms, k)..]) == k
    decreases |ms|
  {
    var n := |ms| - 1;
    if ms[n].Assistant? && k == 1 {
      assert ms[n..] == [ms[n]] && [ms[n]][..0] == [];
    } else {
      var k' := if ms[n].Assistant? then k - 1 else k;
      CutKeeps(ms[..n], k');
      var i := Cut(ms[..n], k');
      assert ms[i..] == ms[..n][i..] + [ms[n]];
      TurnsSplit(ms[..n][i..], [ms[n]]);
      assert [ms[n]][..0] == [];
    }
  }

  lemma {:induction false} LeadHasNoTurn(summary: string)
    ensures Turns(LeadOf(summary)) == 0
  {
    if summary != "" { assert [User(summary)][..0] == []; }
  }

  /**
   * When the window is full, what is sent is the brief, the summary if any, and a suffix of
   * exactly `keepFull` steps.
   */
  lemma {:induction false} CompactCuts(messages: seq<Message>, keepFull: nat)
    requires keepFull >= 1 && messages != [] && Turns(messages[1..]) > keepFull
    ensures var c := Compact(messages, keepFull); var kept := messages[1 + Cut(messages[1..], keepFull)..];
      && kept != [] && kept[0].Assistant? && Turns(kept) == keepFull
      && c.messages == [messages[0]] + LeadOf(c.summary) + kept
  {
    CutKeeps(messages[1..], keepFull);
    assert messages[1..][Cut(messages[1..], keepFull)..] == messages[1 + Cut(messages[1..], keepFull)..];
  }

  lemma {:induction false} FrontedTurns(brief: Message, summary: string, kept: seq<Message>)
    ensures ([brief] + LeadOf(summary) + kept)[1..] == LeadOf(summary) + kept
    ensures Turns(([brief] + LeadOf(summary) + kept)[1..]) == Turns(kept)
  {
    assert ([brief] + LeadOf(summary) + kept)[1..] == LeadOf(summary) + kept;
    LeadHasNoTurn(summary);
    TurnsSplit(LeadOf(summary), kept);
  }

  /** The brief stays, and as many steps as fit. */
  lemma {:induction false} CompactWindow(messages: seq<Message>, keepFull: nat)
    requires keepFull >= 1 && messages != []
    ensures var c := Compact(messages, keepFull);
      c.messages != [] && c.messages[0] == messages[0] && Turns(c.messages[1..]) == Min(keepFull, Turns(messages[1..]))
  {
    hide Cut, SummaryOf, Actions;
    if Turns(messages[1..]) > keepFull {
      CompactCuts(messages, keepFull);
      hide Turns, Compact;
      FrontedTurns(messages[0], Compact(messages, keepFull).summary, messages[1 + Cut(messages[1..], keepFull)..]);
    }
  }

  /** Compacting again changes nothing. */
  lemma {:induction false} CompactIdempotent(messages: seq<Message>, keepFull: nat)
    requires keepFull >= 1
    ensures Compact(Compact(messages, keepFull).messages, keepFull).messages == Compact(messages, keepFull).messages
  {
    if messages != [] {
      CompactWindow(messages, keepFull);
      hide Compact, Turns;
      Settled(Compact(messages, keepFull).messages, keepFull);
    }
  }

  lemma Settled(messages: seq<Message>, keepFull: nat)
    requires messages != [] && Turns(messages[1..]) <= keepFull
    ensures Compact(messages, keepFull).messages == messages
  {}

  /**
   * A window of less than one step never drops anything: the whole transcript is sent
   * again, behind a summary of itself whenever a tool was ever called.
   */
  lemma {:induction false} NoWindowKeepsEverything(messages: seq<Message>, keepFull: int)
    requires messages != [] && keepFull <= 0 && Turns(messages[1..]) > 0
    ensures var c := Compact(messages, keepFull);
      && c.messages == [messages[0]] + (if Actions(messages[1..]) == [] then [] else [User(c.summary)]) + messages[1..]
      && |c.messages| == |messages| + (if Actions(messages[1..]) == [] then 0 else 1)
  {}

  /** Every call of a turn that is dropped has its action among those listed. */
  lemma {:induction false} ActionsComplete(ms: seq<Message>, i: nat, k: nat) returns (n: nat)
    requires i < |ms| && ms[i].Assistant? && k < |ms[i].calls|
    ensures n < |Actions(ms)| && Actions(ms)[n] == ActionOf(ms[i].calls[k]) && n == |Actions(ms[..i])| + k
    decreases |ms|
  {
    var m := |ms| - 1;
    if i == m {
      n := |Actions(ms[..m])| + k;
    } else {
      n := ActionsComplete(ms[..m], i, k);
      assert ms[..m][..i] == ms[..i];
    }
  }

  lemma Regrouped(head: string, before: string, item: string, after: string, tail: string)
    ensures head + (before + item + after) + tail == (head + before) + item + (after + tail)
  {}

  lemma {:induction false} Listed(actions: seq<string>, n: nat) returns (before: string, after: string)
    requires n < |actions|
    ensures Listing(actions) == before + Item(n, actions[n]) + after
    decreases |actions|
  {
    hide Item;
    var m := |actions| - 1;
    if n == m {
      before, after := Listing(actions[..m]) + (if m == 0 then "" else "\n"), "";
    } else {
      before, after := Listed(actions[..m], n);
      Regrouped("", before, Item(n, actions[n]), after, "\n" + Item(m, actions[m]));
      after := after + ("\n" + Item(m, actions[m]));
    }
  }

  /** The summary names, with its number, the action of every call whose step it replaces. */
  lemma {:induction false} SummaryNames(
      dropped: seq<Message>, i: nat, k: nat) returns (n: nat, before: string, after: string)
    requires i < |dropped| && dropped[i].Assistant? && k < |dropped[i].calls|
    ensures SummaryOf(Actions(dropped)) == before + Item(n, ActionOf(dropped[i].calls[k])) + after
    ensures n == |Actions(dropped[..i])| + k
    ensures Numbered(Item(n, ActionOf(dropped[i].calls[k])), n + 1, ActionOf(dropped[i].calls[k]))
  {
    n := ActionsComplete(dropped, i, k);
    ItemIsNumbered(n, ActionOf(dropped[i].calls[k]));
    hide Item, Listing, ActionOf;
    before, after := Listed(Actions(dropped), n);
    Regrouped(DONE_ALREADY, before, Item(n, Actions(dropped)[n]), after, DO_NOT_REPEAT);
    before, after := DONE_ALREADY + before, after + DO_NOT_REPEAT;
  }

  /* ------------------------------ well-paired turns ------------------------------ */

  /** `m` is the other half of the turn `a`: one result for each call, in order, or the nudge when it called nothing. */
  predicate Answers(m: Message, a: Message)
    requires a.Assistant?
  {
    if a.calls == [] then m.User?
    else m.Results? && |m.results| == |a.calls| && forall i :: 0 <= i < |a.calls| ==> m.results[i].id == a.calls[i].id
  }

  /** Step after step, each assistant turn directly followed by its answer. */
  predicate Paired(ms: seq<Message>) {
    ms == [] || (|ms| >= 2 && ms[0].Assistant? && Answers(ms[1], ms[0]) && Paired(ms[2..]))
  }

  /** How many messages stand between the brief and the first step. */
  function Lead(ms: seq<Message>): nat { if |ms| > 1 && ms[1].User? then 1 else 0 }

  /** A brief, at most one summary, and paired steps. */
  predicate WellFormed(ms: seq<Message>) {
    ms != [] && ms[0].User? && Paired(ms[1 + Lead(ms)..])
  }

  lemma {:induction false} PairedTurns(ms: seq<Message>)
    requires Paired(ms)
    ensures |ms| == 2 * Turns(ms)
    decreases |ms|
  {
    if ms != [] {
      assert ms == ms[..2] + ms[2..];
      TurnsSplit(ms[..2], ms[2..]);
      assert ms[..2] == [ms[0], ms[1]] && [ms[0], ms[1]][..1] == [ms[0]] && [ms[0]][..0] == [];
      PairedTurns(ms[2..]);
    }
  }

  /** Paired messages from `from` on are paired from every later turn on. */
  lemma {:induction false} PairedFrom(ms: seq<Message>, from: nat, to: nat, i: nat)
    requires from <= to <= |ms| && to == from + 2 * i && Paired(ms[from..])
    ensures Paired(ms[to..])
    decreases i
  {
    if i > 0 {
      assert ms[from..][2..] == ms[from + 2..];
      PairedFrom(ms, from + 2, to, i - 1);
    }
  }

  lemma {:induction false} PairedAppend(ms: seq<Message>, a: Message, m: Message)
    requires Paired(ms) && a.Assistant? && Answers(m, a)
    ensures Paired(ms + [a, m])
    decreases |ms|
  {
    if ms == [] {
      assert ms + [a, m] == [a, m] && [a, m][2..] == [];
    } else {
      PairedAppend(ms[2..], a, m);
      assert (ms + [a, m])[2..] == ms[2..] + [a, m];
    }
  }

  /** In a paired sequence the `k`th turn from the end starts `2 * k` messages before it. */
  lemma {:induction false} CutOfPaired(lead: seq<Message>, ms: seq<Message>, k: nat)
    requires Paired(ms) && Turns(lead) == 0 && 1 <= k <= Turns(ms)
    ensures Turns(lead + ms) == Turns(ms) && Cut(lead + ms, k) == |lead| + |ms| - 2 * k
    decreases |ms|
  {
    TurnsSplit(lead, ms);
    PairedTurns(ms);
    var cut := Cut(lead + ms, k);
    CutKeeps(lead + ms, k);
    PairedFrom(ms, 0, 2 * (Turns(ms) - k), Turns(ms) - k);
    var want := |lead| + |ms| - 2 * k;
    assert (lead + ms)[want..] == ms[2 * (Turns(ms) - k)..];
    PairedTurns(ms[2 * (Turns(ms) - k)..]);
    OneCut(lead + ms, cut, want);
  }

  lemma FirstTurn(a: seq<Message>)
    requires a != [] && a[0].Assistant?
    ensures Turns(a) >= 1
  {
    assert a == a[..1] + a[1..];
    TurnsSplit(a[..1], a[1..]);
    assert a[..1][..0] == [];
  }

  /** A suffix that begins later, past an assistant turn, holds fewer turns. */
  lemma {:induction false} FewerLater(ms: seq<Message>, lo: nat, hi: nat)
    requires lo < hi < |ms| && ms[lo].Assistant?
    ensures Turns(ms[lo..]) > Turns(ms[hi..])
  {
    hide Turns;
    assert ms[lo..] == ms[lo..hi] + ms[hi..];
    TurnsSplit(ms[lo..hi], ms[hi..]);
    FirstTurn(ms[lo..hi]);
  }

  /** Suffixes that begin at an assistant turn are told apart by how many turns they hold. */
  lemma {:induction false} OneCut(ms: seq<Message>, i: nat, j: nat)
    requires i < |ms| && j < |ms| && ms[i].Assistant? && ms[j].Assistant? && Turns(ms[i..]) == Turns(ms[j..])
    ensures i == j
  {
    hide Turns;
    if i < j { FewerLater(ms, i, j); }
    if j < i { FewerLater(ms, j, i); }
  }

  function LeadIn(ms: seq<Message>): seq<Message>
    requires ms != []
  {
    ms[1..1 + Lead(ms)]
  }

  function Steps(ms: seq<Message>): seq<Message>
    requires ms != []
  {
    ms[1 + Lead(ms)..]
  }

  lemma {:induction false} StepsAreTurns(ms: seq<Message>)
    requires WellFormed(ms)
    ensures ms[1..] == LeadIn(ms) + Steps(ms) && Turns(LeadIn(ms)) == 0 && Paired(Steps(ms))
    ensures Turns(ms[1..]) == Turns(Steps(ms)) && |ms| == 1 + |LeadIn(ms)| + 2 * Turns(Steps(ms)) && |LeadIn(ms)| <= 1
  {
    assert ms[1..] == LeadIn(ms) + Steps(ms);
    assert Turns(LeadIn(ms)) == 0 by { if LeadIn(ms) != [] { assert LeadIn(ms)[..0] == []; } }
    TurnsSplit(LeadIn(ms), Steps(ms));
    PairedTurns(Steps(ms));
  }

  lemma {:induction false} StepCount(ms: seq<Message>)
    requires WellFormed(ms)
    ensures Turns(ms[1..]) == Turns(Steps(ms)) && |ms| == 1 + Lead(ms) + 2 * Turns(Steps(ms))
  {
    StepsAreTurns(ms);
  }

  lemma {:induction false} CutPlace(messages: seq<Message>, keepFull: nat)
    requires keepFull >= 1 && WellFormed(messages) && Turns(messages[1..]) > keepFull
    ensures Turns(Steps(messages)) > keepFull
    ensures 1 + Cut(messages[1..], keepFull) == 1 + Lead(messages) + 2 * (Turns(Steps(messages)) - keepFull)
  {
    StepsAreTurns(messages);
    assert |LeadIn(messages)| == Lead(messages) && |Steps(messages)| == 2 * Turns(Steps(messages));
    hide Turns, Cut, Paired, WellFormed, LeadIn, Steps;
    CutOfPaired(LeadIn(messages), Steps(messages), keepFull);
  }

  lemma {:induction false} KeptFrom(messages: seq<Message>, at: nat, n: nat, k: nat)
    requires WellFormed(messages) && |messages| == 1 + Lead(messages) + 2 * n && k <= n
      && at == 1 + Lead(messages) + 2 * (n - k)
    ensures Paired(messages[at..]) && |messages| - at == 2 * k
  {
    PairedFrom(messages, 1 + Lead(messages), at, n - k);
  }

  lemma {:induction false} KeptIsPaired(messages: seq<Message>, keepFull: nat)
    requires keepFull >= 1 && WellFormed(messages) && Turns(messages[1..]) > keepFull
    ensures Paired(messages[1 + Cut(messages[1..], keepFull)..])
    ensures |messages| - (1 + Cut(messages[1..], keepFull)) == 2 * keepFull
  {
    CutPlace(messages, keepFull);
    StepCount(messages);
    hide Turns, Cut, Paired, WellFormed, Steps, Lead;
    KeptFrom(messages, 1 + Cut(messages[1..], keepFull), Turns(Steps(messages)), keepFull);
  }

  lemma {:induction false} SmallStays(messages: seq<Message>, keepFull: nat)
    requires keepFull >= 1 && WellFormed(messages) && Turns(messages[1..]) <= keepFull
    ensures Compact(messages, keepFull).messages == messages && |messages| <= 2 + 2 * keepFull
  {
    StepsAreTurns(messages);
    hide Turns, Cut, Paired, LeadIn, Steps, Lead;
  }

  /** A call is never separated from its result, and what is left fits: a brief, a summary and `keepFull` steps. */
  lemma {:induction false} CompactKeepsPairs(messages: seq<Message>, keepFull: nat)
    requires keepFull >= 1 && WellFormed(messages)
    ensures var c := Compact(messages, keepFull).messages; WellFormed(c) && |c| <= 2 + 2 * keepFull
  {
    var brief := messages[0];
    assert brief.User?;
    hide Turns, Cut, Paired, Compact, WellFormed, LeadOf;
    if Turns(messages[1..]) > keepFull {
      KeptIsPaired(messages, keepFull);
      CompactCuts(messages, keepFull);
      assert |messages[1 + Cut(messages[1..], keepFull)..]| == 2 * keepFull;
      WellFormedFrom(brief, Compact(messages, keepFull).summary, messages[1 + Cut(messages[1..], keepFull)..]);
    } else {
      SmallStays(messages, keepFull);
    }
  }

  lemma WellFormedFrom(brief: Message, summary: string, kept: seq<Message>)
    requires brief.User? && kept != [] && kept[0].Assistant? && Paired(kept)
    ensures var ms := [brief] + LeadOf(summary) + kept; WellFormed(ms) && |ms| <= 2 + |kept|
  {
    var ms := [brief] + LeadOf(summary) + kept;
    assert ms[1 + Lead(ms)..] == kept;
  }

  /* ------------------------------ which windows bound it ------------------------------ */

  /** With this window no well-formed transcript, however long, is sent longer than `bound`. */
  ghost predicate BoundedBy(keepFull: int, bound: nat) {
    forall ms :: WellFormed(ms) ==> |Compact(ms, keepFull).messages| <= bound
  }

  /** `n` turns that called nothing, each with its nudge. */
  function Idling(n: nat): seq<Message> { if n == 0 then [] else [Assistant("", []), User("")] + Idling(n - 1) }

  lemma {:induction false} IdlingPaired(n: nat)
    ensures Paired(Idling(n)) && |Idling(n)| == 2 * n
  {
    if n > 0 {
      IdlingPaired(n - 1);
      assert Idling(n)[2..] == Idling(n - 1);
    }
  }

  /** A transcript of `n` such turns is well formed, and a window below one step sends all of it. */
  lemma {:induction false} IdlingGrows(n: nat, keepFull: int)
    requires n > 0 && keepFull <= 0
    ensures var ms := [User("")] + Idling(n); WellFormed(ms) && |Compact(ms, keepFull).messages| > n
  {
    var ms := [User("")] + Idling(n);
    IdlingPaired(n);
    PairedTurns(Idling(n));
    assert Idling(n)[0].Assistant? && ms[1] == Idling(n)[0];
    assert ms[1..] == Idling(n) && ms[1 + Lead(ms)..] == Idling(n);
    hide Turns, Idling;
    NoWindowKeepsEverything(ms, keepFull);
  }

  /**
   * The transcript stays bounded however long the job runs if and only if the window is
   * at least one step. Below that the source's cut index does not exist, and
   * compaction, meant to shorten the transcript, never does.
   */
  lemma {:induction false} BoundedExactly(keepFull: int)
    ensures (exists bound: nat :: BoundedBy(keepFull, bound)) <==> keepFull >= 1
  {
    if keepFull >= 1 {
      forall ms | WellFormed(ms) ensures |Compact(ms, keepFull).messages| <= 2 + 2 * keepFull {
        CompactKeepsPairs(ms, keepFull);
      }
      assert BoundedBy(keepFull, 2 + 2 * keepFull);
    } else {
      forall bound: nat ensures !BoundedBy(keepFull, bound) { IdlingGrows(bound + 1, keepFull); }
    }
  }
}
