/**
 * How sequence numbers are handed out. `appendEvent` bumps the run row's counter
 * and inserts the event inside the caller's transaction; the update holds the run
 * row until that transaction ends. Here transactions of many processes interleave
 * statement by statement, and any of them may roll back.
 */
module SequenceLog {
  import opened Common
  import opened Events

  type TxId = nat

  datatype Entry = Entry(run: RunId, seqNo: nat, event: Event)

  /** What a transaction has written and not committed: run rows it holds, with their counters, and event rows. */
  datatype Tx = Tx(counters: map<RunId, nat>, rows: seq<Entry>)

  datatype Table = Table(counters: map<RunId, nat>, rows: seq<Entry>, open: map<TxId, Tx>)

  const EMPTY_TABLE := Table(map[], [], map[])

  /** `Hold` is any other statement that locks the run row: a status change, or the spawn endpoint's `FOR UPDATE`. */
  datatype Act =
    | Begin(tx: TxId)
    | InsertRun(tx: TxId, run: RunId)
    | Hold(tx: TxId, run: RunId)
    | AppendEvent(tx: TxId, run: RunId, event: Event)
    | Commit(tx: TxId)
    | Rollback(tx: TxId)

  /** No other transaction holds the run row. */
  predicate Free(t: Table, tx: TxId, r: RunId) {
    forall o :: o in t.open && o != tx ==> r !in t.open[o].counters
  }

  function With(t: Table, tx: TxId, body: Tx): Table { t.(open := t.open[tx := body]) }

  /** The number `UPDATE runs SET event_seq = event_seq + 1 ... RETURNING` yields, when the row can be had. */
  function Bumped(t: Table, tx: TxId, r: RunId): Option<nat>
    requires tx in t.open
  {
    if r in t.open[tx].counters then Some(t.open[tx].counters[r] + 1)
    else if r in t.counters then Some(t.counters[r] + 1)
    else None
  }

  /** A statement that must wait for a row another transaction holds changes nothing yet. */
  function Next(t: Table, a: Act): Table {
    if a.Begin? then (if a.tx in t.open then t else With(t, a.tx, Tx(map[], [])))
    else if a.tx !in t.open then t
    else
      var mine := t.open[a.tx];
      match a
      case InsertRun(tx, r) =>
        if r in t.counters || r in mine.counters || !Free(t, tx, r) then t
        else With(t, tx, mine.(counters := mine.counters[r := 0]))
      case Hold(tx, r) =>
        if r in mine.counters || !Free(t, tx, r) || r !in t.counters then t
        else With(t, tx, mine.(counters := mine.counters[r := t.counters[r]]))
      case AppendEvent(tx, r, e) =>
        if !Free(t, tx, r) then t
        else (match Bumped(t, tx, r)
          case None => t.(open := t.open - {tx})
          case Some(n) => With(t, tx, Tx(mine.counters[r := n], mine.rows + [Entry(r, n, e)])))
      case Commit(tx) => Table(t.counters + mine.counters, t.rows + mine.rows, t.open - {tx})
      case Rollback(tx) => t.(open := t.open - {tx})
  }

  function Run(t: Table, acts: seq<Act>): Table
    decreases |acts|
  {
    if acts == [] then t else Run(Next(t, acts[0]), acts[1..])
  }

  /* ----------------------------- reading ----------------------------- */

  /** The rows of one run, in the order they were written. */
  function OfRun(rows: seq<Entry>, r: RunId): seq<Entry> {
    if rows == [] then []
    else
      var before := OfRun(rows[..|rows| - 1], r);
      if rows[|rows| - 1].run == r then before + [rows[|rows| - 1]] else before
  }

  function CounterOf(counters: map<RunId, nat>, r: RunId): nat { if r in counters then counters[r] else 0 }

  /** Rows numbered without gap or repeat, the first one `after + 1` and the last one `last`. */
  predicate Numbered(rows: seq<Entry>, after: nat, last: nat) {
    after + |rows| == last && forall i :: 0 <= i < |rows| ==> rows[i].seqNo == after + 1 + i
  }

  /** The committed stream of a run. */
  function Stream(t: Table, r: RunId): seq<Event> {
    var rows := OfRun(t.rows, r);
    seq(|rows|, i requires 0 <= i < |rows| => rows[i].event)
  }

  /* ---------------------------- invariants ---------------------------- */

  predicate TxOk(t: Table, tx: TxId, r: RunId)
    requires tx in t.open
  {
    var mine := t.open[tx];
    if r in mine.counters then
      Free(t, tx, r) && Numbered(OfRun(mine.rows, r), CounterOf(t.counters, r), mine.counters[r])
    else OfRun(mine.rows, r) == []
  }

  predicate RunOk(t: Table, r: RunId) { Numbered(OfRun(t.rows, r), 0, CounterOf(t.counters, r)) }

  ghost predicate Valid(t: Table) {
    (forall r :: RunOk(t, r)) && forall tx, r :: tx in t.open ==> TxOk(t, tx, r)
  }

  lemma {:induction false} OfRunSplits(a: seq<Entry>, b: seq<Entry>, r: RunId)
    ensures OfRun(a + b, r) == OfRun(a, r) + OfRun(b, r)
    decreases |b|
  {
    if b == [] {
      assert a + b == a;
    } else {
      assert (a + b)[..|a + b| - 1] == a + b[..|b| - 1];
      OfRunSplits(a, b[..|b| - 1], r);
    }
  }

  lemma {:induction false} CommitOk(t: Table, tx: TxId, r: RunId)
    requires Valid(t) && tx in t.open
    ensures RunOk(Next(t, Commit(tx)), r)
  {
    assert RunOk(t, r) && TxOk(t, tx, r);
    OfRunSplits(t.rows, t.open[tx].rows, r);
  }

  lemma {:induction false} CommitLeavesTx(t: Table, tx: TxId, o: TxId, r: RunId)
    requires Valid(t) && tx in t.open && o in t.open && o != tx
    ensures TxOk(Next(t, Commit(tx)), o, r)
  {
    assert TxOk(t, tx, r) && TxOk(t, o, r);
  }

  lemma {:induction false} AppendOk(t: Table, tx: TxId, e: Event, run: RunId, o: TxId, r: RunId)
    requires Valid(t) && tx in t.open && o in t.open && Free(t, tx, run) && Bumped(t, tx, run).Some?
    ensures o in Next(t, AppendEvent(tx, run, e)).open && TxOk(Next(t, AppendEvent(tx, run, e)), o, r)
  {
    assert TxOk(t, o, r) && TxOk(t, tx, r);
    if o == tx {
      var row := Entry(run, Bumped(t, tx, run).value, e);
      OfRunSplits(t.open[tx].rows, [row], r);
      assert OfRun([row], r) == if run == r then [row] else [];
    }
  }

  lemma {:induction false} HoldOk(t: Table, a: Act, o: TxId, r: RunId)
    requires Valid(t) && (a.Hold? || a.InsertRun? || a.Begin?) && o in Next(t, a).open
    ensures TxOk(Next(t, a), o, r)
  {
    if o in t.open { assert TxOk(t, o, r); }
    if a.tx in t.open { assert TxOk(t, a.tx, r); }
    if r in t.counters || a.Hold? { assert RunOk(t, r); }
  }

  lemma {:induction false} GoneOk(t: Table, tx: TxId, o: TxId, r: RunId)
    requires Valid(t) && o in t.open && o != tx
    ensures TxOk(t.(open := t.open - {tx}), o, r)
  {
    assert TxOk(t, o, r);
  }

  lemma {:induction false} NextValid(t: Table, a: Act)
    requires Valid(t)
    ensures Valid(Next(t, a))
  {
    var t' := Next(t, a);
    forall r ensures RunOk(t', r) {
      assert RunOk(t, r);
      if a.Commit? && a.tx in t.open { CommitOk(t, a.tx, r); }
    }
    forall o, r | o in t'.open ensures TxOk(t', o, r) {
      hide RunOk, TxOk, Valid;
      if a.Hold? || a.InsertRun? || a.Begin? { HoldOk(t, a, o, r); }
      else if a.tx !in t.open { assert t' == t; StillOk(t, o, r); }
      else if a.Commit? { CommitLeavesTx(t, a.tx, o, r); }
      else if a.Rollback? { GoneOk(t, a.tx, o, r); }
      else if !Free(t, a.tx, a.run) { StillOk(t, o, r); }
      else if Bumped(t, a.tx, a.run).None? { GoneOk(t, a.tx, o, r); }
      else { AppendOk(t, a.tx, a.event, a.run, o, r); }
    }
  }

  lemma StillOk(t: Table, o: TxId, r: RunId)
    requires Valid(t) && o in t.open
    ensures TxOk(t, o, r)
  {}

  lemma {:induction false} RunValid(t: Table, acts: seq<Act>)
    requires Valid(t)
    ensures Valid(Run(t, acts))
    decreases |acts|
  {
    if acts != [] {
      NextValid(t, acts[0]);
      RunValid(Next(t, acts[0]), acts[1..]);
    }
  }

  /* ---------------------------- main theorems ---------------------------- */

  /**
   * However transactions interleave, wait and roll back, at every moment the
   * committed events of every run are numbered exactly 1..`event_seq`, once each.
   */
  lemma {:induction false} GapFree(acts: seq<Act>, r: RunId)
    ensures var t := Run(EMPTY_TABLE, acts);
      && |Stream(t, r)| == CounterOf(t.counters, r)
      && forall i :: 0 <= i < |OfRun(t.rows, r)| ==> OfRun(t.rows, r)[i].seqNo == i + 1
  {
    assert Valid(EMPTY_TABLE);
    RunValid(EMPTY_TABLE, acts);
    assert RunOk(Run(EMPTY_TABLE, acts), r);
  }

  /** Two transactions never hold the same run row, so no two of them can be given the same number. */
  lemma {:induction false} OneWriterPerRun(acts: seq<Act>, a: TxId, b: TxId, r: RunId)
    requires a in Run(EMPTY_TABLE, acts).open && b in Run(EMPTY_TABLE, acts).open && a != b
    requires r in Run(EMPTY_TABLE, acts).open[a].counters
    ensures r !in Run(EMPTY_TABLE, acts).open[b].counters
  {
    assert Valid(EMPTY_TABLE);
    RunValid(EMPTY_TABLE, acts);
    assert TxOk(Run(EMPTY_TABLE, acts), a, r);
  }

  lemma {:induction false} NextExtends(t: Table, a: Act, r: RunId)
    ensures OfRun(t.rows, r) <= OfRun(Next(t, a).rows, r)
  {
    if a.Commit? && a.tx in t.open { OfRunSplits(t.rows, t.open[a.tx].rows, r); }
  }

  /** Whatever is read of a run is a prefix of what is read of it later. */
  lemma {:induction false} ReadsArePrefixes(t: Table, acts: seq<Act>, r: RunId)
    ensures OfRun(t.rows, r) <= OfRun(Run(t, acts).rows, r)
    ensures Stream(t, r) <= Stream(Run(t, acts), r)
    decreases |acts|
  {
    if acts != [] {
      NextExtends(t, acts[0], r);
      ReadsArePrefixes(Next(t, acts[0]), acts[1..], r);
    }
  }

  /**
   * A transaction is one atomic append per run: nothing of it shows before its
   * commit, the commit adds its events in the order it wrote them, and every number
   * it was given along the way is the position its event then has in the stream.
   */
  lemma {:induction false} CommitAppendsAtOnce(acts: seq<Act>, a: Act, r: RunId)
    ensures var t := Run(EMPTY_TABLE, acts); var t' := Next(t, a);
      OfRun(t'.rows, r) == OfRun(t.rows, r) + if a.Commit? && a.tx in t.open then OfRun(t.open[a.tx].rows, r) else []
    ensures var t := Run(EMPTY_TABLE, acts); var t' := Next(t, a);
      a.Commit? && a.tx in t.open ==>
        forall i :: 0 <= i < |OfRun(t.open[a.tx].rows, r)| ==> Placed(t, t', a.tx, r, i)
  {
    hide *;
    EmptyValid();
    RunValid(EMPTY_TABLE, acts);
    CommitGrows(Run(EMPTY_TABLE, acts), a, r);
    CommitPlaces(Run(EMPTY_TABLE, acts), a, r);
  }

  lemma EmptyValid()
    ensures Valid(EMPTY_TABLE)
  {}

  lemma {:induction false} CommitGrows(t: Table, a: Act, r: RunId)
    ensures OfRun(Next(t, a).rows, r)
      == OfRun(t.rows, r) + if a.Commit? && a.tx in t.open then OfRun(t.open[a.tx].rows, r) else []
  {
    if a.Commit? && a.tx in t.open { OfRunSplits(t.rows, t.open[a.tx].rows, r); }
  }

  /** Row `i` of a transaction on run `r`, placed in the stream after the commit. */
  predicate Placed(t: Table, t': Table, tx: TxId, r: RunId, i: nat)
    requires tx in t.open && i < |OfRun(t.open[tx].rows, r)|
  {
    var row := OfRun(t.open[tx].rows, r)[i];
    0 < row.seqNo && row.seqNo <= |Stream(t', r)| && Stream(t', r)[row.seqNo - 1] == row.event
  }

  lemma {:induction false} CommitPlaces(t: Table, a: Act, r: RunId)
    requires Valid(t)
    ensures a.Commit? && a.tx in t.open ==>
      forall i :: 0 <= i < |OfRun(t.open[a.tx].rows, r)| ==> Placed(t, Next(t, a), a.tx, r, i)
  {
    if a.Commit? && a.tx in t.open {
      assert RunOk(t, r) && TxOk(t, a.tx, r);
      CommitGrows(t, a, r);
      hide Next, Valid, Free;
    }
  }

  /** A statement that locks a run row has it from then on, if the run exists and nobody else holds it. */
  lemma {:induction false} HoldTakes(t: Table, tx: TxId, r: RunId)
    requires tx in t.open && Free(t, tx, r) && (r in t.counters || r in t.open[tx].counters)
    ensures var t' := Next(t, Hold(tx, r));
      && tx in t'.open && r in t'.open[tx].counters && t'.rows == t.rows && t'.open[tx].rows == t.open[tx].rows
  {}

  /** Who holds a run row keeps everybody else out: until it ends, the run gets no event and no other holder. */
  lemma {:induction false} HeldIsFrozen(acts: seq<Act>, a: Act, tx: TxId, r: RunId)
    requires tx in Run(EMPTY_TABLE, acts).open && r in Run(EMPTY_TABLE, acts).open[tx].counters && a.tx != tx
    ensures var t := Run(EMPTY_TABLE, acts); var t' := Next(t, a);
      && tx in t'.open && t'.open[tx] == t.open[tx]
      && OfRun(t'.rows, r) == OfRun(t.rows, r) && CounterOf(t'.counters, r) == CounterOf(t.counters, r)
      && forall o :: o in t'.open && o != tx ==> r !in t'.open[o].counters
  {
    var t := Run(EMPTY_TABLE, acts);
    assert Valid(EMPTY_TABLE);
    RunValid(EMPTY_TABLE, acts);
    assert TxOk(t, tx, r);
    NextValid(t, a);
    assert tx in Next(t, a).open && TxOk(Next(t, a), tx, r);
    if a.tx in t.open {
      assert TxOk(t, a.tx, r);
      CommitGrows(t, a, r);
    }
    hide Valid, Run;
  }
}
