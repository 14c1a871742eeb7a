/**
 * From statements to transactions. `SequenceLog` interleaves transactions statement by
 * statement; the queue takes each of its transactions as one step. Here the two meet:
 * whatever is committed, and every number in it, is as if the transactions had run one
 * at a time in the order of their commits.
 */
module CommitOrder {
  import opened Common
  import opened Events
  import opened SequenceLog
  import Q = QueueModel
  import QI = QueueInvariants
  import QR = QueueRuns
  import QT = QueueTheorems

  /* --------------------------- one at a time --------------------------- */

  /** `appendEvent` with nobody else around: the next number of the run, committed at once. */
  function Written(rows: seq<Entry>, w: Entry): seq<Entry> {
    rows + [Entry(w.run, |OfRun(rows, w.run)| + 1, w.event)]
  }

  /** One transaction's writes, whatever numbers they were given. */
  function AllWritten(rows: seq<Entry>, writes: seq<Entry>): seq<Entry> {
    if writes == [] then rows
    else Written(AllWritten(rows, writes[..|writes| - 1]), writes[|writes| - 1])
  }

  /** Transactions one after the other. */
  function InTurn(rows: seq<Entry>, txs: seq<seq<Entry>>): seq<Entry>
    decreases |txs|
  {
    if txs == [] then rows else InTurn(AllWritten(rows, txs[0]), txs[1..])
  }

  /** What the transactions that commit have written, in the order of their commits. */
  function Commits(t: Table, acts: seq<Act>): seq<seq<Entry>>
    decreases |acts|
  {
    if acts == [] then []
    else
      (if acts[0].Commit? && acts[0].tx in t.open then [t.open[acts[0].tx].rows] else [])
      + Commits(Next(t, acts[0]), acts[1..])
  }

  /** Row `i` has the number it gets when these rows are committed after `before`. */
  predicate NumberedAfter(before: seq<Entry>, rows: seq<Entry>, i: nat)
    requires i < |rows|
  {
    rows[i].seqNo == |OfRun(before + rows[..i], rows[i].run)| + 1
  }

  lemma {:induction false} RewrittenAlike(before: seq<Entry>, rows: seq<Entry>, n: nat)
    requires n <= |rows| && forall i :: 0 <= i < n ==> NumberedAfter(before, rows, i)
    ensures AllWritten(before, rows[..n]) == before + rows[..n]
    decreases n
  {
    if n > 0 {
      assert NumberedAfter(before, rows, n - 1);
      hide AllWritten, OfRun;
      RewrittenAlike(before, rows, n - 1);
      WrittenLast(before, rows, n);
      assert before + rows[..n] == (before + rows[..n - 1]) + [rows[n - 1]];
    }
  }

  lemma WrittenLast(before: seq<Entry>, rows: seq<Entry>, n: nat)
    requires 0 < n <= |rows|
    ensures AllWritten(before, rows[..n]) == Written(AllWritten(before, rows[..n - 1]), rows[n - 1])
    ensures var all := AllWritten(before, rows[..n - 1]); var w := rows[n - 1];
      Written(all, w) == all + [Entry(w.run, |OfRun(all, w.run)| + 1, w.event)]
  {
    assert rows[..n][..n - 1] == rows[..n - 1];
  }

  /** The number a transaction got while others were at work is the one of its commit. */
  lemma {:induction false} NumberStands(t: Table, tx: TxId, n: nat)
    requires Valid(t) && tx in t.open && n < |t.open[tx].rows|
    ensures NumberedAfter(t.rows, t.open[tx].rows, n)
  {
    var rows := t.open[tx].rows;
    var r := rows[n].run;
    assert RunOk(t, r) && TxOk(t, tx, r);
    assert rows == rows[..n] + ([rows[n]] + rows[n + 1..]);
    OfRunSplits(rows[..n], [rows[n]] + rows[n + 1..], r);
    OfRunSplits([rows[n]], rows[n + 1..], r);
    assert OfRun([rows[n]], r) == [rows[n]];
    assert OfRun(rows, r)[|OfRun(rows[..n], r)|] == rows[n];
    OfRunSplits(t.rows, rows[..n], r);
  }

  lemma {:induction false} CommitIsWritten(t: Table, a: Act)
    requires Valid(t)
    ensures Next(t, a).rows ==
      if a.Commit? && a.tx in t.open then AllWritten(t.rows, t.open[a.tx].rows) else t.rows
  {
    if a.Commit? && a.tx in t.open {
      var rows := t.open[a.tx].rows;
      forall i | 0 <= i < |rows| ensures NumberedAfter(t.rows, rows, i) { NumberStands(t, a.tx, i); }
      hide Valid, AllWritten, NumberedAfter;
      RewrittenAlike(t.rows, rows, |rows|);
      assert rows[..|rows|] == rows;
    }
  }

  lemma {:induction false} SerialFrom(t: Table, acts: seq<Act>)
    requires Valid(t)
    ensures Run(t, acts).rows == InTurn(t.rows, Commits(t, acts))
    decreases |acts|
  {
    if acts != [] {
      CommitIsWritten(t, acts[0]);
      NextValid(t, acts[0]);
      hide Valid, Next, AllWritten;
      SerialFrom(Next(t, acts[0]), acts[1..]);
      var rest := Commits(Next(t, acts[0]), acts[1..]);
      if acts[0].Commit? && acts[0].tx in t.open {
        assert ([t.open[acts[0].tx].rows] + rest)[1..] == rest;
      } else {
        assert [] + rest == rest;
      }
    }
  }

  /**
   * However transactions interleave, wait and roll back, the committed rows are those of
   * the same transactions run one at a time in the order of their commits: the same
   * events in the same order with the same numbers.
   */
  lemma {:induction false} Serializable(acts: seq<Act>)
    ensures Run(EMPTY_TABLE, acts).rows == InTurn([], Commits(EMPTY_TABLE, acts))
  {
    EmptyValid();
    SerialFrom(EMPTY_TABLE, acts);
  }

  /* ------------------------- the queue's transactions ------------------------- */

  /** The events among some rows that belong to run `r`. */
  function EventsOf(rows: seq<Entry>, r: RunId): seq<Event> {
    var mine := OfRun(rows, r);
    seq(|mine|, i requires 0 <= i < |mine| => mine[i].event)
  }

  function LogOf(db: Q.Db, r: RunId): seq<Event> { if r in db.log then db.log[r] else [] }

  /** The transactions that commit write the events of these queue steps, one transaction a step. */
  ghost predicate Performs(db: Q.Db, steps: seq<Q.Step>, txs: seq<seq<Entry>>)
    decreases |steps|
  {
    if steps == [] then txs == []
    else
      && txs != [] && Q.Stored(db) && Q.Tree(Q.ShapeOf(db.jobs)) && Q.Enabled(db, steps[0])
      && (forall r :: LogOf(Q.Next(db, steps[0]), r) == LogOf(db, r) + EventsOf(txs[0], r))
      && Performs(Q.Next(db, steps[0]), steps[1..], txs[1..])
  }

  lemma {:induction false} WrittenEvents(rows: seq<Entry>, writes: seq<Entry>, r: RunId)
    ensures EventsOf(AllWritten(rows, writes), r) == EventsOf(rows, r) + EventsOf(writes, r)
    decreases |writes|
  {
    if writes != [] {
      var n := |writes| - 1;
      WrittenEvents(rows, writes[..n], r);
      OneMore(AllWritten(rows, writes[..n]), AllWritten(rows, writes)[|AllWritten(rows, writes[..n])|], r);
      OneMore(writes[..n], writes[n], r);
      assert writes == writes[..n] + [writes[n]];
    }
  }

  lemma {:induction false} PerformedFrom(
      rows: seq<Entry>, db: Q.Db, steps: seq<Q.Step>, db': Q.Db, txs: seq<seq<Entry>>, r: RunId)
    requires QT.Leads(db, steps, db') && Performs(db, steps, txs) && EventsOf(rows, r) == LogOf(db, r)
    ensures EventsOf(InTurn(rows, txs), r) == LogOf(db', r)
    decreases |steps|
  {
    if steps != [] {
      WrittenEvents(rows, txs[0], r);
      hide Q.Next, EventsOf, LogOf, AllWritten, Q.Enabled;
      PerformedFrom(AllWritten(rows, txs[0]), Q.Next(db, steps[0]), steps[1..], db', txs[1..], r);
    }
  }

  /**
   * The queue's histories describe the interleaved database. Whenever the transactions
   * that commit, in the order of their commits, write what the steps of a queue history
   * write, the committed stream of every run and its counter are those the history ends
   * with, whatever interleaving, waiting and rolling back there was.
   */
  lemma {:induction false} QueueIsPerformed(acts: seq<Act>, steps: seq<Q.Step>, db: Q.Db, r: RunId)
    requires QT.Leads(Q.EMPTY_DB, steps, db) && Performs(Q.EMPTY_DB, steps, Commits(EMPTY_TABLE, acts))
    ensures var t := Run(EMPTY_TABLE, acts);
      && Stream(t, r) == LogOf(db, r)
      && CounterOf(t.counters, r) == if r in db.runs then db.runs[r].eventSeq else 0
  {
    Serializable(acts);
    GapFree(acts, r);
    assert OfRun([], r) == [] && LogOf(Q.EMPTY_DB, r) == [];
    PerformedFrom([], Q.EMPTY_DB, steps, db, Commits(EMPTY_TABLE, acts), r);
    StreamEvents(Run(EMPTY_TABLE, acts), r);
    hide *;
    LogCounts(steps, db, r);
  }

  lemma StreamEvents(t: Table, r: RunId)
    ensures Stream(t, r) == EventsOf(t.rows, r)
  {}

  lemma {:induction false} LogCounts(steps: seq<Q.Step>, db: Q.Db, r: RunId)
    requires QT.Leads(Q.EMPTY_DB, steps, db)
    ensures |LogOf(db, r)| == if r in db.runs then db.runs[r].eventSeq else 0
  {
    QT.Reachable(steps, db);
    hide QT.Leads;
    if r in db.runs { assert QI.StreamOk(db, r); }
  }

  /* --------------------- every queue history is performed --------------------- */

  /** The statements of one transaction with these writes; a run it does not find it inserts. */
  function Statements(tx: TxId, writes: seq<Entry>): seq<Act> {
    if writes == [] then []
    else
      var w := writes[|writes| - 1];
      Statements(tx, writes[..|writes| - 1]) + [InsertRun(tx, w.run), AppendEvent(tx, w.run, w.event)]
  }

  lemma {:induction false} RunSplits(t: Table, a: seq<Act>, b: seq<Act>)
    ensures Run(t, a + b) == Run(Run(t, a), b)
    ensures Commits(t, a + b) == Commits(t, a) + Commits(Run(t, a), b)
    decreases |a|
  {
    if a == [] {
      assert a + b == b;
    } else {
      assert (a + b)[1..] == a[1..] + b;
      hide Next;
      RunSplits(Next(t, a[0]), a[1..], b);
    }
  }

  /** `tx` is alone and has written these events. */
  ghost predicate Alone(t: Table, t': Table, tx: TxId, writes: seq<Entry>) {
    && t'.open.Keys == {tx} && t'.rows == t.rows && t'.counters == t.counters
    && forall r :: EventsOf(t'.open[tx].rows, r) == EventsOf(writes, r)
  }

  lemma {:induction false} WriteAlone(t: Table, t1: Table, tx: TxId, writes: seq<Entry>, w: Entry)
    requires Alone(t, t1, tx, writes)
    ensures var t2 := Next(t1, InsertRun(tx, w.run)); var t3 := Next(t2, AppendEvent(tx, w.run, w.event));
      Alone(t, t3, tx, writes + [w])
  {
    var t2 := Next(t1, InsertRun(tx, w.run));
    var t3 := Next(t2, AppendEvent(tx, w.run, w.event));
    var got := t1.open[tx].rows;
    assert t2.open.Keys == {tx} && t2.open[tx].rows == got && Bumped(t2, tx, w.run).Some?;
    var row := Entry(w.run, Bumped(t2, tx, w.run).value, w.event);
    assert t3.open.Keys == {tx} && t3.open[tx].rows == got + [row] && t3.rows == t.rows && t3.counters == t.counters;
    hide Next, Bumped;
    forall r ensures EventsOf(got + [row], r) == EventsOf(writes + [w], r) {
      OneMore(writes, w, r);
      OneMore(got, row, r);
      hide EventsOf;
    }
  }

  lemma {:induction false} TwoActs(t: Table, a: Act, b: Act)
    requires !a.Commit? && !b.Commit?
    ensures Run(t, [a, b]) == Next(Next(t, a), b) && Commits(t, [a, b]) == []
  {
    var t1, t2 := Next(t, a), Next(Next(t, a), b);
    assert [a, b][1..] == [b] && [b][1..] == [];
    assert Run(t1, [b]) == Run(t2, []) && Commits(t1, [b]) == [] + Commits(t2, []);
    hide Next;
  }

  lemma OneMore(rows: seq<Entry>, w: Entry, r: RunId)
    ensures EventsOf(rows + [w], r) == if w.run == r then EventsOf(rows, r) + [w.event] else EventsOf(rows, r)
  {
    assert (rows + [w])[..|rows|] == rows;
  }

  lemma {:induction false} StatementsAlone(t: Table, tx: TxId, writes: seq<Entry>)
    requires t.open.Keys == {tx} && t.open[tx].rows == []
    ensures Alone(t, Run(t, Statements(tx, writes)), tx, writes) && Commits(t, Statements(tx, writes)) == []
    decreases |writes|
  {
    if writes != [] {
      var n := |writes| - 1;
      var w := writes[n];
      StatementsAlone(t, tx, writes[..n]);
      var last := [InsertRun(tx, w.run), AppendEvent(tx, w.run, w.event)];
      assert writes == writes[..n] + [w] && Statements(tx, writes) == Statements(tx, writes[..n]) + last;
      hide Next, Alone;
      RunSplits(t, Statements(tx, writes[..n]), last);
      TwoActs(Run(t, Statements(tx, writes[..n])), last[0], last[1]);
      WriteAlone(t, Run(t, Statements(tx, writes[..n])), tx, writes[..n], w);
    }
  }

  /** A transaction from its beginning to its commit. */
  function Transaction(tx: TxId, writes: seq<Entry>): seq<Act> { [Begin(tx)] + Statements(tx, writes) + [Commit(tx)] }

  lemma {:induction false} TransactionCommits(t: Table, tx: TxId, writes: seq<Entry>)
    requires t.open == map[]
    ensures var t' := Run(t, Transaction(tx, writes)); var commits := Commits(t, Transaction(tx, writes));
      t'.open == map[] && |commits| == 1 && forall r :: EventsOf(commits[0], r) == EventsOf(writes, r)
  {
    var begun := Next(t, Begin(tx));
    var done := Run(begun, Statements(tx, writes));
    assert begun.open == map[tx := Tx(map[], [])];
    StatementsAlone(begun, tx, writes);
    assert Run(t, [Begin(tx)]) == begun && Commits(t, [Begin(tx)]) == [] by { assert Run(begun, []) == begun; }
    RunSplits(t, [Begin(tx)], Statements(tx, writes));
    RunSplits(t, [Begin(tx)] + Statements(tx, writes), [Commit(tx)]);
    assert Commits(done, [Commit(tx)]) == [done.open[tx].rows] by { assert [Commit(tx)][1..] == []; }
    assert Run(done, [Commit(tx)]) == Next(done, Commit(tx)) by { assert [Commit(tx)][1..] == []; }
  }

  /** The rows of one run's events; their numbers do not matter. */
  function Rows(r: RunId, events: seq<Event>): seq<Entry> {
    seq(|events|, i requires 0 <= i < |events| => Entry(r, 0, events[i]))
  }

  lemma {:induction false} RowsEvents(r: RunId, events: seq<Event>, q: RunId)
    ensures EventsOf(Rows(r, events), q) == if q == r then events else []
    decreases |events|
  {
    if events != [] {
      var n := |events| - 1;
      RowsEvents(r, events[..n], q);
      assert Rows(r, events)[..n] == Rows(r, events[..n]);
      assert events == events[..n] + [events[n]];
    }
  }

  lemma EventsSplit(a: seq<Entry>, b: seq<Entry>, r: RunId)
    ensures EventsOf(a + b, r) == EventsOf(a, r) + EventsOf(b, r)
  {
    OfRunSplits(a, b, r);
  }

  /** Some writes that take the streams of the runs `rs` from one database to a later one. */
  lemma {:induction false} WritesBetween(db: Q.Db, db': Q.Db, rs: set<RunId>) returns (writes: seq<Entry>)
    requires forall r :: LogOf(db, r) <= LogOf(db', r)
    ensures forall r :: EventsOf(writes, r) == if r in rs then LogOf(db', r)[|LogOf(db, r)|..] else []
    decreases rs
  {
    writes := [];
    if rs != {} {
      var q := Least(rs);
      var rest := WritesBetween(db, db', rs - {q});
      var own := Rows(q, LogOf(db', q)[|LogOf(db, q)|..]);
      writes := rest + own;
      forall r ensures EventsOf(writes, r) == if r in rs then LogOf(db', r)[|LogOf(db, r)|..] else [] {
        EventsSplit(rest, own, r);
        RowsEvents(q, LogOf(db', q)[|LogOf(db, q)|..], r);
      }
    }
  }

  lemma {:induction false} StepLogs(db: Q.Db, steps: seq<Q.Step>, db': Q.Db)
    requires QI.Inv(db) && QT.Leads(db, steps, db') && steps != []
    ensures Q.Stored(db) && Q.Tree(Q.ShapeOf(db.jobs)) && Q.Enabled(db, steps[0])
    ensures var db1 := Q.Next(db, steps[0]);
      QI.Inv(db1) && QT.Leads(db1, steps[1..], db') && forall r :: LogOf(db, r) <= LogOf(db1, r)
  {
    hide *;
    FirstOf(db, steps, db');
    QR.NextKeeps(db, steps[0]);
    QT.NextGrows(db, steps[0]);
    LogsGrow(db, Q.Next(db, steps[0]));
  }

  lemma FirstOf(db: Q.Db, steps: seq<Q.Step>, db': Q.Db)
    requires QI.Inv(db) && QT.Leads(db, steps, db') && steps != []
    ensures Q.Stored(db) && Q.Tree(Q.ShapeOf(db.jobs)) && Q.Enabled(db, steps[0])
    ensures QT.Leads(Q.Next(db, steps[0]), steps[1..], db')
  {
    hide QI.Inv, Q.Next, Q.Enabled;
  }

  lemma LogsGrow(db: Q.Db, db': Q.Db)
    requires QT.Grows(db, db')
    ensures forall r :: LogOf(db, r) <= LogOf(db', r)
  {}

  lemma {:induction false} WritesOf(db: Q.Db, db': Q.Db) returns (writes: seq<Entry>)
    requires forall r :: LogOf(db, r) <= LogOf(db', r)
    ensures forall r :: LogOf(db', r) == LogOf(db, r) + EventsOf(writes, r)
  {
    writes := WritesBetween(db, db', db'.log.Keys);
    hide EventsOf;
    forall r ensures LogOf(db', r) == LogOf(db, r) + EventsOf(writes, r) {
      if r !in db'.log { assert LogOf(db', r) == []; }
    }
  }

  lemma PerformsMore(db: Q.Db, steps: seq<Q.Step>, txs: seq<seq<Entry>>, more: seq<seq<Entry>>)
    requires steps != [] && |txs| == 1
    requires Q.Stored(db) && Q.Tree(Q.ShapeOf(db.jobs)) && Q.Enabled(db, steps[0])
    requires forall r :: LogOf(Q.Next(db, steps[0]), r) == LogOf(db, r) + EventsOf(txs[0], r)
    requires Performs(Q.Next(db, steps[0]), steps[1..], more)
    ensures Performs(db, steps, txs + more)
  {
    assert (txs + more)[1..] == more;
  }

  /** And every queue history is performed by some interleaving, if only by one transaction after the other. */
  lemma {:induction false} Performable(t: Table, db: Q.Db, steps: seq<Q.Step>, db': Q.Db) returns (acts: seq<Act>)
    requires t.open == map[] && QI.Inv(db) && QT.Leads(db, steps, db')
    ensures Performs(db, steps, Commits(t, acts)) && Run(t, acts).open == map[]
    decreases |steps|
  {
    acts := [];
    if steps != [] {
      StepLogs(db, steps, db');
      var db1 := Q.Next(db, steps[0]);
      hide *;
      var writes := WritesOf(db, db1);
      TransactionCommits(t, 0, writes);
      var t1 := Run(t, Transaction(0, writes));
      var rest := Performable(t1, db1, steps[1..], db');
      acts := Transaction(0, writes) + rest;
      RunSplits(t, Transaction(0, writes), rest);
      PerformsMore(db, steps, Commits(t, Transaction(0, writes)), Commits(t1, rest));
    }
  }
}
