/**
 * Billing of virtual machines: every agent row carries the instant up to which it
 * has been billed, and each settlement moves it forward by whole seconds, writes a
 * ledger row for the period and adds it to the run. Instants are milliseconds.
 */
module Metering {
  import opened Common
  import opened Events

  type Provider = nat

  datatype CostStatus = Unavailable | Known | Partial

  /**
   * The metering columns of an agent row. `attached` is history: the instant the
   * current machine was attached, where billing of it began.
   */
  datatype Meter = Meter(run: RunId, provider: Option<Provider>,
    through: Option<int>, stopped: Option<int>, attached: int)

  datatype LedgerRow = LedgerRow(job: JobId, run: RunId, seconds: nat, micros: nat, known: bool, from: int, until: int)

  /** The usage columns of a run row. */
  datatype Bill = Bill(vmSeconds: nat, micros: nat, cents: nat, cost: CostStatus)

  datatype Books = Books(agents: map<JobId, Meter>, rows: seq<LedgerRow>, bills: map<RunId, Bill>, clock: int)

  const NEW_BILL := Bill(0, 0, 0, Unavailable)

  const EMPTY_BOOKS := Books(map[], [], map[], 0)

  /* ------------------------------- one settlement ------------------------------- */

  function Cap(m: Meter, now: int): int { if m.stopped.Some? then Min(m.stopped.value, now) else now }

  /** A whole second or more is unbilled. */
  predicate Due(b: Books, j: JobId, now: int) {
    && j in b.agents && b.agents[j].provider.Some? && b.agents[j].through.Some? && b.agents[j].run in b.bills
    && b.agents[j].through.value + 1000 <= Cap(b.agents[j], now)
  }

  /** `Math.round` */
  function Round(x: real): int { (x + 0.5).Floor }

  /** The exact price in millionths of a dollar of `seconds` at `rate` cents an hour. */
  function Exact(rate: real, seconds: int): real { rate * 10000.0 * seconds as real / 3600.0 }

  function Price(rate: Option<real>, seconds: nat): nat
    requires rate.Some? ==> rate.value >= 0.0
  {
    if rate.Some? then
      assert Exact(rate.value, seconds) >= 0.0;
      Round(Exact(rate.value, seconds))
    else 0
  }

  function Costed(bill: Bill, known: bool): CostStatus {
    if known && bill.cost.Unavailable? && bill.vmSeconds == 0 then Known
    else if known && bill.cost.Known? then Known
    else if !known && bill.cost.Unavailable? then Unavailable
    else Partial
  }

  function Added(bill: Bill, row: LedgerRow): Bill {
    Bill(bill.vmSeconds + row.seconds, bill.micros + row.micros,
      (bill.micros + row.micros) / 10000, Costed(bill, row.known))
  }

  /** The ledger's unique index: one row per job and end of period. */
  predicate Conflicts(rows: seq<LedgerRow>, row: LedgerRow) {
    exists i :: 0 <= i < |rows| && rows[i].job == row.job && rows[i].until == row.until
  }

  function Entered(rows: seq<LedgerRow>, row: LedgerRow): seq<LedgerRow> {
    if Conflicts(rows, row) then rows else rows + [row]
  }

  predicate RatesOk(rates: map<Provider, real>) { forall p :: p in rates ==> rates[p] >= 0.0 }

  function RowFor(b: Books, j: JobId, now: int, rates: map<Provider, real>): LedgerRow
    requires Due(b, j, now) && RatesOk(rates)
  {
    var m := b.agents[j];
    var start := m.through.value;
    var seconds := (Cap(m, now) - start) / 1000;
    var rate := if m.provider.value in rates then Some(rates[m.provider.value]) else None;
    LedgerRow(j, m.run, seconds, Price(rate, seconds), rate.Some?, start, start + seconds * 1000)
  }

  /** `#settleOne` for the row it selected. A conflicting ledger row would be skipped while the run is still charged. */
  function SettleOne(b: Books, j: JobId, now: int, rates: map<Provider, real>): Books
    requires Due(b, j, now) && RatesOk(rates)
  {
    var row := RowFor(b, j, now, rates);
    b.(rows := Entered(b.rows, row),
       agents := b.agents[j := b.agents[j].(through := Some(row.until))],
       bills := b.bills[row.run := Added(b.bills[row.run], row)])
  }

  /* ----------------------------------- steps ----------------------------------- */

  datatype Step =
    | OpenRun(run: RunId)
    | Reserve(job: JobId, run: RunId)
    | Attach(job: JobId, provider: Provider)
    | Stop(job: JobId)
    | Revive(job: JobId)
    | Tick(clock: int)
    | Settle(job: JobId, now: int, rates: map<Provider, real>)

  /** One clock: it does not go back, and no settlement uses an instant it has not reached. */
  predicate Enabled(b: Books, s: Step) {
    match s
    case OpenRun(r) => r !in b.bills
    case Reserve(j, r) => j !in b.agents && r in b.bills
    case Tick(clock) => clock >= b.clock
    case Settle(j, now, rates) => Due(b, j, now) && RatesOk(rates) && now <= b.clock
    case _ => s.job in b.agents
  }

  function Next(b: Books, s: Step): Books
    requires Enabled(b, s)
  {
    match s
    case OpenRun(r) => b.(bills := b.bills[r := NEW_BILL])
    case Reserve(j, r) => b.(agents := b.agents[j := Meter(r, None, None, None, b.clock)])
    case Attach(j, p) =>
      b.(agents := b.agents[j := b.agents[j].(provider := Some(p), through := Some(b.clock), attached := b.clock)])
    case Stop(j) => b.(agents := b.agents[j := b.agents[j].(stopped := Some(b.clock))])
    case Revive(j) => b.(agents := b.agents[j := b.agents[j].(stopped := None)])
    case Tick(clock) => b.(clock := clock)
    case Settle(j, now, rates) => SettleOne(b, j, now, rates)
  }

  ghost predicate Leads(b: Books, steps: seq<Step>, b': Books)
    decreases |steps|
  {
    if steps == [] then b' == b else Enabled(b, steps[0]) && Leads(Next(b, steps[0]), steps[1..], b')
  }

  /* ------------------------------- what the ledger says ------------------------------- */

  function SecondsOf(rows: seq<LedgerRow>, r: RunId): nat {
    if rows == [] then 0
    else
      var row := rows[|rows| - 1];
      SecondsOf(rows[..|rows| - 1], r) + if row.run == r then row.seconds else 0
  }

  function MicrosOf(rows: seq<LedgerRow>, r: RunId): nat {
    if rows == [] then 0
    else
      var row := rows[|rows| - 1];
      MicrosOf(rows[..|rows| - 1], r) + if row.run == r then row.micros else 0
  }

  /** How many of the run's rows have, or have not, a known cost. */
  function CountOf(rows: seq<LedgerRow>, r: RunId, known: bool): nat {
    if rows == [] then 0
    else
      var row := rows[|rows| - 1];
      CountOf(rows[..|rows| - 1], r, known) + if row.run == r && row.known == known then 1 else 0
  }

  /** What the cost status ought to be: known or unavailable when all rows agree, partial when they do not. */
  function StatusOf(rows: seq<LedgerRow>, r: RunId): CostStatus {
    if CountOf(rows, r, true) == 0 then Unavailable
    else if CountOf(rows, r, false) == 0 then Known
    else Partial
  }

  /** Seconds billed for job `j` in periods that begin at `since` or later. */
  function BilledSince(rows: seq<LedgerRow>, j: JobId, since: int): nat {
    if rows == [] then 0
    else
      var row := rows[|rows| - 1];
      BilledSince(rows[..|rows| - 1], j, since) + if row.job == j && row.from >= since then row.seconds else 0
  }

  /* ---------------------------------- invariants ---------------------------------- */

  predicate RowOk(row: LedgerRow) { row.seconds >= 1 && row.until == row.from + 1000 * row.seconds }

  /** Periods of one job never overlap. */
  predicate Apart(a: LedgerRow, b: LedgerRow) { a.job == b.job ==> a.until <= b.from }

  predicate RowsOk(rows: seq<LedgerRow>) {
    (forall i :: 0 <= i < |rows| ==> RowOk(rows[i])) && forall i, k :: 0 <= i < k < |rows| ==> Apart(rows[i], rows[k])
  }

  /** A job's rows all lie before the instant it is billed through; none straddles the instant of its attachment. */
  predicate MeterOk(b: Books, j: JobId)
    requires j in b.agents
  {
    var m := b.agents[j];
    && m.run in b.bills
    && (m.through.None? ==> forall i :: 0 <= i < |b.rows| ==> b.rows[i].job != j)
    && (m.through.Some? ==>
          && m.attached <= m.through.value <= b.clock
          && m.through.value == m.attached + 1000 * BilledSince(b.rows, j, m.attached)
          && forall i :: 0 <= i < |b.rows| && b.rows[i].job == j ==> b.rows[i].until <= m.through.value)
  }

  predicate BillOk(b: Books, r: RunId)
    requires r in b.bills
  {
    var bill := b.bills[r];
    && bill.vmSeconds == SecondsOf(b.rows, r) && bill.micros == MicrosOf(b.rows, r)
    && bill.cents == bill.micros / 10000 && bill.cost == StatusOf(b.rows, r)
  }

  /** Only jobs and runs that exist are billed. */
  predicate Homed(b: Books) {
    forall i :: 0 <= i < |b.rows| ==> b.rows[i].job in b.agents && b.rows[i].run in b.bills
  }

  ghost predicate Inv(b: Books) {
    && RowsOk(b.rows) && Homed(b)
    && (forall j :: j in b.agents ==> MeterOk(b, j))
    && (forall r :: r in b.bills ==> BillOk(b, r))
  }

  lemma {:induction false} SomeSeconds(rows: seq<LedgerRow>, r: RunId)
    requires RowsOk(rows)
    ensures SecondsOf(rows, r) == 0 <==> CountOf(rows, r, true) + CountOf(rows, r, false) == 0
    decreases |rows|
  {
    if rows != [] { SomeSeconds(rows[..|rows| - 1], r); }
  }

  lemma Appended(rows: seq<LedgerRow>, row: LedgerRow, r: RunId, j: JobId, since: int)
    ensures SecondsOf(rows + [row], r) == SecondsOf(rows, r) + if row.run == r then row.seconds else 0
    ensures MicrosOf(rows + [row], r) == MicrosOf(rows, r) + if row.run == r then row.micros else 0
    ensures forall known ::
      CountOf(rows + [row], r, known) == CountOf(rows, r, known) + if row.run == r && row.known == known then 1 else 0
    ensures BilledSince(rows + [row], j, since)
      == BilledSince(rows, j, since) + if row.job == j && row.from >= since then row.seconds else 0
  {
    assert (rows + [row])[..|rows|] == rows;
  }

  /** A settlement's period is new, whole, and ends after everything billed before. */
  lemma {:induction false} RowIsNew(b: Books, j: JobId, now: int, rates: map<Provider, real>)
    requires RowsOk(b.rows) && Due(b, j, now) && RatesOk(rates) && MeterOk(b, j)
    ensures var row := RowFor(b, j, now, rates);
      && RowOk(row) && !Conflicts(b.rows, row) && RowsOk(b.rows + [row])
        && row.until <= Cap(b.agents[j], now) < row.until + 1000
  {
    var row := RowFor(b, j, now, rates);
    var rows := b.rows + [row];
    forall i, k | 0 <= i < k < |rows| ensures Apart(rows[i], rows[k]) {
      if k < |b.rows| { assert Apart(b.rows[i], b.rows[k]); }
    }
  }

  lemma {:induction false} SettleBill(b: Books, j: JobId, now: int, rates: map<Provider, real>, r: RunId)
    requires Inv(b) && Due(b, j, now) && RatesOk(rates) && r in b.bills
    ensures var b' := SettleOne(b, j, now, rates); r in b'.bills && BillOk(b', r)
  {
    assert MeterOk(b, j) && BillOk(b, r);
    var row := RowFor(b, j, now, rates);
    RowIsNew(b, j, now, rates);
    Appended(b.rows, row, r, j, 0);
    SomeSeconds(b.rows, r);
  }

  lemma {:induction false} SettleMeter(b: Books, j: JobId, now: int, rates: map<Provider, real>, k: JobId)
    requires Inv(b) && Due(b, j, now) && RatesOk(rates) && now <= b.clock && k in b.agents
    ensures var b' := SettleOne(b, j, now, rates); k in b'.agents && MeterOk(b', k)
  {
    assert MeterOk(b, j) && MeterOk(b, k);
    var row := RowFor(b, j, now, rates);
    RowIsNew(b, j, now, rates);
    Appended(b.rows, row, row.run, k, b.agents[k].attached);
  }

  lemma {:induction false} SettleKeeps(b: Books, j: JobId, now: int, rates: map<Provider, real>)
    requires Inv(b) && Due(b, j, now) && RatesOk(rates) && now <= b.clock
    ensures Inv(SettleOne(b, j, now, rates)) && SettleOne(b, j, now, rates).rows == b.rows + [RowFor(b, j, now, rates)]
  {
    var b' := SettleOne(b, j, now, rates);
    assert MeterOk(b, j);
    RowIsNew(b, j, now, rates);
    forall r | r in b'.bills ensures BillOk(b', r) { SettleBill(b, j, now, rates, r); }
    forall k | k in b'.agents ensures MeterOk(b', k) { SettleMeter(b, j, now, rates, k); }
  }

  lemma {:induction false} NothingBilledAfter(rows: seq<LedgerRow>, j: JobId, since: int)
    requires forall i :: 0 <= i < |rows| && rows[i].job == j ==> rows[i].from < since
    ensures BilledSince(rows, j, since) == 0
    decreases |rows|
  {
    if rows != [] { NothingBilledAfter(rows[..|rows| - 1], j, since); }
  }

  lemma {:induction false} AttachMeter(b: Books, j: JobId, p: Provider)
    requires Inv(b) && j in b.agents
    ensures MeterOk(Next(b, Attach(j, p)), j)
  {
    assert MeterOk(b, j);
    forall i | 0 <= i < |b.rows| && b.rows[i].job == j ensures b.rows[i].from < b.clock && b.rows[i].until <= b.clock {
      assert RowOk(b.rows[i]);
    }
    NothingBilledAfter(b.rows, j, b.clock);
  }

  lemma {:induction false} NothingYet(b: Books, r: RunId)
    requires Homed(b) && r !in b.bills
    ensures SecondsOf(b.rows, r) == 0 && MicrosOf(b.rows, r) == 0 && StatusOf(b.rows, r) == Unavailable
    decreases |b.rows|
  {
    if b.rows != [] {
      var b0 := b.(rows := b.rows[..|b.rows| - 1]);
      NothingYet(b0, r);
      assert b.rows[|b.rows| - 1].run in b.bills;
    }
  }

  lemma {:induction false} NextKeeps(b: Books, s: Step)
    requires Inv(b) && Enabled(b, s)
    ensures Inv(Next(b, s))
  {
    if s.Settle? {
      SettleKeeps(b, s.job, s.now, s.rates);
    } else {
      var b' := Next(b, s);
      forall r | r in b'.bills ensures BillOk(b', r) {
        if r in b.bills { assert BillOk(b, r); } else { NothingYet(b, r); }
      }
      forall j | j in b'.agents ensures MeterOk(b', j) {
        if j in b.agents { assert MeterOk(b, j); }
        if s.Attach? && s.job == j { AttachMeter(b, j, s.provider); }
      }
    }
  }

  lemma {:induction false} LeadsKeeps(b: Books, steps: seq<Step>, b': Books)
    requires Inv(b) && Leads(b, steps, b')
    ensures Inv(b')
    decreases |steps|
  {
    if steps != [] {
      NextKeeps(b, steps[0]);
      hide Inv;
      LeadsKeeps(Next(b, steps[0]), steps[1..], b');
    }
  }

  /* --------------------------------- main theorems --------------------------------- */

  /**
   * The aggregates are the ledger: in every history a run's seconds and micros are the
   * sums of its rows, its cents the micros rounded down, its cost status exactly what
   * its rows amount to, and the ledger's conflict clause never swallows a row.
   */
  lemma {:induction false} AggregatesAreTheLedger(steps: seq<Step>, b: Books, r: RunId)
    requires Leads(EMPTY_BOOKS, steps, b) && r in b.bills
    ensures b.bills[r].vmSeconds == SecondsOf(b.rows, r) && b.bills[r].micros == MicrosOf(b.rows, r)
    ensures b.bills[r].cents == b.bills[r].micros / 10000 && b.bills[r].cost == StatusOf(b.rows, r)
    ensures forall j, now, rates :: Due(b, j, now) && RatesOk(rates) ==> !Conflicts(b.rows, RowFor(b, j, now, rates))
  {
    LeadsKeeps(EMPTY_BOOKS, steps, b);
    assert BillOk(b, r);
    forall j, now, rates | Due(b, j, now) && RatesOk(rates) ensures !Conflicts(b.rows, RowFor(b, j, now, rates)) {
      assert MeterOk(b, j);
      RowIsNew(b, j, now, rates);
    }
  }

  /**
   * Every row bills whole seconds of a period of its own: two periods of a job never
   * overlap, in the order they were written.
   */
  lemma {:induction false} PeriodsNeverOverlap(steps: seq<Step>, b: Books, i: nat, k: nat)
    requires Leads(EMPTY_BOOKS, steps, b) && i < k < |b.rows| && b.rows[i].job == b.rows[k].job
    ensures b.rows[i].from < b.rows[i].until <= b.rows[k].from < b.rows[k].until
    ensures b.rows[i].until == b.rows[i].from + 1000 * b.rows[i].seconds
  {
    LeadsKeeps(EMPTY_BOOKS, steps, b);
    assert RowOk(b.rows[i]) && RowOk(b.rows[k]) && Apart(b.rows[i], b.rows[k]);
  }

  /**
   * Metering does not depend on the schedule. However many settlements came before and
   * whenever they came, once nothing more is due at an instant the machine has been
   * billed exactly the whole seconds from its attachment to the cap of that instant.
   */
  lemma {:induction false} ScheduleIndependent(steps: seq<Step>, b: Books, j: JobId, now: int)
    requires Leads(EMPTY_BOOKS, steps, b) && j in b.agents && b.agents[j].provider.Some? && b.agents[j].through.Some?
    requires !Due(b, j, now) && b.agents[j].through.value <= Cap(b.agents[j], now)
    ensures BilledSince(b.rows, j, b.agents[j].attached) == (Cap(b.agents[j], now) - b.agents[j].attached) / 1000
    ensures b.agents[j].through.value == b.agents[j].attached + 1000 * BilledSince(b.rows, j, b.agents[j].attached)
  {
    LeadsKeeps(EMPTY_BOOKS, steps, b);
    assert MeterOk(b, j);
  }

  /** The last instant a machine may be billed for: `now`, or its stop if that came before. */
  predicate LastInstant(m: Meter, now: int, last: int) {
    && last <= now && (m.stopped.Some? ==> last <= m.stopped.value)
    && (last == now || (m.stopped.Some? && last == m.stopped.value))
  }

  /**
   * The same said of the stop: with nothing due at `now`, a machine has been billed exactly
   * the whole seconds from its attachment to its stop, or to `now` if it still runs.
   */
  lemma {:induction false} BilledToTheStop(steps: seq<Step>, b: Books, j: JobId, now: int, last: int)
    requires Leads(EMPTY_BOOKS, steps, b) && j in b.agents && b.agents[j].provider.Some? && b.agents[j].through.Some?
    requires !Due(b, j, now) && LastInstant(b.agents[j], now, last) && b.agents[j].through.value <= last
    ensures BilledSince(b.rows, j, b.agents[j].attached) == (last - b.agents[j].attached) / 1000
  {
    ScheduleIndependent(steps, b, j, now);
  }

  /** Billing has not gone past the stop of a stopped machine, unless it was attached after that. */
  predicate StopOk(m: Meter) {
    m.through.Some? && m.stopped.Some? ==> m.through.value <= Max(m.attached, m.stopped.value)
  }

  lemma {:induction false} StopStays(b: Books, s: Step, j: JobId)
    requires Inv(b) && Enabled(b, s) && j in Next(b, s).agents && (j in b.agents ==> StopOk(b.agents[j]))
    ensures StopOk(Next(b, s).agents[j])
  {
    if j in b.agents { assert MeterOk(b, j); }
  }

  lemma {:induction false} StopsKept(b: Books, steps: seq<Step>, b': Books, j: JobId)
    requires Inv(b) && Leads(b, steps, b') && (j in b.agents ==> StopOk(b.agents[j]))
    ensures j in b'.agents ==> StopOk(b'.agents[j])
    decreases |steps|
  {
    if steps != [] {
      NextKeeps(b, steps[0]);
      if j in Next(b, steps[0]).agents { StopStays(b, steps[0], j); }
      hide Inv, Next, Enabled, StopOk;
      StopsKept(Next(b, steps[0]), steps[1..], b', j);
    }
  }

  /** Nothing is ever billed past the stop: in no history, at no instant, whatever is still due. */
  lemma {:induction false} NothingPastTheStop(steps: seq<Step>, b: Books, j: JobId)
    requires Leads(EMPTY_BOOKS, steps, b) && j in b.agents && b.agents[j].stopped.Some? && b.agents[j].through.Some?
    ensures 1000 * BilledSince(b.rows, j, b.agents[j].attached)
      <= Max(0, b.agents[j].stopped.value - b.agents[j].attached)
  {
    LeadsKeeps(EMPTY_BOOKS, steps, b);
    StopsKept(EMPTY_BOOKS, steps, b, j);
    assert MeterOk(b, j);
  }

  /** Billing of a machine begins when it is attached, under the provider it was attached with. */
  lemma {:induction false} AttachBegins(b: Books, j: JobId, p: Provider)
    requires Inv(b) && j in b.agents
    ensures var b' := Next(b, Attach(j, p)); var m := b'.agents[j];
      && m.provider == Some(p) && m.attached == b.clock && m.through == Some(b.clock)
      && m.run == b.agents[j].run && m.stopped == b.agents[j].stopped
      && b'.rows == b.rows && b'.bills == b.bills && b'.agents == b.agents[j := m]
      && BilledSince(b'.rows, j, m.attached) == 0
  {
    AttachMeter(b, j, p);
  }

  /** Neither a new machine nor a claim revives `j` in these steps. */
  predicate LeftAlone(steps: seq<Step>, j: JobId) {
    forall i :: 0 <= i < |steps| ==> !((steps[i].Attach? || steps[i].Revive? || steps[i].Stop?) && steps[i].job == j)
  }

  lemma {:induction false} StopHolds(b: Books, steps: seq<Step>, b': Books, j: JobId)
    requires Leads(b, steps, b') && LeftAlone(steps, j) && j in b.agents
    ensures j in b'.agents && b'.agents[j].stopped == b.agents[j].stopped
      && b'.agents[j].attached == b.agents[j].attached
      && (b.agents[j].through.Some? ==> b'.agents[j].through.Some?)
    decreases |steps|
  {
    if steps != [] { StopHolds(Next(b, steps[0]), steps[1..], b', j); }
  }

  /**
   * A stop ends the bill. Whatever happens after a machine was stopped, as long as the row
   * is neither attached again nor revived, it is billed for no more than the seconds
   * between its attachment and that instant.
   */
  lemma {:induction false} StopEndsTheBill(before: seq<Step>, b: Books, j: JobId, after: seq<Step>, b': Books)
    requires Leads(EMPTY_BOOKS, before, b) && j in b.agents && b.agents[j].through.Some?
    requires Leads(Next(b, Stop(j)), after, b') && LeftAlone(after, j)
    ensures j in b'.agents && 1000 * BilledSince(b'.rows, j, b.agents[j].attached) <= b.clock - b.agents[j].attached
  {
    LeadsKeeps(EMPTY_BOOKS, before, b);
    StopsKept(EMPTY_BOOKS, before, b, j);
    var b1 := Next(b, Stop(j));
    NextKeeps(b, Stop(j));
    StopStays(b, Stop(j), j);
    LeadsKeeps(b1, after, b');
    StopsKept(b1, after, b', j);
    StopHolds(b1, after, b', j);
    assert MeterOk(b, j) && MeterOk(b', j);
    hide Inv, Leads;
  }

  /**
   * What one settlement writes: one ledger row, from where billing stood over all whole
   * seconds up to the last instant, priced within half a millionth of a dollar if the
   * provider has a rate and unpriced if not; and it moves only that machine's and that
   * run's figures.
   */
  lemma {:induction false} SettleWrites(b: Books, j: JobId, now: int, rates: map<Provider, real>, last: int)
    requires Inv(b) && Due(b, j, now) && RatesOk(rates) && now <= b.clock && LastInstant(b.agents[j], now, last)
    ensures var b' := SettleOne(b, j, now, rates); var m := b.agents[j]; var seconds := (last - m.through.value) / 1000;
      && |b'.rows| == |b.rows| + 1 && b'.rows[..|b.rows|] == b.rows
      && var row := b'.rows[|b.rows|];
      && row.job == j && row.run == m.run && row.seconds == seconds >= 1
      && row.from == m.through.value && row.until == m.through.value + 1000 * seconds && row.until <= last
      && (row.known <==> m.provider.value in rates) && (!row.known ==> row.micros == 0)
      && (row.known ==> Near(row.micros, Exact(rates[m.provider.value], seconds), 1))
      && b'.agents == b.agents[j := m.(through := Some(row.until))] && b'.clock == b.clock
      && m.run in b'.bills && b'.bills == b.bills[m.run := b'.bills[m.run]]
  {
    SettleKeeps(b, j, now, rates);
    var m := b.agents[j];
    if m.provider.value in rates { RoundingError(rates[m.provider.value], (last - m.through.value) / 1000); }
    hide Inv, Conflicts;
  }

  /** One pass over a due machine bills it up to the cap, so that nothing more is due at that instant. */
  lemma {:induction false} OnePassIsEnough(b: Books, j: JobId, now: int, rates: map<Provider, real>)
    requires Due(b, j, now) && RatesOk(rates)
    ensures var b' := SettleOne(b, j, now, rates);
      !Due(b', j, now) && b'.agents[j].through.value <= Cap(b'.agents[j], now)
        && forall k :: k != j ==> Due(b', k, now) == Due(b, k, now)
  {}

  lemma RoundingError(rate: real, seconds: nat)
    requires rate >= 0.0
    ensures -0.5 <= Price(Some(rate), seconds) as real - Exact(rate, seconds) <= 0.5
  {}

  lemma ExactAdds(rate: real, a: int, b: int)
    ensures Exact(rate, a + b) == Exact(rate, a) + Exact(rate, b)
  {}

  /** Every row of the run was priced at `rate`. */
  predicate AtRate(rows: seq<LedgerRow>, r: RunId, rate: real)
    requires rate >= 0.0
  {
    forall i :: 0 <= i < |rows| && rows[i].run == r ==>
      rows[i].known && rows[i].micros == Price(Some(rate), rows[i].seconds)
  }

  /** The amount is at most half a millionth of a dollar off for each of `n` rows. */
  predicate Near(micros: int, exact: real, n: nat) { -0.5 * n as real <= micros as real - exact <= 0.5 * n as real }

  /**
   * However a run's time is cut into ledger rows, their sum is off by at most half a
   * millionth of a dollar for each.
   */
  lemma {:induction false} LedgerRounding(rows: seq<LedgerRow>, r: RunId, rate: real)
    requires rate >= 0.0 && AtRate(rows, r, rate)
    ensures Near(MicrosOf(rows, r), Exact(rate, SecondsOf(rows, r)), CountOf(rows, r, true))
    decreases |rows|
  {
    if rows != [] {
      var n := |rows| - 1;
      LedgerRounding(rows[..n], r, rate);
      if rows[n].run == r {
        RoundingError(rate, rows[n].seconds);
        ExactAdds(rate, SecondsOf(rows[..n], r), rows[n].seconds);
      }
    }
  }

  /** Whenever a machine of run `r` was settled in this history, its provider's rate was `rate`. */
  ghost predicate SettledAt(b: Books, steps: seq<Step>, r: RunId, rate: real)
    decreases |steps|
  {
    steps == [] ||
    (&& Enabled(b, steps[0])
     && (steps[0].Settle? && b.agents[steps[0].job].run == r ==>
           var p := b.agents[steps[0].job].provider.value; p in steps[0].rates && steps[0].rates[p] == rate)
     && SettledAt(Next(b, steps[0]), steps[1..], r, rate))
  }

  lemma {:induction false} RateStays(b: Books, steps: seq<Step>, b': Books, r: RunId, rate: real)
    requires rate >= 0.0 && Leads(b, steps, b') && SettledAt(b, steps, r, rate) && AtRate(b.rows, r, rate)
    ensures AtRate(b'.rows, r, rate)
    decreases |steps|
  {
    if steps != [] { RateStays(Next(b, steps[0]), steps[1..], b', r, rate); }
  }

  /**
   * In every history in which a run's machines were settled at one rate, however often,
   * its bill differs from the exact price of its seconds by at most half a millionth of
   * a dollar for each row of its ledger.
   */
  lemma {:induction false} RoundingBounded(steps: seq<Step>, b: Books, r: RunId, rate: real)
    requires rate >= 0.0 && Leads(EMPTY_BOOKS, steps, b) && SettledAt(EMPTY_BOOKS, steps, r, rate) && r in b.bills
    ensures Near(b.bills[r].micros, Exact(rate, b.bills[r].vmSeconds), CountOf(b.rows, r, true))
  {
    RateStays(EMPTY_BOOKS, steps, b, r, rate);
    AggregatesAreTheLedger(steps, b, r);
    hide *;
    LedgerRounding(b.rows, r, rate);
  }
}
