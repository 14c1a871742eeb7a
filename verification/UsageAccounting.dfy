/** The accountant: picks due machines one by one and settles them, proved against `Metering`. */
module UsageAccounting {
  import opened Common
  import opened Events
  import opened Metering
  import M = Metering

  function SecondsIn(rows: seq<LedgerRow>): nat {
    if rows == [] then 0 else SecondsIn(rows[..|rows| - 1]) + rows[|rows| - 1].seconds
  }

  function MicrosIn(rows: seq<LedgerRow>): nat {
    if rows == [] then 0 else MicrosIn(rows[..|rows| - 1]) + rows[|rows| - 1].micros
  }

  /** What one pass settled. */
  datatype Outcome = Outcome(agents: nat, vmSeconds: nat, usdMicros: nat)

  class Accountant {
    var agents: map<JobId, Meter>
    var rows: seq<LedgerRow>
    var bills: map<RunId, Bill>
    ghost var clock: int

    ghost function State(): Books
      reads this
    {
      Books(agents, rows, bills, clock)
    }

    constructor ()
      ensures State() == EMPTY_BOOKS
    {
      agents, rows, bills, clock := map[], [], map[], 0;
    }

    /** The row to settle next: due, not locked by another plane, and billed through the earliest instant. */
    method Select(now: int, locked: set<JobId>) returns (j: Option<JobId>)
      ensures j.None? ==> forall k :: k !in locked ==> !Due(State(), k, now)
      ensures j.Some? ==> j.value !in locked && Due(State(), j.value, now)
      ensures j.Some? ==> forall k :: k !in locked && Due(State(), k, now) ==>
        agents[j.value].through.value <= agents[k].through.value
    {
      j := None;
      var todo := agents.Keys;
      while todo != {}
        invariant todo <= agents.Keys
        invariant j.Some? ==> j.value !in locked && Due(State(), j.value, now)
        invariant forall k :: k in agents && k !in todo && k !in locked && Due(State(), k, now) ==>
          j.Some? && agents[j.value].through.value <= agents[k].through.value
        decreases todo
      {
        var k :| k in todo;
        todo := todo - {k};
        var m := agents[k];
        if k !in locked && m.provider.Some? && m.through.Some? && m.run in bills
          && m.through.value + 1000 <= Cap(m, now) {
          if j.None? || m.through.value < agents[j.value].through.value { j := Some(k); }
        }
      }
    }

    /** `#settleOne`, once its row is selected. */
    method Bill(j: JobId, now: int, rates: map<Provider, real>) returns (row: LedgerRow)
      requires Due(State(), j, now) && RatesOk(rates)
      modifies this
      ensures row == RowFor(old(State()), j, now, rates) && State() == M.SettleOne(old(State()), j, now, rates)
    {
      var m := agents[j];
      var start := m.through.value;
      var seconds := (Cap(m, now) - start) / 1000;
      var end := start + seconds * 1000;
      var rate := if m.provider.value in rates then Some(rates[m.provider.value]) else None;
      row := LedgerRow(j, m.run, seconds, Price(rate, seconds), rate.Some?, start, end);
      if !Conflicts(rows, row) { rows := rows + [row]; }
      agents := agents[j := m.(through := Some(end))];
      var bill := bills[m.run];
      bills := bills[m.run := Metering.Bill(
        bill.vmSeconds + row.seconds, bill.micros + row.micros,
          (bill.micros + row.micros) / 10000, Costed(bill, row.known))];
    }

    /** One transaction of a pass: the next due machine is settled, if there is one. */
    method SettleNext(now: int, rates: map<Provider, real>, locked: set<JobId>) returns (row: Option<LedgerRow>)
      requires Inv(State()) && RatesOk(rates) && now <= clock
      modifies this
      ensures Inv(State()) && clock == old(clock)
      ensures row.Some? ==> rows == old(rows) + [row.value]
      ensures row.None? ==> State() == old(State()) && forall j :: j !in locked ==> !Due(State(), j, now)
    {
      row := None;
      var j := Select(now, locked);
      if j.Some? {
        SettleKeeps(State(), j.value, now, rates);
        var written := Bill(j.value, now, rates);
        row := Some(written);
      }
    }

    /**
     * `settle`: machines are settled until none is due or `limit` is reached. What it
     * reports is what it wrote, and if it stopped early nothing unlocked is left due.
     */
    method Settle(now: int, rates: map<Provider, real>, limit: nat, locked: set<JobId>) returns (total: Outcome)
      requires Inv(State()) && RatesOk(rates) && now <= clock
      modifies this
      ensures Inv(State()) && total.agents <= limit
      ensures Wrote(old(rows), rows, total)
      ensures total.agents < limit ==> forall j :: j !in locked ==> !Due(State(), j, now)
    {
      total := Outcome(0, 0, 0);
      while total.agents < limit
        invariant Inv(State()) && clock == old(clock) && total.agents <= limit
        invariant Wrote(old(rows), rows, total)
        decreases limit - total.agents
      {
        ghost var before := rows;
        var row := SettleNext(now, rates, locked);
        if row.None? { return; }
        OneMoreRow(old(rows), before, total, row.value);
        total := Outcome(total.agents + 1, total.vmSeconds + row.value.seconds, total.usdMicros + row.value.micros);
      }
    }
  }

  /** `total` reports exactly the rows that `now` has beyond `before`. */
  predicate Wrote(before: seq<LedgerRow>, now: seq<LedgerRow>, total: Outcome) {
    && before <= now && |now| == |before| + total.agents
    && total.vmSeconds == SecondsIn(now) - SecondsIn(before) && total.usdMicros == MicrosIn(now) - MicrosIn(before)
  }

  lemma {:induction false} OneMoreRow(before: seq<LedgerRow>, now: seq<LedgerRow>, total: Outcome, row: LedgerRow)
    requires Wrote(before, now, total)
    ensures Wrote(before, now + [row],
      Outcome(total.agents + 1, total.vmSeconds + row.seconds, total.usdMicros + row.micros))
  {
    assert (now + [row])[..|now|] == now;
  }
}
