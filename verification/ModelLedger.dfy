/** The admission ledger as the plane keeps it: tables mutated under the admission lock. */
module ModelLedger {
  import opened Common
  import opened Events
  import opened Totals
  import opened Admission
  import A = Admission

  /** How many expired reservations one sweep settles. */
  const SWEEP: nat := 100

  function SettleEach(l: Ledger, ids: seq<CallId>): (r: Ledger)
    requires Stored(l)
    ensures Stored(r)
    decreases |ids|
  {
    if ids == [] then l else SettleEach(Settle(l, ids[0], None, None), ids[1..])
  }

  predicate Overdue(l: Ledger, id: CallId) { id in l.reservations && l.reservations[id].expires < l.now }

  class Ledgers {
    var runs: map<RunId, Allowance>
    var reservations: map<CallId, Reservation>
    var receipts: map<CallId, UsageReceipt>
    var now: int
    ghost var booked: map<CallId, Reservation>
    ghost var measured: map<CallId, seq<nat>>

    ghost function State(): Ledger
      reads this
    {
      Ledger(runs, reservations, receipts, now, booked, measured)
    }

    constructor ()
      ensures State() == EMPTY_LEDGER
    {
      runs, reservations, receipts, now, booked, measured := map[], map[], map[], 0, map[], map[];
    }

    /** The sum of a run's reservations. */
    method HeldBy(r: RunId) returns (held: int)
      ensures held == Held(State(), r)
    {
      held := 0;
      ghost var l := State();
      ghost var f := (id: nat) => Reserved(l, r, id);
      var todo := reservations.Keys;
      while todo != {}
        invariant todo <= reservations.Keys && held + Total(todo, f) == Total(reservations.Keys, f)
        decreases todo
      {
        var id :| id in todo;
        TotalTake(todo, f, id);
        if reservations[id].run == r { held := held + reservations[id].tokens; }
        todo := todo - {id};
      }
      TotalSame(reservations.Keys, f, (id: nat) => Reserved(l, r, id));
    }

    /** The checks of `reserveModelCall`, made while the lock is held. */
    method Check(limits: Limits, r: RunId, u: UserId, tokens: nat) returns (v: Verdict)
      ensures v == Admit(State(), limits, r, u, tokens)
    {
      if r !in runs || runs[r].over { return Inactive; }
      var ofRun := set x | x in reservations && reservations[x].run == r && reservations[x].expires > now;
      var ofUser := set x | x in reservations && reservations[x].user == u && reservations[x].expires > now;
      assert ofRun == ActiveOfRun(State(), r) && ofUser == ActiveOfUser(State(), u);
      if |ofRun| >= limits.perRun || |ofUser| >= limits.perUser { return Busy; }
      var held := HeldBy(r);
      var run := runs[r];
      if run.requests >= run.maxRequests || run.llmTokens + held + tokens > run.maxTokens { return NoBudget; }
      return Admitted;
    }

    /** `reserveModelCall` */
    method Reserve(limits: Limits, id: CallId, r: RunId, u: UserId, tokens: nat, expires: int) returns (v: Verdict)
      modifies this
      ensures v == Admit(old(State()), limits, r, u, tokens)
      ensures State() == A.Reserve(old(State()), limits, id, r, u, tokens, expires)
    {
      v := Check(limits, r, u, tokens);
      if v.Admitted? {
        reservations := reservations[id := Reservation(r, u, tokens, expires)];
        runs := runs[r := runs[r].(requests := runs[r].requests + 1)];
        booked, measured := booked[id := Reservation(r, u, tokens, expires)], measured[id := []];
      }
    }

    /** `settleModelCall`; a usage below zero is refused before anything is read. */
    method SettleCall(id: CallId, actual: Option<int>, evidence: Option<string>) returns (ok: bool)
      requires Stored(State())
      modifies this
      ensures ok == (actual.None? || actual.value >= 0)
      ensures !ok ==> State() == old(State())
      ensures ok ==>
        State() == A.Settle(old(State()), id, if actual.Some? then Some(actual.value as nat) else None, evidence)
    {
      ok := actual.None? || actual.value >= 0;
      if !ok { return; }
      var usage: Option<nat> := if actual.Some? then Some(actual.value) else None;
      measured := Submitted(State(), id, usage).measured;
      var prior := if id in receipts then Some(receipts[id]) else None;
      var held := if id in reservations then Some(reservations[id]) else None;
      if (prior.Some? && prior.value.actual) || (prior.None? && held.None?) { return; }
      var r := if prior.Some? then prior.value.run else held.value.run;
      var tokens := if usage.Some? then usage.value else if prior.Some? then prior.value.tokens else held.value.tokens;
      var paid := if prior.Some? then prior.value.tokens else 0;
      runs := runs[r := runs[r].(llmTokens := runs[r].llmTokens + (tokens - paid))];
      receipts := receipts[id := UsageReceipt(r, tokens, usage.Some?, evidence)];
      reservations := reservations - {id};
    }

    /** `settleExpiredModelCalls`: each overdue call is settled by what it reserved, at most a sweep of them. */
    method SettleExpired() returns (ids: seq<CallId>)
      requires Stored(State())
      modifies this
      ensures State() == SettleEach(old(State()), ids) && |ids| <= SWEEP
      ensures (forall id :: id in ids ==> Overdue(old(State()), id)) && forall i, j :: 0 <= i < j < |ids| ==>
        ids[i] != ids[j]
      ensures |ids| < SWEEP ==> forall id :: Overdue(old(State()), id) ==> id in ids
    {
      ids := [];
      var rest := set id | id in reservations && reservations[id].expires < now;
      while rest != {} && |ids| < SWEEP
        invariant |ids| <= SWEEP && State() == old(State())
        invariant forall id :: Overdue(State(), id) <==> id in rest || id in ids
        invariant (forall id :: id in ids ==> id !in rest) && forall i, j :: 0 <= i < j < |ids| ==> ids[i] != ids[j]
        decreases rest
      {
        var id :| id in rest;
        ids, rest := ids + [id], rest - {id};
      }
      for i := 0 to |ids|
        invariant Stored(State()) && SettleEach(State(), ids[i..]) == SettleEach(old(State()), ids)
      {
        assert ids[i..][0] == ids[i] && ids[i..][1..] == ids[i + 1..];
        SettledStored(State(), ids[i]);
        var _ := SettleCall(ids[i], None, None);
      }
      assert ids[|ids|..] == [];
    }

    /** `reconcileModelUsage` */
    method ReconcileUsage(id: CallId, usage: int, evidence: string) returns (ok: bool)
      requires Stored(State())
      modifies this
      ensures State() == A.Reconcile(old(State()), id, usage, evidence)
      ensures ok == (!Blank(evidence) && id in old(receipts) && usage >= 0)
    {
      ok := !Blank(evidence) && id in receipts;
      if ok { ok := SettleCall(id, Some(usage), Some(evidence)); }
    }
  }

  lemma SettledStored(l: Ledger, id: CallId)
    requires Stored(l)
    ensures Stored(Settle(l, id, None, None))
  {}
}
