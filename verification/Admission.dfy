/**
 * The model-token ledger of a run: what a call reserves before it is made, what it
 * is charged afterwards, and how an estimate becomes a measured charge. Every
 * transaction takes the one admission lock, so transactions are atomic.
 */
module Admission {
  import opened Common
  import opened Events
  import opened Totals

  type UserId = nat
  type CallId = nat

  /** The admission columns of a run row. */
  datatype Allowance = Allowance(over: bool, llmTokens: int, maxTokens: nat, requests: nat, maxRequests: nat)

  datatype Reservation = Reservation(run: RunId, user: UserId, tokens: nat, expires: int)

  datatype UsageReceipt = UsageReceipt(run: RunId, tokens: nat, actual: bool, evidence: Option<string>)

  /**
   * `now` is the database clock. `booked` and `measured` are history: every reservation
   * ever made, and every measured usage ever submitted for a call.
   */
  datatype Ledger = Ledger(
    runs: map<RunId, Allowance>, reservations: map<CallId, Reservation>, receipts: map<CallId, UsageReceipt>,
    now: int, booked: map<CallId, Reservation>, measured: map<CallId, seq<nat>>)

  datatype Limits = Limits(perRun: nat, perUser: nat)

  datatype Verdict = Admitted | Inactive | Busy | NoBudget

  const EMPTY_LEDGER := Ledger(map[], map[], map[], 0, map[], map[])

  /* -------------------------------- reserving -------------------------------- */

  function ActiveOfRun(l: Ledger, r: RunId): set<CallId> {
    set id | id in l.reservations && l.reservations[id].run == r && l.reservations[id].expires > l.now
  }

  function ActiveOfUser(l: Ledger, u: UserId): set<CallId> {
    set id | id in l.reservations && l.reservations[id].user == u && l.reservations[id].expires > l.now
  }

  function Reserved(l: Ledger, r: RunId, id: CallId): nat {
    if id in l.reservations && l.reservations[id].run == r then l.reservations[id].tokens else 0
  }

  /** Tokens of run `r` that are reserved, whether or not the reservation has expired. */
  ghost function Held(l: Ledger, r: RunId): int { Total(l.reservations.Keys, (id: nat) => Reserved(l, r, id)) }

  /** The checks of `reserveModelCall`, in its order. */
  ghost function Admit(l: Ledger, limits: Limits, r: RunId, u: UserId, tokens: nat): Verdict {
    if r !in l.runs || l.runs[r].over then Inactive
    else if |ActiveOfRun(l, r)| >= limits.perRun || |ActiveOfUser(l, u)| >= limits.perUser then Busy
    else if l.runs[r].requests >= l.runs[r].maxRequests
      || l.runs[r].llmTokens + Held(l, r) + tokens > l.runs[r].maxTokens
    then NoBudget
    else Admitted
  }

  function Book(l: Ledger, id: CallId, reservation: Reservation): Ledger
    requires reservation.run in l.runs
  {
    var r := reservation.run;
    l.(reservations := l.reservations[id := reservation],
       runs := l.runs[r := l.runs[r].(requests := l.runs[r].requests + 1)],
       booked := l.booked[id := reservation],
       measured := l.measured[id := []])
  }

  ghost function Reserve(
      l: Ledger, limits: Limits, id: CallId, r: RunId, u: UserId, tokens: nat, expires: int): Ledger {
    if Admit(l, limits, r, u, tokens).Admitted? then Book(l, id, Reservation(r, u, tokens, expires)) else l
  }

  /* --------------------------------- settling --------------------------------- */

  function Pay(l: Ledger, id: CallId, r: RunId, paid: nat, receipt: UsageReceipt): Ledger
    requires r in l.runs
  {
    l.(runs := l.runs[r := l.runs[r].(llmTokens := l.runs[r].llmTokens + receipt.tokens - paid)],
       receipts := l.receipts[id := receipt],
       reservations := l.reservations - {id})
  }

  function Submitted(l: Ledger, id: CallId, actual: Option<nat>): Ledger {
    if actual.Some? && id in l.measured then l.(measured := l.measured[id := l.measured[id] + [actual.value]]) else l
  }

  /** Every reservation and receipt belongs to a run that exists. */
  predicate Stored(l: Ledger) {
    && (forall id :: id in l.reservations ==> l.reservations[id].run in l.runs)
    && (forall id :: id in l.receipts ==> l.receipts[id].run in l.runs)
  }

  /** `settleModelCall` with a usage that is a natural number, or with none. */
  function Settle(l: Ledger, id: CallId, actual: Option<nat>, evidence: Option<string>): Ledger
    requires Stored(l)
  {
    var l' := Submitted(l, id, actual);
    if id in l.receipts then
      var prior := l.receipts[id];
      if prior.actual then l'
      else
        Pay(l', id, prior.run, prior.tokens,
            UsageReceipt(prior.run, if actual.Some? then actual.value else prior.tokens, actual.Some?, evidence))
    else if id in l.reservations then
      var held := l.reservations[id];
      Pay(l', id, held.run, 0,
          UsageReceipt(held.run, if actual.Some? then actual.value else held.tokens, actual.Some?, evidence))
    else l'
  }

  function Expire(l: Ledger, id: CallId): Ledger
    requires Stored(l)
  {
    if id in l.reservations && l.reservations[id].expires < l.now then Settle(l, id, None, None) else l
  }

  predicate Blank(s: string) { forall c :: c in s ==> c in " \t\r\n" }

  /** `reconcileModelUsage`: an operator's evidence for a call that has been settled. */
  function Reconcile(l: Ledger, id: CallId, usage: int, evidence: string): Ledger
    requires Stored(l)
  {
    if Blank(evidence) || id !in l.receipts || usage < 0 then l else Settle(l, id, Some(usage), Some(evidence))
  }

  /* ----------------------------------- steps ----------------------------------- */

  datatype Step =
    | OpenRun(run: RunId, maxTokens: nat, maxRequests: nat)
    | EndRun(run: RunId)
    | Tick(now: int)
    | DoReserve(id: CallId, run: RunId, user: UserId, tokens: nat, expires: int)
    | DoSettle(id: CallId, actual: Option<nat>, evidence: Option<string>)
    | DoExpire(id: CallId)
    | DoReconcile(id: CallId, usage: int, proof: string)

  /** The clock does not go back, and identifiers are fresh. */
  predicate Enabled(l: Ledger, s: Step) {
    match s
    case OpenRun(r, _, _) => r !in l.runs
    case Tick(now) => now >= l.now
    case DoReserve(id, _, _, _, _) => id !in l.booked
    case _ => true
  }

  ghost function Next(l: Ledger, limits: Limits, s: Step): Ledger
    requires Stored(l)
  {
    match s
    case OpenRun(r, maxTokens, maxRequests) => l.(runs := l.runs[r := Allowance(false, 0, maxTokens, 0, maxRequests)])
    case EndRun(r) => if r in l.runs then l.(runs := l.runs[r := l.runs[r].(over := true)]) else l
    case Tick(now) => l.(now := now)
    case DoReserve(id, r, u, tokens, expires) => Reserve(l, limits, id, r, u, tokens, expires)
    case DoSettle(id, actual, evidence) => Settle(l, id, actual, evidence)
    case DoExpire(id) => Expire(l, id)
    case DoReconcile(id, usage, evidence) => Reconcile(l, id, usage, evidence)
  }

  /* --------------------------------- invariants --------------------------------- */

  /** What call `id` has been charged to run `r`. */
  function Charge(l: Ledger, r: RunId, id: CallId): nat {
    if id in l.receipts && l.receipts[id].run == r then l.receipts[id].tokens else 0
  }

  /** What call `id` may cost run `r`: what it reserved, and nothing beyond. */
  function Cover(l: Ledger, r: RunId, id: CallId): nat {
    if id in l.booked && l.booked[id].run == r then l.booked[id].tokens else 0
  }

  ghost function Charged(l: Ledger, r: RunId): int { Total(l.booked.Keys, (id: nat) => Charge(l, r, id)) }

  /** The part of the charges that reservations had provided for. */
  ghost function Foreseen(l: Ledger, r: RunId): int {
    Total(l.booked.Keys, (id: nat) => Min(Charge(l, r, id), Cover(l, r, id)))
  }

  /** The part by which calls cost more than they reserved. */
  ghost function Excess(l: Ledger, r: RunId): int {
    Total(l.booked.Keys, (id: nat) => Max(0, Charge(l, r, id) - Cover(l, r, id)))
  }

  ghost function Reserving(l: Ledger, r: RunId): int { Total(l.booked.Keys, (id: nat) => Reserved(l, r, id)) }

  function CallOf(l: Ledger, r: RunId, id: CallId): nat { if id in l.booked && l.booked[id].run == r then 1 else 0 }

  ghost function Calls(l: Ledger, r: RunId): int { Total(l.booked.Keys, (id: nat) => CallOf(l, r, id)) }

  /** The record of one call: reserved, or settled by an estimate of what it reserved, or by the first measurement. */
  predicate CallOk(l: Ledger, id: CallId) {
    && (id in l.reservations ==> id in l.booked && l.reservations[id] == l.booked[id] && id !in l.receipts)
    && (id in l.receipts ==> id in l.booked && l.receipts[id].run == l.booked[id].run)
    && (id in l.booked <==> id in l.measured)
    && (id in l.booked ==> id in l.reservations || id in l.receipts)
    && (id in l.booked ==> l.booked[id].run in l.runs)
    && (id in l.booked && l.measured[id] == [] && id in l.receipts ==>
          !l.receipts[id].actual && l.receipts[id].tokens == l.booked[id].tokens)
    && (id in l.booked && l.measured[id] != [] ==>
          id in l.receipts && l.receipts[id].actual && l.receipts[id].tokens == l.measured[id][0])
  }

  ghost predicate CallsOk(l: Ledger) { forall id :: CallOk(l, id) }

  ghost predicate RunOk(l: Ledger, r: RunId)
    requires r in l.runs
  {
    && l.runs[r].llmTokens == Charged(l, r)
    && Foreseen(l, r) + Reserving(l, r) <= l.runs[r].maxTokens
    && l.runs[r].requests == Calls(l, r) <= l.runs[r].maxRequests
  }

  ghost predicate ActiveOk(l: Ledger, limits: Limits) {
    && (forall r :: |ActiveOfRun(l, r)| <= limits.perRun)
    && (forall u :: |ActiveOfUser(l, u)| <= limits.perUser)
  }

  ghost predicate Inv(l: Ledger, limits: Limits) {
    CallsOk(l) && (forall r :: r in l.runs ==> RunOk(l, r)) && ActiveOk(l, limits)
  }

  lemma InvStored(l: Ledger)
    requires CallsOk(l)
    ensures Stored(l)
  {
    forall id | id in l.reservations ensures l.reservations[id].run in l.runs { assert CallOk(l, id); }
    forall id | id in l.receipts ensures l.receipts[id].run in l.runs { assert CallOk(l, id); }
  }

  /* ------------------------------ one call at a time ------------------------------ */

  /** The sums of a run follow its calls: if one call's record changes, they change by that call. */
  lemma {:induction false} SumsFollow(l: Ledger, l': Ledger, r: RunId, id: CallId)
    requires id in l.booked && l'.booked == l.booked
    requires forall x :: x != id ==> Charge(l', r, x) == Charge(l, r, x) && Reserved(l', r, x) == Reserved(l, r, x)
    ensures Charged(l', r) == Charged(l, r) - Charge(l, r, id) + Charge(l', r, id)
    ensures Foreseen(l', r)
      == Foreseen(l, r) - Min(Charge(l, r, id), Cover(l, r, id)) + Min(Charge(l', r, id), Cover(l, r, id))
    ensures Reserving(l', r) == Reserving(l, r) - Reserved(l, r, id) + Reserved(l', r, id)
    ensures Calls(l', r) == Calls(l, r)
  {
    var s := l.booked.Keys;
    TotalChange(s, (x: nat) => Charge(l, r, x), (x: nat) => Charge(l', r, x), id);
    TotalChange(s, (x: nat) => Min(Charge(l, r, x), Cover(l, r, x)),
      (x: nat) => Min(Charge(l', r, x), Cover(l', r, x)), id);
    TotalChange(s, (x: nat) => Reserved(l, r, x), (x: nat) => Reserved(l', r, x), id);
    TotalSame(s, (x: nat) => CallOf(l, r, x), (x: nat) => CallOf(l', r, x));
  }

  /** Nothing about the calls of a run changes: neither do its sums. */
  lemma {:induction false} SumsStay(l: Ledger, l': Ledger, r: RunId)
    requires l'.booked == l.booked && l'.receipts == l.receipts && l'.reservations == l.reservations
    ensures Charged(l', r) == Charged(l, r) && Foreseen(l', r) == Foreseen(l, r)
    ensures Reserving(l', r) == Reserving(l, r) && Calls(l', r) == Calls(l, r)
  {
    var s := l.booked.Keys;
    TotalSame(s, (x: nat) => Charge(l, r, x), (x: nat) => Charge(l', r, x));
    TotalSame(s, (x: nat) => Min(Charge(l, r, x), Cover(l, r, x)), (x: nat) => Min(Charge(l', r, x), Cover(l', r, x)));
    TotalSame(s, (x: nat) => Reserved(l, r, x), (x: nat) => Reserved(l', r, x));
    TotalSame(s, (x: nat) => CallOf(l, r, x), (x: nat) => CallOf(l', r, x));
  }

  lemma {:induction false} BookedCalls(l: Ledger, id: CallId, x: Reservation, r: RunId, y: CallId)
    requires id !in l.booked && x.run in l.runs && CallsOk(l)
    ensures var l' := Book(l, id, x);
      && Charge(l', r, y) == Charge(l, r, y)
        && (y != id ==> Cover(l', r, y) == Cover(l, r, y) && Reserved(l', r, y) == Reserved(l, r, y))
      && Charge(l', r, id) == 0 && Reserved(l', r, id) == if r == x.run then x.tokens else 0
  {
    assert CallOk(l, id);
  }

  /** A new reservation joins the sums. */
  lemma {:induction false} SumsGrow(l: Ledger, id: CallId, x: Reservation, r: RunId)
    requires id !in l.booked && x.run in l.runs && CallsOk(l)
    ensures var l' := Book(l, id, x);
      && Charged(l', r) == Charged(l, r) && Foreseen(l', r) == Foreseen(l, r)
      && Reserving(l', r) == Reserving(l, r) + (if r == x.run then x.tokens else 0)
      && Calls(l', r) == Calls(l, r) + (if r == x.run then 1 else 0)
  {
    var l', s := Book(l, id, x), l.booked.Keys;
    assert l'.booked == l.booked[id := x] && l'.booked.Keys == s + {id};
    BookedCalls(l, id, x, r, id);
    forall y | y in s
      ensures Charge(l', r, y) == Charge(l, r, y) && Cover(l', r, y) == Cover(l, r, y)
        && Reserved(l', r, y) == Reserved(l, r, y)
    { BookedCalls(l, id, x, r, y); }
    hide CallsOk, Book, Charge, Cover, Reserved;
    TotalGrow(s, (y: nat) => Charge(l, r, y), (y: nat) => Charge(l', r, y), id);
    TotalGrow(s, (y: nat) => Min(Charge(l, r, y), Cover(l, r, y)),
      (y: nat) => Min(Charge(l', r, y), Cover(l', r, y)), id);
    TotalGrow(s, (y: nat) => Reserved(l, r, y), (y: nat) => Reserved(l', r, y), id);
    TotalGrow(s, (y: nat) => CallOf(l, r, y), (y: nat) => CallOf(l', r, y), id);
  }

  /** What the reservation query sums is what the invariant speaks of. */
  lemma {:induction false} HeldIsReserving(l: Ledger, r: RunId)
    requires CallsOk(l)
    ensures Held(l, r) == Reserving(l, r)
  {
    forall id | id in l.reservations ensures id in l.booked { assert CallOk(l, id); }
    TotalOnly(l.reservations.Keys, l.booked.Keys, (id: nat) => Reserved(l, r, id));
  }

  lemma {:induction false} TotalOnly(s: set<nat>, t: set<nat>, f: nat -> int)
    requires s <= t && forall x :: x in t && x !in s ==> f(x) == 0
    ensures Total(s, f) == Total(t, f)
    decreases t
  {
    if s == t {
    } else {
      var x :| x in t && x !in s;
      TotalTake(t, f, x);
      TotalOnly(s, t - {x}, f);
    }
  }

  /* --------------------------------- every step --------------------------------- */

  lemma {:induction false} SettleCalls(l: Ledger, id: CallId, actual: Option<nat>, evidence: Option<string>)
    requires CallsOk(l) && Stored(l)
    ensures CallsOk(Settle(l, id, actual, evidence))
  {
    var l' := Settle(l, id, actual, evidence);
    forall x ensures CallOk(l', x) { assert CallOk(l, x) && CallOk(l, id); }
  }

  /** What settling does to a run: it is charged the difference, which its cover absorbs unless the call exceeds it. */
  lemma {:induction false} SettledCall(l: Ledger, id: CallId, actual: Option<nat>, evidence: Option<string>, r: RunId)
    requires CallsOk(l) && Stored(l) && r in l.runs
    ensures var l' := Settle(l, id, actual, evidence);
      && l'.booked == l.booked && l'.runs.Keys == l.runs.Keys
      && (id !in l.booked ==> l'.receipts == l.receipts && l'.reservations == l.reservations)
      && l'.runs[r] == l.runs[r].(llmTokens := l.runs[r].llmTokens + Charge(l', r, id) - Charge(l, r, id))
      && Min(Charge(l', r, id), Cover(l, r, id)) + Reserved(l', r, id)
        <= Min(Charge(l, r, id), Cover(l, r, id)) + Reserved(l, r, id)
  {
    assert CallOk(l, id);
  }

  lemma {:induction false} SettledOthers(
      l: Ledger, id: CallId, actual: Option<nat>, evidence: Option<string>, r: RunId, x: CallId)
    requires Stored(l) && x != id
    ensures var l' := Settle(l, id, actual, evidence);
      Charge(l', r, x) == Charge(l, r, x) && Reserved(l', r, x) == Reserved(l, r, x)
  {}

  /**
   * Settling a call moves its reservation into its charge, and never beyond what it
   * reserved except by its own excess.
   */
  lemma {:induction false} SettleRun(l: Ledger, id: CallId, actual: Option<nat>, evidence: Option<string>, r: RunId)
    requires CallsOk(l) && Stored(l) && r in l.runs && RunOk(l, r)
    ensures r in Settle(l, id, actual, evidence).runs && RunOk(Settle(l, id, actual, evidence), r)
  {
    var l' := Settle(l, id, actual, evidence);
    SettledCall(l, id, actual, evidence, r);
    forall x | x != id ensures Charge(l', r, x) == Charge(l, r, x) && Reserved(l', r, x) == Reserved(l, r, x) {
      SettledOthers(l, id, actual, evidence, r, x);
    }
    hide Settle, CallsOk, Stored, Charge, Cover, Reserved, Charged, Foreseen, Reserving, Calls;
    if id in l.booked { SumsFollow(l, l', r, id); } else { SumsStay(l, l', r); }
  }

  /** Reservations that are fewer or older count for less. */
  lemma {:induction false} ActiveShrinks(l: Ledger, l': Ledger, limits: Limits)
    requires ActiveOk(l, limits) && l'.now >= l.now
    requires forall id :: id in l'.reservations ==> id in l.reservations && l'.reservations[id] == l.reservations[id]
    ensures ActiveOk(l', limits)
  {
    forall r ensures |ActiveOfRun(l', r)| <= limits.perRun { SubsetSize(ActiveOfRun(l', r), ActiveOfRun(l, r)); }
    forall u ensures |ActiveOfUser(l', u)| <= limits.perUser { SubsetSize(ActiveOfUser(l', u), ActiveOfUser(l, u)); }
  }

  lemma {:induction false} SettleKeeps(
      l: Ledger, limits: Limits, id: CallId, actual: Option<nat>, evidence: Option<string>)
    requires Inv(l, limits) && Stored(l)
    ensures Inv(Settle(l, id, actual, evidence), limits)
  {
    var l' := Settle(l, id, actual, evidence);
    SettleCalls(l, id, actual, evidence);
    ActiveShrinks(l, l', limits);
    forall r | r in l'.runs ensures RunOk(l', r) { SettleRun(l, id, actual, evidence, r); }
  }

  lemma {:induction false} BookCalls(l: Ledger, id: CallId, x: Reservation)
    requires CallsOk(l) && id !in l.booked && x.run in l.runs
    ensures CallsOk(Book(l, id, x))
  {
    forall y ensures CallOk(Book(l, id, x), y) { assert CallOk(l, y) && CallOk(l, id); }
  }

  lemma {:induction false} BookActiveRun(l: Ledger, id: CallId, x: Reservation, r: RunId)
    requires x.run in l.runs && id !in l.reservations
    ensures |ActiveOfRun(Book(l, id, x), r)| <= |ActiveOfRun(l, r)| + if r == x.run then 1 else 0
  {
    SubsetSize(ActiveOfRun(Book(l, id, x), r), ActiveOfRun(l, r) + if r == x.run then {id} else {});
  }

  lemma {:induction false} BookActiveUser(l: Ledger, id: CallId, x: Reservation, u: UserId)
    requires x.run in l.runs && id !in l.reservations
    ensures |ActiveOfUser(Book(l, id, x), u)| <= |ActiveOfUser(l, u)| + if u == x.user then 1 else 0
  {
    SubsetSize(ActiveOfUser(Book(l, id, x), u), ActiveOfUser(l, u) + if u == x.user then {id} else {});
  }

  lemma {:induction false} BookActive(l: Ledger, limits: Limits, id: CallId, x: Reservation)
    requires ActiveOk(l, limits) && x.run in l.runs && id !in l.reservations
    requires |ActiveOfRun(l, x.run)| < limits.perRun && |ActiveOfUser(l, x.user)| < limits.perUser
    ensures ActiveOk(Book(l, id, x), limits)
  {
    hide ActiveOfRun, ActiveOfUser, Book;
    forall r ensures |ActiveOfRun(Book(l, id, x), r)| <= limits.perRun { BookActiveRun(l, id, x, r); }
    forall u ensures |ActiveOfUser(Book(l, id, x), u)| <= limits.perUser { BookActiveUser(l, id, x, u); }
  }

  lemma {:induction false} ReserveKeeps(
      l: Ledger, limits: Limits, id: CallId, r: RunId, u: UserId, tokens: nat, expires: int)
    requires Inv(l, limits) && id !in l.booked
    ensures Inv(Reserve(l, limits, id, r, u, tokens, expires), limits)
  {
    if Admit(l, limits, r, u, tokens).Admitted? {
      var x := Reservation(r, u, tokens, expires);
      var l' := Book(l, id, x);
      BookCalls(l, id, x);
      assert CallOk(l, id);
      BookActive(l, limits, id, x);
      HeldIsReserving(l, r);
      ForeseenBelowCharged(l, r);
      forall q | q in l'.runs ensures RunOk(l', q) {
        assert RunOk(l, q);
        SumsGrow(l, id, x, q);
      }
    }
  }

  lemma {:induction false} ForeseenBelowCharged(l: Ledger, r: RunId)
    ensures Foreseen(l, r) <= Charged(l, r)
  {
    TotalBound(l.booked.Keys, (id: nat) => Min(Charge(l, r, id), Cover(l, r, id)), (id: nat) => Charge(l, r, id));
  }

  lemma {:induction false} OpenRunKeeps(l: Ledger, limits: Limits, r: RunId, maxTokens: nat, maxRequests: nat)
    requires Inv(l, limits) && r !in l.runs
    ensures Inv(l.(runs := l.runs[r := Allowance(false, 0, maxTokens, 0, maxRequests)]), limits)
  {
    var l' := l.(runs := l.runs[r := Allowance(false, 0, maxTokens, 0, maxRequests)]);
    forall id ensures CallOk(l', id) { assert CallOk(l, id); }
    ActiveShrinks(l, l', limits);
    forall q | q in l'.runs ensures RunOk(l', q) {
      SumsStay(l, l', q);
      if q == r { NoCallsYet(l, r); } else { assert RunOk(l, q); }
    }
  }

  lemma {:induction false} NoCallsYet(l: Ledger, r: RunId)
    requires CallsOk(l) && r !in l.runs
    ensures Charged(l, r) == Foreseen(l, r) == Reserving(l, r) == Calls(l, r) == 0
  {
    var s := l.booked.Keys;
    forall id | id in s
      ensures Charge(l, r, id) == 0 && Cover(l, r, id) == 0 && Reserved(l, r, id) == 0 && l.booked[id].run != r {
      assert CallOk(l, id);
    }
    TotalOnly({}, s, (id: nat) => Charge(l, r, id));
    TotalOnly({}, s, (id: nat) => Min(Charge(l, r, id), Cover(l, r, id)));
    TotalOnly({}, s, (id: nat) => Reserved(l, r, id));
    TotalOnly({}, s, (id: nat) => CallOf(l, r, id));
  }

  lemma {:induction false} QuietKeeps(l: Ledger, l': Ledger, limits: Limits)
    requires Inv(l, limits) && l'.booked == l.booked && l'.measured == l.measured && l'.receipts == l.receipts
    requires l'.reservations == l.reservations && l'.now >= l.now && l'.runs.Keys == l.runs.Keys
    requires forall r :: r in l.runs ==> l'.runs[r].(over := false) == l.runs[r].(over := false)
    ensures Inv(l', limits)
  {
    forall id ensures CallOk(l', id) { assert CallOk(l, id); }
    ActiveShrinks(l, l', limits);
    forall r | r in l'.runs ensures RunOk(l', r) {
      assert RunOk(l, r) && l'.runs[r].(over := false) == l.runs[r].(over := false);
      SumsStay(l, l', r);
    }
  }

  lemma {:induction false} NextKeeps(l: Ledger, limits: Limits, s: Step)
    requires Inv(l, limits) && Enabled(l, s)
    ensures Stored(l) && Inv(Next(l, limits, s), limits)
  {
    InvStored(l);
    hide Inv;
    match s
    case OpenRun(r, maxTokens, maxRequests) => OpenRunKeeps(l, limits, r, maxTokens, maxRequests);
    case EndRun(r) => if r in l.runs { QuietKeeps(l, l.(runs := l.runs[r := l.runs[r].(over := true)]), limits); }
    case Tick(now) => QuietKeeps(l, l.(now := now), limits);
    case DoReserve(id, r, u, tokens, expires) => ReserveKeeps(l, limits, id, r, u, tokens, expires);
    case DoSettle(id, actual, evidence) => SettleKeeps(l, limits, id, actual, evidence);
    case DoExpire(id) =>
      if id in l.reservations && l.reservations[id].expires < l.now { SettleKeeps(l, limits, id, None, None); }
    case DoReconcile(id, usage, evidence) =>
      if !Blank(evidence) && id in l.receipts && usage >= 0 { SettleKeeps(l, limits, id, Some(usage), Some(evidence)); }
  }

  /** `steps` is a history of the ledger from `l` to `l'`. */
  ghost predicate Leads(l: Ledger, limits: Limits, steps: seq<Step>, l': Ledger)
    decreases |steps|
  {
    if steps == [] then l' == l
    else Stored(l) && Enabled(l, steps[0]) && Leads(Next(l, limits, steps[0]), limits, steps[1..], l')
  }

  lemma {:induction false} LeadsKeeps(l: Ledger, limits: Limits, steps: seq<Step>, l': Ledger)
    requires Inv(l, limits) && Leads(l, limits, steps, l')
    ensures Inv(l', limits)
    decreases |steps|
  {
    if steps != [] {
      NextKeeps(l, limits, steps[0]);
      hide Inv;
      LeadsKeeps(Next(l, limits, steps[0]), limits, steps[1..], l');
    }
  }

  lemma {:induction false} EmptyOk(limits: Limits)
    ensures Inv(EMPTY_LEDGER, limits)
  {
    forall r ensures ActiveOfRun(EMPTY_LEDGER, r) == {} {}
    forall u ensures ActiveOfUser(EMPTY_LEDGER, u) == {} {}
  }

  /* -------------------------------- main theorems -------------------------------- */

  /**
   * The budget bound. In every history a run has been charged exactly the sum of its
   * receipts; what its calls had reserved for, together with what is still reserved,
   * never exceeds its allowance; so it can overspend only by the excess of calls over
   * their own reservations. It never makes more calls than it may.
   */
  lemma {:induction false} BudgetHolds(limits: Limits, steps: seq<Step>, l: Ledger, r: RunId)
    requires Leads(EMPTY_LEDGER, limits, steps, l) && r in l.runs
    ensures l.runs[r].llmTokens == Charged(l, r)
    ensures Foreseen(l, r) + Reserving(l, r) <= l.runs[r].maxTokens
    ensures l.runs[r].llmTokens == Foreseen(l, r) + Excess(l, r) <= l.runs[r].maxTokens + Excess(l, r)
    ensures l.runs[r].requests == Calls(l, r) <= l.runs[r].maxRequests
  {
    EmptyOk(limits);
    LeadsKeeps(EMPTY_LEDGER, limits, steps, l);
    assert RunOk(l, r);
    TotalSum(l.booked.Keys, (id: nat) => Min(Charge(l, r, id), Cover(l, r, id)),
             (id: nat) => Max(0, Charge(l, r, id) - Cover(l, r, id)), (id: nat) => Charge(l, r, id));
    TotalOnly({}, {}, (id: nat) => 0);
    TotalBound(l.booked.Keys, (id: nat) => 0, (id: nat) => Reserved(l, r, id));
    ZeroTotal(l.booked.Keys);
  }

  lemma {:induction false} ZeroTotal(s: set<nat>)
    ensures Total(s, (x: nat) => 0) == 0
    decreases s
  {
    if s != {} {
      var x :| x in s;
      TotalTake(s, (x: nat) => 0, x);
      ZeroTotal(s - {x});
    }
  }

  /** At no moment do more calls of a run or of a user hold an unexpired reservation than the limits allow. */
  lemma {:induction false} ConcurrencyHolds(limits: Limits, steps: seq<Step>, l: Ledger, r: RunId, u: UserId)
    requires Leads(EMPTY_LEDGER, limits, steps, l)
    ensures |ActiveOfRun(l, r)| <= limits.perRun && |ActiveOfUser(l, u)| <= limits.perUser
  {
    EmptyOk(limits);
    LeadsKeeps(EMPTY_LEDGER, limits, steps, l);
  }

  /**
   * Settlement is confluent. However settlements, expiries and reconciliations of a
   * call repeat and interleave, it is reserved or charged but never both, and it is
   * charged the first measured usage submitted for it, or what it reserved if none was.
   */
  lemma {:induction false} SettlementConfluent(limits: Limits, steps: seq<Step>, l: Ledger, id: CallId)
    requires Leads(EMPTY_LEDGER, limits, steps, l)
    ensures id in l.booked ==> (id in l.reservations <==> id !in l.receipts) && id in l.measured
    ensures id in l.booked && id in l.receipts ==>
      l.receipts[id].tokens == if l.measured[id] != [] then l.measured[id][0] else l.booked[id].tokens
    ensures id in l.booked && id in l.receipts ==> (l.receipts[id].actual <==> l.measured[id] != [])
  {
    EmptyOk(limits);
    LeadsKeeps(EMPTY_LEDGER, limits, steps, l);
    assert CallOk(l, id);
  }

  /** Any number of attempts to settle one call, with or without a measured usage. */
  function SettleTimes(l: Ledger, id: CallId, tries: seq<Option<nat>>): (r: Ledger)
    requires Stored(l)
    ensures Stored(r)
    decreases |tries|
  {
    if tries == [] then l else SettleTimes(Settle(l, id, tries[0], None), id, tries[1..])
  }

  function FirstMeasured(tries: seq<Option<nat>>): Option<nat>
    decreases |tries|
  {
    if tries == [] then None else if tries[0].Some? then tries[0] else FirstMeasured(tries[1..])
  }

  lemma {:induction false} SettledTimes(l: Ledger, id: CallId, tries: seq<Option<nat>>)
    requires Stored(l) && id in l.receipts
    ensures var l' := SettleTimes(l, id, tries); var x := l.receipts[id]; var first := FirstMeasured(tries);
      && id in l'.receipts && l'.receipts[id].run == x.run
      && l'.receipts[id].tokens == (if !x.actual && first.Some? then first.value else x.tokens)
      && l'.runs ==
        l.runs[x.run := l.runs[x.run].(llmTokens := l.runs[x.run].llmTokens + l'.receipts[id].tokens - x.tokens)]
    decreases |tries|
  {
    if tries != [] { SettledTimes(Settle(l, id, tries[0], None), id, tries[1..]); }
  }

  /**
   * A reserved call that somebody tries to settle, once or many times, is charged once:
   * the first usage measured, wherever it comes among the tries, or what it reserved.
   */
  lemma {:induction false} ChargedOnce(l: Ledger, id: CallId, tries: seq<Option<nat>>)
    requires CallsOk(l) && Stored(l) && id in l.reservations && tries != []
    ensures var l' := SettleTimes(l, id, tries); var x := l.reservations[id];
      var charge := if FirstMeasured(tries).Some? then FirstMeasured(tries).value else x.tokens;
      && id in l'.receipts && l'.receipts[id].tokens == charge
      && l'.runs == l.runs[x.run := l.runs[x.run].(llmTokens := l.runs[x.run].llmTokens + charge)]
  {
    assert CallOk(l, id);
    SettledTimes(Settle(l, id, tries[0], None), id, tries[1..]);
  }

  /* ------------------------------ what each call gets ------------------------------ */

  /**
   * Who is admitted. A call whose run has not ended and has a request left, whose run and
   * user are below their limits, and which fits into what is neither charged nor held, is
   * admitted; any other is refused, and the reason is the first that applies.
   */
  lemma {:induction false} AdmitsExactly(l: Ledger, limits: Limits, r: RunId, u: UserId, tokens: nat)
    ensures var v := Admit(l, limits, r, u, tokens);
      var ofRun := set id | id in l.reservations && l.reservations[id].run == r && l.now < l.reservations[id].expires;
      var ofUser := set id | id in l.reservations && l.reservations[id].user == u && l.now < l.reservations[id].expires;
      && (v == Inactive <==> r !in l.runs || l.runs[r].over)
      && (r in l.runs && !l.runs[r].over ==>
            && (v == Busy <==> |ofRun| >= limits.perRun || |ofUser| >= limits.perUser)
            && (v == Admitted <==>
                  && |ofRun| < limits.perRun && |ofUser| < limits.perUser
                  && l.runs[r].requests < l.runs[r].maxRequests
                  && l.runs[r].llmTokens + Held(l, r) + tokens <= l.runs[r].maxTokens))
  {
    assert ActiveOfRun(l, r)
      == set id | id in l.reservations && l.reservations[id].run == r && l.now < l.reservations[id].expires;
    assert ActiveOfUser(l, u)
      == set id | id in l.reservations && l.reservations[id].user == u && l.now < l.reservations[id].expires;
  }

  /** An admitted call is reserved as asked and counted once; a refused one leaves no trace. */
  lemma {:induction false} ReserveEffect(
      l: Ledger, limits: Limits, id: CallId, r: RunId, u: UserId, tokens: nat, expires: int)
    ensures var l' := Reserve(l, limits, id, r, u, tokens, expires);
      if Admit(l, limits, r, u, tokens) == Admitted then
        && r in l.runs && l'.reservations == l.reservations[id := Reservation(r, u, tokens, expires)]
        && r in l'.runs && l'.runs == l.runs[r := l'.runs[r]]
        && l'.runs[r].requests == l.runs[r].requests + 1 && l'.runs[r].llmTokens == l.runs[r].llmTokens
        && l'.receipts == l.receipts
      else l' == l
  {}

  /** A reservation that has run out is charged as it was reserved, and is not held any more; one that has not stays. */
  lemma {:induction false} ExpireEffect(l: Ledger, id: CallId)
    requires CallsOk(l) && Stored(l)
    ensures var l' := Expire(l, id);
      if id in l.reservations && l.reservations[id].expires < l.now then
        var x := l.reservations[id];
        && l'.reservations == l.reservations - {id}
        && l'.receipts == l.receipts[id := UsageReceipt(x.run, x.tokens, false, None)]
        && l'.runs == l.runs[x.run := l.runs[x.run].(llmTokens := l.runs[x.run].llmTokens + x.tokens)]
      else l' == l
  {
    assert CallOk(l, id);
  }

  /**
   * An operator's correction replaces an estimate by the measured usage, charges the
   * difference and keeps the evidence; a measured charge stays as it is, and nothing
   * happens without evidence, without a receipt or for a negative usage.
   */
  lemma {:induction false} ReconcileEffect(l: Ledger, id: CallId, usage: int, evidence: string)
    requires CallsOk(l) && Stored(l)
    ensures var l' := Reconcile(l, id, usage, evidence);
      if id in l.receipts && usage >= 0 && (exists i :: 0 <= i < |evidence| && !(evidence[i] in " \t\r\n")) then
        var x := l.receipts[id];
        && l'.receipts == (if x.actual then l.receipts
             else l.receipts[id := UsageReceipt(x.run, usage, true, Some(evidence))])
        && l'.runs == (if x.actual then l.runs
             else l.runs[x.run := l.runs[x.run].(llmTokens := l.runs[x.run].llmTokens + usage - x.tokens)])
        && l'.reservations == l.reservations
      else l' == l
  {
    assert CallOk(l, id);
    if Blank(evidence) {
      forall i | 0 <= i < |evidence| ensures evidence[i] in " \t\r\n" {}
    } else {
      var c :| c in evidence && !(c in " \t\r\n");
      var i :| 0 <= i < |evidence| && evidence[i] == c;
    }
  }

  lemma {:induction false} SettleKeepsOver(
      l: Ledger, id: CallId, actual: Option<nat>, evidence: Option<string>, r: RunId)
    requires Stored(l) && r in l.runs && l.runs[r].over
    ensures r in Settle(l, id, actual, evidence).runs && Settle(l, id, actual, evidence).runs[r].over
  {}

  lemma {:induction false} OverStays(l: Ledger, limits: Limits, s: Step, r: RunId)
    requires Stored(l) && Enabled(l, s) && r in l.runs && l.runs[r].over
    ensures r in Next(l, limits, s).runs && Next(l, limits, s).runs[r].over
  {
    hide Admit, Settle, Blank, Stored;
    match s
    case DoSettle(id, actual, evidence) => SettleKeepsOver(l, id, actual, evidence, r);
    case DoExpire(id) => SettleKeepsOver(l, id, None, None, r);
    case DoReconcile(id, usage, evidence) =>
      if usage >= 0 { SettleKeepsOver(l, id, Some(usage), Some(evidence), r); }
    case _ =>
  }

  /** A new run is open and has everything it may spend, so its first call that fits is admitted. */
  lemma {:induction false} OpensFresh(
      l: Ledger, limits: Limits, r: RunId, maxTokens: nat, maxRequests: nat, u: UserId, tokens: nat)
    requires CallsOk(l) && Stored(l) && r !in l.runs
    ensures var l' := Next(l, limits, OpenRun(r, maxTokens, maxRequests));
      && l'.runs == l.runs[r := Allowance(false, 0, maxTokens, 0, maxRequests)] && l'.reservations == l.reservations
      && (Admit(l', limits, r, u, tokens) == Admitted <==>
            limits.perRun > 0 && |ActiveOfUser(l, u)| < limits.perUser && maxRequests > 0 && tokens <= maxTokens)
  {
    var l' := Next(l, limits, OpenRun(r, maxTokens, maxRequests));
    assert forall id :: id in l.reservations ==> l.reservations[id].run != r;
    assert ActiveOfRun(l', r) == {} && ActiveOfUser(l', u) == ActiveOfUser(l, u);
    NothingHeld(l', r);
  }

  lemma NothingHeld(l: Ledger, r: RunId)
    requires forall id :: id in l.reservations ==> l.reservations[id].run != r
    ensures Held(l, r) == 0
  {
    TotalSame(l.reservations.Keys, (id: nat) => Reserved(l, r, id), (id: nat) => 0);
    ZeroTotal(l.reservations.Keys);
  }

  /** Once a run has ended, no call of it is admitted in any later state. */
  lemma {:induction false} NoCallAfterTheEnd(
      l: Ledger, limits: Limits, steps: seq<Step>, l': Ledger, r: RunId, u: UserId, tokens: nat)
    requires r in l.runs && (l.runs[r].over || (steps != [] && steps[0] == EndRun(r)))
    requires Leads(l, limits, steps, l')
    ensures Admit(l', limits, r, u, tokens) == Inactive
    decreases |steps|
  {
    if steps != [] {
      var l1 := Next(l, limits, steps[0]);
      if l.runs[r].over { OverStays(l, limits, steps[0], r); }
      assert r in l1.runs && l1.runs[r].over;
      hide Next, Admit, Enabled, Stored;
      NoCallAfterTheEnd(l1, limits, steps[1..], l', r, u, tokens);
    }
  }
}
