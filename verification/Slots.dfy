/**
 * Machine slots. An agent row that names a resource and a provider holds a slot;
 * provisioners, late provider responses, reclaimers, reconcilers and agents all
 * update these rows, one statement at a time, in any order.
 */
module Slots {
  import opened Common
  import opened Events

  type UserId = nat
  type Resource = nat

  datatype SlotStatus =
    | Provisioning | ProvisionUnknown | ProvisionTimeout | ProvisionAbsent | StartFailed
    | AgentClaimed | AgentRunning | Lost | Ended

  /** The slot columns of an agent row. Until a machine is attached, `vm` is the reservation itself. */
  datatype Slot = Slot(
    run: RunId, status: SlotStatus, vm: Option<Resource>, provided: bool, reservation: Option<Resource>, stopped: bool)

  /**
   * What a reservation reads of a run: whose it is, its cap, whether it is over, and what
   * it has used of its budgets.
   */
  datatype RunInfo = RunInfo(
    owner: UserId, maxConcurrent: nat, over: bool, vmSeconds: nat, maxVmSeconds: nat,
    priced: bool, usdCents: nat, maxUsdCents: nat)

  datatype Caps = Caps(total: nat, perUser: nat)

  /** `queued` are the jobs that wait to be claimed. */
  datatype Table = Table(agents: map<JobId, Slot>, runs: map<RunId, RunInfo>, queued: set<JobId>)

  const EMPTY_TABLE := Table(map[], map[], {})

  predicate Holds(s: Slot) { s.vm.Some? && s.provided }

  function Holding(t: Table): set<JobId> { set j | j in t.agents && Holds(t.agents[j]) }

  function HeldBy(t: Table, u: UserId): set<JobId> {
    set j | j in t.agents && Holds(t.agents[j]) && t.agents[j].run in t.runs && t.runs[t.agents[j].run].owner == u
  }

  function LiveIn(t: Table, r: RunId): set<JobId> {
    set j | j in t.agents && t.agents[j].run == r && !t.agents[j].stopped
  }

  /* ---------------------------------- statements ---------------------------------- */

  function With(t: Table, j: JobId, s: Slot): Table { t.(agents := t.agents[j := s]) }

  /** The run may still spend: its budgets are not used up, as far as its cost is known. */
  predicate Affordable(info: RunInfo) {
    info.vmSeconds < info.maxVmSeconds && (info.priced ==> info.usdCents < info.maxUsdCents)
  }

  /** The checks `provision` makes under the deployment lock and the run row's lock. */
  predicate HasRoom(t: Table, caps: Caps, j: JobId, r: RunId) {
    && r in t.runs
    && |Holding(t)| < caps.total && |HeldBy(t, t.runs[r].owner)| < caps.perUser
    && j in t.queued && !t.runs[r].over
    && |LiveIn(t, r)| < t.runs[r].maxConcurrent && Affordable(t.runs[r])
  }

  /** The row may be taken: there is none yet, or it is stopped and holds nothing. */
  predicate MayTake(t: Table, j: JobId) { j !in t.agents || (t.agents[j].stopped && !Holds(t.agents[j])) }

  /** The reservation of `provision`. Taking over an existing row leaves its provider as it was. */
  function Reserve(t: Table, caps: Caps, j: JobId, r: RunId, reservation: Resource): Table {
    if !HasRoom(t, caps, j, r) || !MayTake(t, j) then t
    else if j !in t.agents then With(t, j, Slot(r, Provisioning, Some(reservation), true, Some(reservation), false))
    else
      With(t, j, t.agents[j].(status := Provisioning, vm := Some(reservation),
        reservation := Some(reservation), stopped := false))
  }

  /** The create call failed or timed out: the slot is kept, its outcome is unknown. */
  function CreateUnknown(t: Table, j: JobId, reservation: Resource): Table {
    if j in t.agents && t.agents[j].reservation == Some(reservation) && t.agents[j].status.Provisioning?
    then With(t, j, t.agents[j].(status := ProvisionUnknown)) else t
  }

  /** The machine is attached. */
  function Attach(t: Table, j: JobId, vm: Resource): Table {
    if j in t.agents && t.agents[j].status.Provisioning? && !t.agents[j].stopped
    then With(t, j, t.agents[j].(vm := Some(vm), provided := true)) else t
  }

  /** A late response, or the inventory, names the machine of an unresolved reservation. */
  function Resolve(t: Table, j: JobId, vm: Resource, reservation: Resource): Table {
    if j in t.agents && t.agents[j].reservation == Some(reservation) && t.agents[j].vm == Some(reservation)
    then With(t, j, t.agents[j].(vm := Some(vm), status := ProvisionTimeout, stopped := true)) else t
  }

  /** `#release` */
  function Release(t: Table, j: JobId, deleted: bool): Table {
    if j in t.agents
    then With(t, j,
      t.agents[j].(status := StartFailed, stopped := true, vm := if deleted then None else t.agents[j].vm))
    else t
  }

  /** The row is being provisioned, as far as anybody knows, on the pass's own provider. */
  predicate Unfinished(s: Slot) { (s.status.Provisioning? || s.status.ProvisionUnknown?) && !s.stopped && s.provided }

  /** The timeout of `reapStaleProvisioning`. */
  function TimeOut(t: Table, j: JobId): Table {
    if j in t.agents && Unfinished(t.agents[j])
    then With(t, j, t.agents[j].(status := ProvisionTimeout, stopped := true)) else t
  }

  /** A resource of a stopped row is confirmed deleted. */
  function Freed(t: Table, j: JobId, vm: Resource): Table {
    if j in t.agents && t.agents[j].vm == Some(vm) && t.agents[j].stopped then With(t, j, t.agents[j].(vm := None))
      else t
  }

  /** The inventory shows that a reservation never became a machine. */
  function Absent(t: Table, j: JobId, reservation: Resource): Table {
    if j in t.agents && t.agents[j].vm == Some(reservation)
    then With(t, j, t.agents[j].(vm := None, status := ProvisionAbsent, stopped := true)) else t
  }

  /** The queue, a run's end or the reconciler stops the agent. */
  function StopAgent(t: Table, j: JobId, status: SlotStatus): Table {
    if j in t.agents then With(t, j, t.agents[j].(status := status, stopped := true)) else t
  }

  /** The upsert of `/agent/claim`: a row without a provider takes the caller's name, any other keeps its machine. */
  function ClaimRow(t: Table, j: JobId, r: RunId, caller: Resource): Table {
    if j !in t.agents then With(t, j, Slot(r, AgentClaimed, Some(caller), false, None, false))
    else
      var s := t.agents[j];
      With(t, j, s.(status := AgentClaimed, vm := if s.provided then s.vm else Some(caller), stopped := false))
  }

  datatype Step =
    | AddRun(run: RunId, info: RunInfo)
    | SetRun(run: RunId, info: RunInfo)
    | SetQueued(job: JobId, waits: bool)
    | DoReserve(job: JobId, run: RunId, reservation: Resource)
    | DoUnknown(job: JobId, reservation: Resource)
    | DoAttach(job: JobId, vm: Resource)
    | DoResolve(job: JobId, vm: Resource, reservation: Resource)
    | DoRelease(job: JobId, deleted: bool)
    | DoTimeOut(job: JobId)
    | DoFreed(job: JobId, vm: Resource)
    | DoAbsent(job: JobId, reservation: Resource)
    | DoStop(job: JobId, status: SlotStatus)
    | DoClaim(job: JobId, run: RunId, caller: Resource)
    | DoRun(job: JobId)

  /**
   * A job stays in its run, and runs stay with their owner; a stop names how the agent
   * ended. A claim carries a token, and tokens are minted for jobs that have a row.
   */
  predicate Enabled(t: Table, s: Step) {
    match s
    case AddRun(r, _) => r !in t.runs
    case SetRun(r, info) => r in t.runs && info.owner == t.runs[r].owner
    case DoReserve(j, r, _) => j in t.agents ==> t.agents[j].run == r
    case DoClaim(j, r, _) => j in t.agents && t.agents[j].run == r
    case DoStop(_, status) => status.Lost? || status.Ended?
    case _ => true
  }

  function Next(t: Table, caps: Caps, s: Step): Table {
    match s
    case AddRun(r, info) => t.(runs := t.runs[r := info])
    case SetRun(r, info) => t.(runs := t.runs[r := info])
    case SetQueued(j, waits) => t.(queued := if waits then t.queued + {j} else t.queued - {j})
    case DoReserve(j, r, reservation) => Reserve(t, caps, j, r, reservation)
    case DoUnknown(j, reservation) => CreateUnknown(t, j, reservation)
    case DoAttach(j, vm) => Attach(t, j, vm)
    case DoResolve(j, vm, reservation) => Resolve(t, j, vm, reservation)
    case DoRelease(j, deleted) => Release(t, j, deleted)
    case DoTimeOut(j) => TimeOut(t, j)
    case DoFreed(j, vm) => Freed(t, j, vm)
    case DoAbsent(j, reservation) => Absent(t, j, reservation)
    case DoStop(j, status) => StopAgent(t, j, status)
    case DoClaim(j, r, caller) => ClaimRow(t, j, r, caller)
    case DoRun(j) => if j in t.agents then With(t, j, t.agents[j].(status := AgentRunning)) else t
  }

  ghost predicate Leads(t: Table, caps: Caps, steps: seq<Step>, t': Table)
    decreases |steps|
  {
    if steps == [] then t' == t else Enabled(t, steps[0]) && Leads(Next(t, caps, steps[0]), caps, steps[1..], t')
  }

  /* ----------------------------------- the caps ----------------------------------- */

  predicate Homed(t: Table) { forall j :: j in t.agents ==> t.agents[j].run in t.runs }

  ghost predicate Within(t: Table, caps: Caps) {
    |Holding(t)| <= caps.total && forall u :: |HeldBy(t, u)| <= caps.perUser
  }

  /** The attachment takes a slot, and there is none left. */
  predicate Overfills(t: Table, caps: Caps, s: Step)
    requires Homed(t)
  {
    && s.DoAttach? && s.job in t.agents
    && t.agents[s.job].status.Provisioning? && !t.agents[s.job].stopped && !Holds(t.agents[s.job])
    && (|Holding(t)| >= caps.total || |HeldBy(t, t.runs[t.agents[s.job].run].owner)| >= caps.perUser)
  }

  /** A statement that makes no row hold a slot keeps the caps. */
  lemma {:induction false} NoNewHolder(t: Table, t': Table, caps: Caps)
    requires Within(t, caps) && t.runs.Keys <= t'.runs.Keys && Homed(t)
    requires forall r :: r in t.runs ==> t'.runs[r].owner == t.runs[r].owner
    requires forall j :: j in t'.agents && Holds(t'.agents[j]) ==>
      j in t.agents && Holds(t.agents[j]) && t'.agents[j].run == t.agents[j].run
    ensures Within(t', caps)
  {
    SubsetSize(Holding(t'), Holding(t));
    forall u ensures |HeldBy(t', u)| <= caps.perUser { SubsetSize(HeldBy(t', u), HeldBy(t, u)); }
  }

  lemma AddOne(s: set<nat>, j: nat)
    requires j !in s
    ensures |s + {j}| == |s| + 1
  {}

  /** A statement that makes one more row hold a slot counts once, for everybody and for the run's owner. */
  lemma {:induction false} OneNewHolder(t: Table, t': Table, j: JobId)
    requires j in t.agents ==> !Holds(t.agents[j])
    requires j in t'.agents && Holds(t'.agents[j]) && t'.agents == t.agents[j := t'.agents[j]]
    ensures |Holding(t')| == |Holding(t)| + 1
  {
    AddOne(Holding(t), j);
    assert Holding(t') == Holding(t) + {j};
  }

  lemma {:induction false} OneNewHolderOf(t: Table, t': Table, j: JobId, u: UserId)
    requires Homed(t') && t'.runs == t.runs && (j in t.agents ==> !Holds(t.agents[j]))
    requires j in t'.agents && Holds(t'.agents[j]) && t'.agents == t.agents[j := t'.agents[j]]
    ensures |HeldBy(t', u)| == |HeldBy(t, u)| + if u == t.runs[t'.agents[j].run].owner then 1 else 0
  {
    if u == t.runs[t'.agents[j].run].owner {
      AddOne(HeldBy(t, u), j);
      assert HeldBy(t', u) == HeldBy(t, u) + {j};
    } else {
      assert HeldBy(t', u) == HeldBy(t, u);
    }
  }

  lemma {:induction false} NewHolderFits(t: Table, t': Table, caps: Caps, j: JobId)
    requires Within(t, caps) && Homed(t') && t'.runs == t.runs && (j in t.agents ==> !Holds(t.agents[j]))
    requires j in t'.agents && Holds(t'.agents[j]) && t'.agents == t.agents[j := t'.agents[j]]
    ensures Within(t', caps)
      <==> |Holding(t)| < caps.total && |HeldBy(t, t.runs[t'.agents[j].run].owner)| < caps.perUser
  {
    var owner := t.runs[t'.agents[j].run].owner;
    OneNewHolder(t, t', j);
    forall u ensures |HeldBy(t', u)| == |HeldBy(t, u)| + if u == owner then 1 else 0 { OneNewHolderOf(t, t', j, u); }
    hide Holding, HeldBy;
  }

  /** Only a reservation or an attachment can make a row hold a slot. */
  lemma {:induction false} OtherStatements(t: Table, caps: Caps, s: Step, j: JobId)
    requires Enabled(t, s) && !s.DoReserve? && !s.DoAttach?
    ensures j in Next(t, caps, s).agents ==>
      && j in t.agents && Next(t, caps, s).agents[j].run == t.agents[j].run
      && (Holds(Next(t, caps, s).agents[j]) ==> Holds(t.agents[j]))
  {}

  lemma {:induction false} RunsStay(t: Table, caps: Caps, s: Step)
    requires Enabled(t, s)
    ensures t.runs.Keys <= Next(t, caps, s).runs.Keys
    ensures forall r :: r in t.runs ==> Next(t, caps, s).runs[r].owner == t.runs[r].owner
  {}

  lemma {:induction false} ReserveFits(t: Table, caps: Caps, j: JobId, r: RunId, reservation: Resource)
    requires Within(t, caps) && Homed(t) && (j in t.agents ==> t.agents[j].run == r)
    ensures Within(Reserve(t, caps, j, r, reservation), caps) && Homed(Reserve(t, caps, j, r, reservation))
  {
    var t' := Reserve(t, caps, j, r, reservation);
    if HasRoom(t, caps, j, r) && MayTake(t, j) && Holds(t'.agents[j]) {
      NewHolderFits(t, t', caps, j);
    } else {
      NoNewHolder(t, t', caps);
    }
  }

  lemma {:induction false} AttachFits(t: Table, caps: Caps, j: JobId, vm: Resource)
    requires Within(t, caps) && Homed(t)
    ensures Homed(Attach(t, j, vm)) && (Within(Attach(t, j, vm), caps) <==> !Overfills(t, caps, DoAttach(j, vm)))
  {
    var t' := Attach(t, j, vm);
    if j in t.agents && t.agents[j].status.Provisioning? && !t.agents[j].stopped && !Holds(t.agents[j]) {
      NewHolderFits(t, t', caps, j);
    } else {
      NoNewHolder(t, t', caps);
    }
  }

  /**
   * When a statement breaks the caps, exactly: when it attaches a machine to a row that
   * is being provisioned without holding a slot, and no slot is left. No reservation,
   * late response, timeout, release, reclaim, reconciliation or claim ever does.
   */
  lemma {:induction false} CapsBreakExactly(t: Table, caps: Caps, s: Step)
    requires Within(t, caps) && Homed(t) && Enabled(t, s)
    ensures Homed(Next(t, caps, s)) && (Within(Next(t, caps, s), caps) <==> !Overfills(t, caps, s))
  {
    if s.DoReserve? {
      ReserveFits(t, caps, s.job, s.run, s.reservation);
    } else if s.DoAttach? {
      AttachFits(t, caps, s.job, s.vm);
    } else {
      var t' := Next(t, caps, s);
      RunsStay(t, caps, s);
      forall j | j in t'.agents
        ensures j in t.agents && t'.agents[j].run == t.agents[j].run && (Holds(t'.agents[j]) ==> Holds(t.agents[j]))
      { OtherStatements(t, caps, s, j); }
      hide Next, Enabled;
      NoNewHolder(t, t', caps);
    }
  }

  /** The caps hold now and after each of the steps. */
  ghost predicate AlwaysWithin(t: Table, caps: Caps, steps: seq<Step>)
    decreases |steps|
  {
    Within(t, caps) && (steps == [] || AlwaysWithin(Next(t, caps, steps[0]), caps, steps[1..]))
  }

  ghost predicate NeverOverfills(t: Table, caps: Caps, steps: seq<Step>)
    decreases |steps|
  {
    steps == [] ||
    (Homed(t) && !Overfills(t, caps, steps[0]) && NeverOverfills(Next(t, caps, steps[0]), caps, steps[1..]))
  }

  /** So a history stays within the caps exactly when none of its attachments overfills. */
  lemma {:induction false} CapsHoldExactly(t: Table, caps: Caps, steps: seq<Step>, t': Table)
    requires Within(t, caps) && Homed(t) && Leads(t, caps, steps, t')
    ensures AlwaysWithin(t, caps, steps) <==> NeverOverfills(t, caps, steps)
    decreases |steps|
  {
    if steps != [] {
      CapsBreakExactly(t, caps, steps[0]);
      if Within(Next(t, caps, steps[0]), caps) {
        hide Within, Homed, Next, Enabled, Overfills;
        CapsHoldExactly(Next(t, caps, steps[0]), caps, steps[1..], t');
      }
    }
  }

  /* -------------------------------- rows of this plane -------------------------------- */

  /** The row was made by `provision`, and while it is being provisioned it names its reservation or machine. */
  predicate Sane(s: Slot) { s.provided && (s.status.Provisioning? ==> !s.stopped && s.vm.Some?) }

  predicate AllSane(t: Table) { forall j :: j in t.agents ==> Sane(t.agents[j]) }

  lemma {:induction false} SaneStays(t: Table, caps: Caps, s: Step)
    requires AllSane(t) && Enabled(t, s)
    ensures AllSane(Next(t, caps, s))
  {
    forall j | j in Next(t, caps, s).agents ensures Sane(Next(t, caps, s).agents[j]) { SaneRow(t, caps, s, j); }
  }

  lemma {:induction false} SaneRow(t: Table, caps: Caps, s: Step, j: JobId)
    requires AllSane(t) && Enabled(t, s) && j in Next(t, caps, s).agents
    ensures Sane(Next(t, caps, s).agents[j])
  {}

  lemma {:induction false} SaneKeepsCaps(t: Table, caps: Caps, steps: seq<Step>, t': Table)
    requires Within(t, caps) && Homed(t) && AllSane(t) && Leads(t, caps, steps, t')
    ensures Within(t', caps) && AlwaysWithin(t, caps, steps)
    decreases |steps|
  {
    if steps != [] {
      CapsBreakExactly(t, caps, steps[0]);
      SaneStays(t, caps, steps[0]);
      hide Within, Homed, AllSane, Next, Enabled;
      SaneKeepsCaps(Next(t, caps, steps[0]), caps, steps[1..], t');
    }
  }

  /**
   * Slot safety. Over any interleaving of reservations, ambiguous and late provider
   * responses, timeouts, releases, reclaims, reconciliations and claims, the rows that
   * hold a resource never exceed the global cap, nor any user's cap, as long as every
   * row was made by `provision`.
   */
  lemma {:induction false} CapsHold(steps: seq<Step>, caps: Caps, t: Table, u: UserId)
    requires Leads(EMPTY_TABLE, caps, steps, t)
    ensures |Holding(t)| <= caps.total && |HeldBy(t, u)| <= caps.perUser
    ensures AlwaysWithin(EMPTY_TABLE, caps, steps)
  {
    assert Holding(EMPTY_TABLE) == {};
    forall v ensures HeldBy(EMPTY_TABLE, v) == {} {}
    SaneKeepsCaps(EMPTY_TABLE, caps, steps, t);
  }

  /**
   * A reservation adds a holder at once unless it takes over a row that no provider was
   * recorded in; the attachment always does.
   */
  lemma {:induction false} ReservationCounts(
      t: Table, caps: Caps, j: JobId, r: RunId, reservation: Resource, vm: Resource)
    requires HasRoom(t, caps, j, r) && MayTake(t, j) && (j in t.agents ==> t.agents[j].run == r)
    ensures var t' := Reserve(t, caps, j, r, reservation);
      && (|Holding(t')| == |Holding(t)| + 1 <==> !(j in t.agents && !t.agents[j].provided))
      && |Holding(Attach(t', j, vm))| == |Holding(t)| + 1
  {
    var t' := Reserve(t, caps, j, r, reservation);
    assert Holding(Attach(t', j, vm)) == Holding(t) + {j};
    if j in t.agents && !t.agents[j].provided {
      assert Holding(t') == Holding(t);
    } else {
      assert Holding(t') == Holding(t) + {j};
    }
  }

  /* ------------------------------ what each statement does ------------------------------ */

  /** Only the row of `j` changes. */
  predicate OnlyRow(t: Table, t': Table, j: JobId) {
    t'.runs == t.runs && t'.queued == t.queued && j in t'.agents && t'.agents == t.agents[j := t'.agents[j]]
  }

  /**
   * Who gets a slot: a queued job whose row is new or stopped and empty, if both caps and
   * its run's own have room and the run is neither over nor out of budget. It holds its
   * reservation then; nobody else is touched, and anybody else changes nothing.
   */
  lemma {:induction false} ReserveDoes(t: Table, caps: Caps, j: JobId, r: RunId, reservation: Resource)
    requires j in t.agents ==> t.agents[j].run == r
    ensures var t' := Reserve(t, caps, j, r, reservation);
      if r in t.runs && |Holding(t)| < caps.total && |HeldBy(t, t.runs[r].owner)| < caps.perUser
         && j in t.queued && !t.runs[r].over && |LiveIn(t, r)| < t.runs[r].maxConcurrent
         && t.runs[r].vmSeconds < t.runs[r].maxVmSeconds
         && (!t.runs[r].priced || t.runs[r].usdCents < t.runs[r].maxUsdCents)
         && (j in t.agents ==> t.agents[j].stopped && (t.agents[j].vm.None? || !t.agents[j].provided))
      then
        && OnlyRow(t, t', j) && t'.agents[j] == Slot(r, Provisioning, Some(reservation),
             j in t.agents ==> t.agents[j].provided, Some(reservation), false)
      else t' == t
  {
    hide Holding, HeldBy, LiveIn;
  }

  /** A machine is attached exactly while the row waits for it: from then on the row names it, under this provider. */
  lemma {:induction false} AttachDoes(t: Table, j: JobId, vm: Resource)
    ensures var t' := Attach(t, j, vm);
      if j in t.agents && t.agents[j].status.Provisioning? && !t.agents[j].stopped
      then OnlyRow(t, t', j) && t'.agents[j] == t.agents[j].(vm := Some(vm), provided := true) && Holds(t'.agents[j])
      else t' == t
  {}

  /** An attempt that failed keeps its slot, marked unknown, as long as it is still this attempt's. */
  lemma {:induction false} UnknownDoes(t: Table, j: JobId, reservation: Resource)
    ensures var t' := CreateUnknown(t, j, reservation);
      if j in t.agents && t.agents[j].status.Provisioning? && t.agents[j].reservation == Some(reservation)
      then
        && OnlyRow(t, t', j) && t'.agents[j] == t.agents[j].(status := ProvisionUnknown)
        && (Holds(t'.agents[j]) <==> Holds(t.agents[j]))
      else t' == t
  {}

  /** A late machine is taken over for deletion exactly if its reservation still stands for it. */
  lemma {:induction false} ResolveDoes(t: Table, j: JobId, vm: Resource, reservation: Resource)
    ensures var t' := Resolve(t, j, vm, reservation);
      if j in t.agents && t.agents[j].reservation == Some(reservation) && t.agents[j].vm == Some(reservation)
      then
        && OnlyRow(t, t', j)
        && t'.agents[j] == t.agents[j].(vm := Some(vm), status := ProvisionTimeout, stopped := true)
      else t' == t
  {}

  /** A failed start stops the row and gives the machine back exactly if it is deleted. */
  lemma {:induction false} ReleaseDoes(t: Table, j: JobId, deleted: bool)
    requires j in t.agents
    ensures var t' := Release(t, j, deleted);
      && OnlyRow(t, t', j) && t'.agents[j].stopped && t'.agents[j].status == StartFailed
      && t'.agents[j].vm == (if deleted then None else t.agents[j].vm)
      && t'.agents[j] == t.agents[j].(stopped := true, status := StartFailed, vm := t'.agents[j].vm)
  {}

  /** A claim makes the row live; its machine stays if it has a provider, and is the caller's name otherwise. */
  lemma {:induction false} ClaimDoes(t: Table, j: JobId, r: RunId, caller: Resource)
    ensures var t' := ClaimRow(t, j, r, caller);
      && OnlyRow(t, t', j) && !t'.agents[j].stopped && t'.agents[j].status == AgentClaimed
      && (j in t.agents && t.agents[j].provided ==>
            t'.agents[j] == t.agents[j].(stopped := false, status := AgentClaimed))
      && (j in t.agents && !t.agents[j].provided ==>
            t'.agents[j] == t.agents[j].(stopped := false, status := AgentClaimed, vm := Some(caller)))
      && (j !in t.agents ==> t'.agents[j] == Slot(r, AgentClaimed, Some(caller), false, None, false))
  {}

  /** The slot of a stopped row is free once its machine is gone, and a reservation's once it is known to be absent. */
  lemma {:induction false} FreeingDoes(t: Table, j: JobId, vm: Resource)
    ensures var t' := Freed(t, j, vm);
      if j in t.agents && t.agents[j].stopped && t.agents[j].vm == Some(vm)
      then OnlyRow(t, t', j) && t'.agents[j] == t.agents[j].(vm := None) else t' == t
    ensures var t' := Absent(t, j, vm);
      if j in t.agents && t.agents[j].vm == Some(vm)
      then OnlyRow(t, t', j) && t'.agents[j] == t.agents[j].(vm := None, status := ProvisionAbsent, stopped := true)
      else t' == t
  {}

  /** An agent that reports in marks its row running and changes nothing else. */
  lemma {:induction false} RunDoes(t: Table, caps: Caps, j: JobId)
    requires j in t.agents
    ensures var t' := Next(t, caps, DoRun(j)); OnlyRow(t, t', j) && t'.agents[j] == t.agents[j].(status := AgentRunning)
  {}

  /** A timeout and a stop end the row and keep its machine. */
  lemma {:induction false} StoppingDoes(t: Table, j: JobId, status: SlotStatus)
    requires j in t.agents
    ensures var t' := StopAgent(t, j, status);
      OnlyRow(t, t', j) && t'.agents[j] == t.agents[j].(status := status, stopped := true)
    ensures var t' := TimeOut(t, j); var s := t.agents[j];
      if s.provided && !s.stopped && (s.status.Provisioning? || s.status.ProvisionUnknown?)
      then OnlyRow(t, t', j) && t'.agents[j] == s.(status := ProvisionTimeout, stopped := true)
      else t' == t
  {}

  lemma LeadsCons(t: Table, caps: Caps, s: Step, rest: seq<Step>, t': Table)
    requires Enabled(t, s) && Leads(Next(t, caps, s), caps, rest, t')
    ensures Leads(t, caps, [s] + rest, t')
  {
    assert ([s] + rest)[1..] == rest;
  }

  lemma {:induction false} LeadsJoin(
      t: Table, caps: Caps, first: seq<Step>, t': Table, rest: seq<Step>, t'': Table)
    requires Leads(t, caps, first, t') && Leads(t', caps, rest, t'')
    ensures Leads(t, caps, first + rest, t'')
    decreases |first|
  {
    if first == [] {
      assert [] + rest == rest;
    } else {
      hide Enabled, Next;
      LeadsJoin(Next(t, caps, first[0]), caps, first[1..], t', rest, t'');
      assert (first + rest)[1..] == first[1..] + rest;
    }
  }

  lemma {:induction false} LeadsOn(t: Table, caps: Caps, steps: seq<Step>, t': Table, s: Step)
    requires Leads(t, caps, steps, t') && Enabled(t', s)
    ensures Leads(t, caps, steps + [s], Next(t', caps, s))
  {
    var t'' := Next(t', caps, s);
    assert Leads(t'', caps, [], t'') && [s][1..] == [];
    hide Next, Enabled;
    LeadsJoin(t, caps, steps, t', [s], t'');
  }

  /** A stopped row from before rows recorded their provider, and another job, both waiting in one run. */
  const OLD_TABLE := Table(
    map[1 := Slot(0, Ended, None, false, None, true)], map[0 := RunInfo(0, 2, false, 0, 1, false, 0, 0)], {1, 2})

  /**
   * It happens with a row that is older than its provider column: the takeover of such
   * a row is not counted, a second job reserves the only slot, and the attachment of the
   * first machine makes two.
   */
  lemma {:induction false} OldRowSlipsPast() returns (steps: seq<Step>, t: Table)
    ensures Homed(OLD_TABLE) && Within(OLD_TABLE, Caps(1, 1))
    ensures Leads(OLD_TABLE, Caps(1, 1), steps, t) && |Holding(t)| == 2
  {
    var caps, first, second, attach := Caps(1, 1), DoReserve(1, 0, 11), DoReserve(2, 0, 12), DoAttach(1, 21);
    assert Holding(OLD_TABLE) == {} && LiveIn(OLD_TABLE, 0) == {};
    forall u ensures HeldBy(OLD_TABLE, u) == {} {}
    var t1 := Next(OLD_TABLE, caps, first);
    assert Holding(t1) == {} && HeldBy(t1, 0) == {} && LiveIn(t1, 0) == {1};
    var t2 := Next(t1, caps, second);
    t := Next(t2, caps, attach);
    assert Holding(t) == {1, 2};
    assert Leads(t, caps, [], t);
    LeadsCons(t2, caps, attach, [], t);
    LeadsCons(t1, caps, second, [attach] + [], t);
    LeadsCons(OLD_TABLE, caps, first, [second] + ([attach] + []), t);
    steps := [first] + ([second] + ([attach] + []));
  }

  /* ------------------------------- one batch of pending jobs ------------------------------- */

  /** A queued job that may be provisioned, with its place in its run's own order. */
  datatype Candidate = Candidate(job: JobId, run: RunId, rank: nat)

  /** `ROW_NUMBER` over each run: places start at one and no two candidates of a run share one. */
  predicate Ranked(cs: set<Candidate>) {
    && (forall c :: c in cs ==> c.rank >= 1)
    && forall c, d :: c in cs && d in cs && c.run == d.run && c.rank == d.rank ==> c == d
  }

  /** What the batch query keeps, before its limit: candidates whose place still fits under the run's cap. */
  function Fitting(t: Table, cs: set<Candidate>): set<Candidate> {
    set c | c in cs && c.run in t.runs && |LiveIn(t, c.run)| + c.rank <= t.runs[c.run].maxConcurrent
  }

  function PicksOf(batch: set<Candidate>, r: RunId): set<Candidate> { set c | c in batch && c.run == r }

  lemma AtMostOne(s: set<Candidate>)
    requires forall c, d :: c in s && d in s ==> c == d
    ensures |s| <= 1
  {
    if c :| c in s { assert s == {c}; }
  }

  lemma {:induction false} RanksBelow(cs: set<Candidate>, r: RunId, n: nat)
    requires Ranked(cs) && forall c :: c in cs ==> c.run == r && c.rank <= n
    ensures |cs| <= n
    decreases n
  {
    if cs != {} {
      assert n >= 1;
      var top, rest := set c | c in cs && c.rank == n, set c | c in cs && c.rank < n;
      assert cs == rest + top && Ranked(rest);
      AtMostOne(top);
      hide Ranked;
      RanksBelow(rest, r, n - 1);
    }
  }

  /**
   * A batch never picks more of a run's jobs than its cap leaves room for, whatever
   * part of the fitting candidates the limit lets through.
   */
  lemma {:induction false} BatchFits(t: Table, cs: set<Candidate>, batch: set<Candidate>, r: RunId)
    requires Ranked(cs) && batch <= Fitting(t, cs) && r in t.runs
    ensures |PicksOf(batch, r)| <= Max(0, t.runs[r].maxConcurrent - |LiveIn(t, r)|)
  {
    RanksBelow(PicksOf(batch, r), r, Max(0, t.runs[r].maxConcurrent - |LiveIn(t, r)|));
  }

  /** `ROW_NUMBER` leaves no place out: below every candidate of a run all its places are taken. */
  predicate Dense(cs: set<Candidate>) {
    forall c :: c in cs ==> forall n: nat :: 1 <= n && n <= c.rank ==> Taken(cs, c.run, n)
  }

  predicate Taken(cs: set<Candidate>, r: RunId, place: nat) { exists d :: d in cs && d.run == r && d.rank == place }

  /**
   * And it leaves none out for nothing: a candidate of a known run fits exactly if its
   * place is within the room, and if it does not, every place within the room is taken by
   * one that does.
   */
  lemma {:induction false} LeftOutForRoom(t: Table, cs: set<Candidate>, c: Candidate, n: nat)
    requires Dense(cs) && c in cs && c.run in t.runs && |LiveIn(t, c.run)| + n <= t.runs[c.run].maxConcurrent && n >= 1
    ensures c in Fitting(t, cs) <==> |LiveIn(t, c.run)| + c.rank <= t.runs[c.run].maxConcurrent
    ensures c !in Fitting(t, cs) ==> Taken(Fitting(t, cs), c.run, n)
  {
    hide LiveIn;
    if c !in Fitting(t, cs) {
      assert Taken(cs, c.run, n);
      var d :| d in cs && d.run == c.run && d.rank == n;
      assert d in Fitting(t, cs);
    }
  }

  /** And a reservation never brings a run's live rows above its cap. */
  lemma {:induction false} ReservationLive(t: Table, caps: Caps, j: JobId, r: RunId, reservation: Resource)
    requires HasRoom(t, caps, j, r) && MayTake(t, j) && (j in t.agents ==> t.agents[j].run == r)
    ensures |LiveIn(Reserve(t, caps, j, r, reservation), r)| == |LiveIn(t, r)| + 1 <= t.runs[r].maxConcurrent
  {
    assert LiveIn(Reserve(t, caps, j, r, reservation), r) == LiveIn(t, r) + {j};
  }
}
