/** The statements of the provisioner and the reconciler on the agent rows, proved against `Slots`. */
module Provisioner {
  import opened Common
  import opened Events
  import opened Slots
  import S = Slots

  /** A machine of the provider's inventory, with the labels its creation request carried. */
  datatype Machine = Machine(id: Resource, reservation: Option<Resource>, job: JobId, run: RunId, dead: bool)

  /**
   * Clock readings of a pass: which rows are still within their startup window, and which
   * are past the grace period.
   */
  datatype Ages = Ages(young: set<JobId>, overdue: set<JobId>)

  /** The row still names its reservation, not a machine. */
  predicate Unresolved(s: Slot) { s.reservation.Some? && s.vm == s.reservation }

  predicate Matches(m: Machine, j: JobId, s: Slot) {
    Unresolved(s) && m.reservation == s.reservation && m.job == j && m.run == s.run
  }

  /** The first machine of the inventory that carries the row's labels. */
  function MatchOf(inventory: seq<Machine>, j: JobId, s: Slot): Option<Machine>
    decreases |inventory|
  {
    if inventory == [] then None
    else if Matches(inventory[0], j, s) then Some(inventory[0])
    else MatchOf(inventory[1..], j, s)
  }

  predicate Starting(s: Slot, j: JobId, ages: Ages) { s.status.Provisioning? && !s.stopped && j in ages.young }

  predicate Healthy(inventory: seq<Machine>, vm: Resource) {
    exists i :: 0 <= i < |inventory| && inventory[i].id == vm && !inventory[i].dead
  }

  /** What a pass makes of one row, given the inventory. */
  function Reconciled(inventory: seq<Machine>, ages: Ages, j: JobId, s: Slot): Slot {
    if !Holds(s) then s
    else if Unresolved(s) then
      var m := MatchOf(inventory, j, s);
      if m.Some? then (if Starting(s, j, ages) then s
        else s.(vm := Some(m.value.id), status := ProvisionTimeout, stopped := true))
      else if j in ages.overdue then s.(vm := None, status := ProvisionAbsent, stopped := true)
      else s
    else if s.stopped || Healthy(inventory, s.vm.value) then s
    else s.(status := Lost, stopped := true)
  }

  /* -------------------------- what a pass decides -------------------------- */

  /** The machine carries the labels of the row's reservation. */
  predicate Carries(m: Machine, j: JobId, s: Slot) {
    s.reservation.Some? && m.reservation == s.reservation && m.job == j && m.run == s.run
  }

  predicate FirstCarrier(inventory: seq<Machine>, j: JobId, s: Slot, i: nat) {
    && i < |inventory| && Carries(inventory[i], j, s)
    && forall k :: 0 <= k < i ==> !Carries(inventory[k], j, s)
  }

  /** The provider has no such machine any more, or only a dead one. */
  predicate Vanished(inventory: seq<Machine>, vm: Resource) {
    forall i :: 0 <= i < |inventory| && inventory[i].id == vm ==> inventory[i].dead
  }

  /** A row that waits for its reservation to become a machine. */
  predicate Reserved(s: Slot) { s.provided && s.vm.Some? && s.reservation == s.vm }

  /** A row with a machine of its own. */
  predicate Attached(s: Slot) { s.provided && s.vm.Some? && s.reservation != s.vm }

  /** A create call may still be on its way for the row. */
  predicate MayStillStart(s: Slot, j: JobId, ages: Ages) { s.status.Provisioning? && !s.stopped && j in ages.young }

  /**
   * What becomes of a row, case by case. A running row is lost exactly when its machine
   * has vanished. A reservation takes the first machine that carries its labels, unless
   * it may still be starting; with none, it is given up once it is overdue. Nothing else
   * changes.
   */
  ghost predicate Decided(inventory: seq<Machine>, ages: Ages, j: JobId, s: Slot, s': Slot) {
    if Attached(s) && !s.stopped then
      s' == if Vanished(inventory, s.vm.value) then s.(status := Lost, stopped := true) else s
    else if Reserved(s) then
      && (forall i: nat :: FirstCarrier(inventory, j, s, i) ==>
            s' == if MayStillStart(s, j, ages) then s
                  else s.(vm := Some(inventory[i].id), status := ProvisionTimeout, stopped := true))
      && ((forall i: nat :: !FirstCarrier(inventory, j, s, i)) ==>
            s' == if j in ages.overdue then s.(vm := None, status := ProvisionAbsent, stopped := true) else s)
    else s' == s
  }

  /** The first machine that carries the labels is the one `MatchOf` finds, and it finds one if there is one. */
  lemma {:induction false} FirstFound(inventory: seq<Machine>, j: JobId, s: Slot) returns (i: nat)
    requires Reserved(s)
    ensures if MatchOf(inventory, j, s).Some?
      then FirstCarrier(inventory, j, s, i) && MatchOf(inventory, j, s).value == inventory[i]
      else forall k :: 0 <= k < |inventory| ==> !Carries(inventory[k], j, s)
    decreases |inventory|
  {
    i := 0;
    if inventory != [] && !Matches(inventory[0], j, s) {
      i := FirstFound(inventory[1..], j, s);
      if MatchOf(inventory, j, s).Some? {
        i := i + 1;
        forall k | 0 <= k < i ensures !Carries(inventory[k], j, s) {
          if k > 0 { assert inventory[k] == inventory[1..][k - 1]; }
        }
      } else {
        forall k | 0 <= k < |inventory| ensures !Carries(inventory[k], j, s) {
          if k > 0 { assert inventory[k] == inventory[1..][k - 1]; }
        }
      }
    }
  }

  lemma OnlyOneFirst(inventory: seq<Machine>, j: JobId, s: Slot, i: nat, k: nat)
    requires FirstCarrier(inventory, j, s, i) && FirstCarrier(inventory, j, s, k)
    ensures i == k
  {}

  lemma {:induction false} ReconcileDecides(inventory: seq<Machine>, ages: Ages, j: JobId, s: Slot)
    ensures Decided(inventory, ages, j, s, Reconciled(inventory, ages, j, s))
  {
    if Reserved(s) {
      var i := FirstFound(inventory, j, s);
      if MatchOf(inventory, j, s).Some? {
        forall k: nat | FirstCarrier(inventory, j, s, k) ensures k == i { OnlyOneFirst(inventory, j, s, i, k); }
      }
      hide MatchOf, Carries;
    }
  }

  /** Machine identifiers are unique, and none is also the name of a reservation. */
  predicate Proper(inventory: seq<Machine>, agents: map<JobId, Slot>) {
    && (forall i, k :: 0 <= i < k < |inventory| ==> inventory[i].id != inventory[k].id)
    && forall i, j :: 0 <= i < |inventory| && j in agents ==> agents[j].reservation != Some(inventory[i].id)
  }

  lemma {:induction false} MatchFound(inventory: seq<Machine>, j: JobId, s: Slot, i: nat)
    requires i < |inventory| && Matches(inventory[i], j, s)
    ensures MatchOf(inventory, j, s).Some?
    decreases |inventory|
  {
    if !Matches(inventory[0], j, s) {
      assert inventory[1..][i - 1] == inventory[i];
      MatchFound(inventory[1..], j, s, i - 1);
    }
  }

  lemma {:induction false} MatchExtends(inventory: seq<Machine>, m: Machine, j: JobId, s: Slot)
    ensures MatchOf(inventory + [m], j, s) ==
      if MatchOf(inventory, j, s).Some? then MatchOf(inventory, j, s) else if Matches(m, j, s) then Some(m) else None
    decreases |inventory|
  {
    if inventory == [] {
      assert [m][1..] == [];
    } else {
      assert (inventory + [m])[1..] == inventory[1..] + [m];
      MatchExtends(inventory[1..], m, j, s);
    }
  }

  /** The rows after the machines seen so far have been looked at. */
  function Found(inventory: seq<Machine>, ages: Ages, j: JobId, s: Slot): Slot {
    var m := MatchOf(inventory, j, s);
    if Holds(s) && m.Some? && !Starting(s, j, ages)
      then s.(vm := Some(m.value.id), status := ProvisionTimeout, stopped := true) else s
  }

  /** What one machine of the inventory makes of a row. */
  function Settled(s: Slot, j: JobId, m: Machine, ages: Ages): Slot {
    if Matches(m, j, s) && Holds(s) && !Starting(s, j, ages)
      then s.(vm := Some(m.id), status := ProvisionTimeout, stopped := true) else s
  }

  lemma {:induction false} FoundStep(inventory: seq<Machine>, m: Machine, ages: Ages, j: JobId, s: Slot)
    requires forall i :: 0 <= i < |inventory| ==> s.reservation != Some(inventory[i].id)
    ensures Found(inventory + [m], ages, j, s) == Settled(Found(inventory, ages, j, s), j, m, ages)
  {
    MatchExtends(inventory, m, j, s);
    MatchIsSeen(inventory, j, s);
  }

  /** A row that never got past provisioning, past its deadline, whose job is still queued. */
  predicate Stale(s: Slot, j: JobId, ages: Ages, queued: set<JobId>) {
    Unfinished(s) && j in queued && j in ages.overdue
  }

  function StaleRows(agents: map<JobId, Slot>, ages: Ages, queued: set<JobId>): set<JobId> {
    set j | j in agents && Stale(agents[j], j, ages, queued)
  }

  /**
   * What the timeout pass makes of a row; `deleted` are the jobs whose machine the provider
   * confirms it has deleted.
   */
  function Expired(s: Slot, j: JobId, ages: Ages, queued: set<JobId>, deleted: set<JobId>): Slot {
    if !Stale(s, j, ages, queued) then s
    else
      var timedOut := s.(status := ProvisionTimeout, stopped := true);
      if s.vm.Some? && s.vm != s.reservation && j in deleted then timedOut.(vm := None) else timedOut
  }

  /** A stopped row that still names a machine. */
  predicate Reclaimable(s: Slot) { Holds(s) && s.stopped && s.vm != s.reservation }

  /** What reclaiming makes of a row: only a machine is given back, never an unresolved reservation. */
  function Reclaimed(s: Slot, j: JobId, deleted: set<JobId>): Slot {
    if Reclaimable(s) && j in deleted then s.(vm := None) else s
  }

  /** The provider's answers: the machine if the create call returns one, and whether start and deletion succeed. */
  datatype Answer = Answer(created: Option<Resource>, started: bool, deleted: bool)

  /** How a provisioning attempt ends. */
  datatype Provisioned =
    | Refused
    | Unknown
    | Late(vm: Resource)
    | Started(vm: Resource)
    | NotStarted(vm: Resource, deleted: bool)

  /** The row still waits for its machine. */
  predicate Waiting(t: Table, j: JobId) { j in t.agents && t.agents[j].status.Provisioning? && !t.agents[j].stopped }

  /** The last statement of an attempt leaves the row as its end says. */
  predicate Closes(end: Provisioned, steps: seq<S.Step>, j: JobId, reservation: Resource) {
    end.Refused? ||
    (steps != [] &&
      steps[|steps| - 1] == match end
        case Unknown => DoUnknown(j, reservation)
        case NotStarted(_, deleted) => DoRelease(j, deleted)
        case Late(vm) => DoAttach(j, vm)
        case Started(vm) => DoAttach(j, vm))
  }

  class Plane {
    var agents: map<JobId, Slot>
    var runs: map<RunId, RunInfo>
    var queued: set<JobId>

    function State(): Table
      reads this
    {
      Table(agents, runs, queued)
    }

    constructor ()
      ensures State() == EMPTY_TABLE
    {
      agents, runs, queued := map[], map[], {};
    }

    /** The reads a reservation decides by, under its locks. */
    method Check(caps: Caps, j: JobId, r: RunId) returns (ok: bool)
      ensures ok == HasRoom(State(), caps, j, r)
    {
      if r !in runs { return false; }
      var owner, info := runs[r].owner, runs[r];
      var total := set k | k in agents && agents[k].vm.Some? && agents[k].provided;
      var owned := set k | k in total && agents[k].run in runs && runs[agents[k].run].owner == owner;
      assert total == Holding(State()) && owned == HeldBy(State(), owner);
      if |total| >= caps.total || |owned| >= caps.perUser { return false; }
      if j !in queued { return false; }
      if info.over { return false; }
      var live := set k | k in agents && agents[k].run == r && !agents[k].stopped;
      assert live == LiveIn(State(), r);
      ok := |live| < info.maxConcurrent && info.vmSeconds < info.maxVmSeconds
        && (!info.priced || info.usdCents < info.maxUsdCents);
    }

    /** The slot reservation of `provision`; false when there is no room or the row is taken. */
    method Reserve(caps: Caps, j: JobId, r: RunId, reservation: Resource) returns (ok: bool)
      modifies this`agents
      ensures ok == (HasRoom(old(State()), caps, j, r) && MayTake(old(State()), j))
      ensures State() == S.Reserve(old(State()), caps, j, r, reservation)
    {
      ok := Check(caps, j, r);
      if !ok { return; }
      if j !in agents {
        agents := agents[j := Slot(r, Provisioning, Some(reservation), true, Some(reservation), false)];
      } else {
        ok := agents[j].stopped && (agents[j].vm.None? || !agents[j].provided);
        if ok {
          agents := agents[j :=
            agents[j].(status := Provisioning, vm := Some(reservation),
              reservation := Some(reservation), stopped := false)];
        }
      }
    }

    /** Attaches the machine; false means the reservation is gone and the machine must be destroyed. */
    method Attach(j: JobId, vm: Resource) returns (ok: bool)
      modifies this`agents
      ensures State() == S.Attach(old(State()), j, vm)
      ensures ok == (j in old(agents) && old(agents)[j].status.Provisioning? && !old(agents)[j].stopped)
    {
      ok := j in agents && agents[j].status.Provisioning? && !agents[j].stopped;
      if ok { agents := agents[j := agents[j].(vm := Some(vm), provided := true)]; }
    }

    /** A response that came after its timeout; false means nobody waits for the machine any more. */
    method LateResponse(j: JobId, vm: Resource, reservation: Resource) returns (kept: bool)
      modifies this`agents
      ensures State() == Resolve(old(State()), j, vm, reservation)
      ensures kept == (j in old(agents) && old(agents)[j].reservation == Some(reservation) == old(agents)[j].vm)
    {
      kept := j in agents && agents[j].reservation == Some(reservation) && agents[j].vm == Some(reservation);
      if kept { agents := agents[j := agents[j].(vm := Some(vm), status := ProvisionTimeout, stopped := true)]; }
    }

    /** The create call failed or timed out. */
    method CreateFailed(j: JobId, reservation: Resource)
      modifies this`agents
      ensures State() == CreateUnknown(old(State()), j, reservation)
    {
      if j in agents && agents[j].reservation == Some(reservation) && agents[j].status.Provisioning? {
        agents := agents[j := agents[j].(status := ProvisionUnknown)];
      }
    }

    /** `#release` */
    method Release(j: JobId, deleted: bool)
      modifies this`agents
      ensures State() == S.Release(old(State()), j, deleted)
    {
      if j in agents {
        var s := agents[j].(status := StartFailed, stopped := true);
        agents := agents[j := if deleted then s.(vm := None) else s];
      }
    }

    /** What other processes do to the table while this one waits: those of `others` that can happen. */
    method Elsewhere(caps: Caps, others: seq<S.Step>) returns (ghost steps: seq<S.Step>)
      modifies this
      ensures Leads(old(State()), caps, steps, State())
    {
      steps := [];
      for i := 0 to |others|
        invariant Leads(old(State()), caps, steps, State())
      {
        var s := others[i];
        if Enabled(State(), s) {
          LeadsOn(old(State()), caps, steps, State(), s);
          var t := S.Next(State(), caps, s);
          agents, runs, queued := t.agents, t.runs, t.queued;
          steps := steps + [s];
        }
      }
    }

    /**
     * `provision`, statement by statement, with anything going on elsewhere while it waits.
     * Its statements and everybody else's are one history of the table, so the caps hold
     * throughout; a machine is given up only if nothing waits for it by then. `answer`
     * is what the provider does and `others` what other processes do.
     */
    method Provision(
        caps: Caps, j: JobId, r: RunId, reservation: Resource, answer: Answer, others: (seq<S.Step>, seq<S.Step>))
        returns (end: Provisioned, ghost steps: seq<S.Step>)
      requires j in agents ==> agents[j].run == r
      modifies this
      ensures Leads(old(State()), caps, steps, State())
      ensures Within(old(State()), caps) && Homed(old(State())) && AllSane(old(State())) ==>
        AlwaysWithin(old(State()), caps, steps)
      ensures end.Refused? <==> !HasRoom(old(State()), caps, j, r) || !MayTake(old(State()), j)
      ensures end.Refused? ==> State() == old(State())
      ensures !end.Refused? ==> steps != [] && steps[0] == DoReserve(j, r, reservation)
      ensures Closes(end, steps, j, reservation)
      ensures end.Late? ==> !Waiting(State(), j)
      ensures end.Started? ==> j in agents && Holds(agents[j]) && agents[j].vm == Some(end.vm)
    {
      ghost var before := State();
      var ok := Reserve(caps, j, r, reservation);
      steps := [];
      if !ok { return Refused, []; }
      LeadsOn(before, caps, [], before, DoReserve(j, r, reservation));
      ghost var during := Elsewhere(caps, others.0);
      LeadsJoin(before, caps, [DoReserve(j, r, reservation)], S.Reserve(before, caps, j, r, reservation),
        during, State());
      steps := [DoReserve(j, r, reservation)] + during;
      end, steps := Created(caps, j, reservation, answer, others.1, before, steps);
      if Within(before, caps) && Homed(before) && AllSane(before) { SaneKeepsCaps(before, caps, steps, State()); }
    }

    /** The part of `provision` from the provider's answer on. */
    method Created(
        caps: Caps, j: JobId, reservation: Resource, answer: Answer, others: seq<S.Step>,
        ghost before: Table, ghost sofar: seq<S.Step>)
        returns (end: Provisioned, ghost steps: seq<S.Step>)
      requires Leads(before, caps, sofar, State()) && sofar != []
      modifies this
      ensures Leads(before, caps, steps, State()) && sofar <= steps && !end.Refused?
      ensures Closes(end, steps, j, reservation)
      ensures end.Late? ==> !Waiting(State(), j)
      ensures end.Started? ==> j in agents && Holds(agents[j]) && agents[j].vm == Some(end.vm)
    {
      if answer.created.None? {
        LeadsOn(before, caps, sofar, State(), DoUnknown(j, reservation));
        CreateFailed(j, reservation);
        return Unknown, sofar + [DoUnknown(j, reservation)];
      }
      var vm := answer.created.value;
      LeadsOn(before, caps, sofar, State(), DoAttach(j, vm));
      steps := sofar + [DoAttach(j, vm)];
      var attached := Attach(j, vm);
      if !attached { return Late(vm), steps; }
      if answer.started { return Started(vm), steps; }
      ghost var middle := State();
      ghost var during := Elsewhere(caps, others);
      LeadsJoin(before, caps, steps, middle, during, State());
      steps := steps + during;
      LeadsOn(before, caps, steps, State(), DoRelease(j, answer.deleted));
      Release(j, answer.deleted);
      return NotStarted(vm, answer.deleted), steps + [DoRelease(j, answer.deleted)];
    }

    /** The upsert of `/agent/claim`. */
    method ClaimUpsert(j: JobId, r: RunId, caller: Resource)
      modifies this`agents
      ensures State() == ClaimRow(old(State()), j, r, caller)
    {
      if j !in agents {
        agents := agents[j := Slot(r, AgentClaimed, Some(caller), false, None, false)];
      } else {
        var s := agents[j].(status := AgentClaimed, stopped := false);
        agents := agents[j := if s.provided then s else s.(vm := Some(caller))];
      }
    }

    /** `reapStaleProvisioning`: first every stale row is timed out, then the machines among them are destroyed. */
    method ReapStale(ages: Ages, queued: set<JobId>, deleted: set<JobId>) returns (count: nat)
      modifies this`agents
      ensures agents == map j | j in old(agents) :: Expired(old(agents)[j], j, ages, queued, deleted)
      ensures count == |StaleRows(old(agents), ages, queued)|
    {
      var rows := StaleRows(agents, ages, queued);
      count := |rows|;
      agents := map j | j in agents :: if j in rows then agents[j].(status := ProvisionTimeout, stopped := true)
        else agents[j];
      var todo := rows;
      while todo != {}
        invariant todo <= rows && agents.Keys == old(agents).Keys
        invariant forall j :: j in agents && j !in todo ==>
          agents[j] == Expired(old(agents)[j], j, ages, queued, deleted)
        invariant forall j :: j in todo ==> agents[j] == old(agents)[j].(status := ProvisionTimeout, stopped := true)
        decreases todo
      {
        var j :| j in todo;
        todo := todo - {j};
        if agents[j].vm.Some? && agents[j].vm != agents[j].reservation && j in deleted {
          agents := agents[j := agents[j].(vm := None)];
        }
      }
    }

    /** `reclaim`: destroys the machines of stopped rows, and forgets those whose deletion is confirmed. */
    method Reclaim(deleted: set<JobId>) returns (destroyed: nat)
      modifies this`agents
      ensures agents == map j | j in old(agents) :: Reclaimed(old(agents)[j], j, deleted)
    {
      var todo := set j | j in agents && Reclaimable(agents[j]);
      destroyed := 0;
      while todo != {}
        invariant todo <= agents.Keys == old(agents).Keys
        invariant forall j :: j in agents && j !in todo ==> agents[j] == Reclaimed(old(agents)[j], j, deleted)
        invariant forall j :: j in todo ==> agents[j] == old(agents)[j] && Reclaimable(agents[j])
        decreases todo
      {
        var j :| j in todo;
        todo := todo - {j};
        if j in deleted {
          destroyed := destroyed + 1;
          agents := agents[j := agents[j].(vm := None)];
        }
      }
    }

    /** First half of a pass: machines that carry a row's reservation resolve it. */
    method ResolveFound(inventory: seq<Machine>, ages: Ages)
      requires Proper(inventory, agents)
      modifies this`agents
      ensures agents == map j | j in old(agents) :: Found(inventory, ages, j, old(agents)[j])
    {
      ghost var before := agents;
      for i := 0 to |inventory|
        invariant agents.Keys == before.Keys
        invariant forall j :: j in before ==> agents[j] == Found(inventory[..i], ages, j, before[j])
      {
        var m := inventory[i];
        assert inventory[..i + 1] == inventory[..i] + [m];
        forall j | j in before
          ensures Found(inventory[..i + 1], ages, j, before[j])
            == Settled(Found(inventory[..i], ages, j, before[j]), j, m, ages)
        {
          FoundStep(inventory[..i], m, ages, j, before[j]);
        }
        if m.job in agents {
          var s := agents[m.job];
          if Matches(m, m.job, s) && Holds(s) && !Starting(s, m.job, ages) {
            agents := agents[m.job := s.(vm := Some(m.id), status := ProvisionTimeout, stopped := true)];
          }
        }
      }
      assert inventory[..|inventory|] == inventory;
    }

    /**
     * Second half: reservations nothing was found for, and machines that are gone.
     * `tracked` is the pass's snapshot.
     */
    method MarkMissing(inventory: seq<Machine>, ages: Ages, tracked: map<JobId, Slot>)
      requires agents == map j | j in tracked :: Found(inventory, ages, j, tracked[j])
      modifies this`agents
      ensures agents == map j | j in tracked :: Reconciled(inventory, ages, j, tracked[j])
    {
      ghost var before := agents;
      var todo := tracked.Keys;
      while todo != {}
        invariant todo <= tracked.Keys == agents.Keys
        invariant forall j :: j in todo ==> agents[j] == Found(inventory, ages, j, tracked[j])
        invariant forall j :: j in tracked && j !in todo ==> agents[j] == Reconciled(inventory, ages, j, tracked[j])
        decreases todo
      {
        var j :| j in todo;
        todo := todo - {j};
        var s := tracked[j];
        NotFound(inventory, ages, j, s);
        if Holds(s) {
          if Unresolved(s) {
            if MatchOf(inventory, j, s).None? && j in ages.overdue {
              agents := agents[j := agents[j].(vm := None, status := ProvisionAbsent, stopped := true)];
            }
          } else if !s.stopped && !Healthy(inventory, s.vm.value) {
            agents := agents[j := agents[j].(status := Lost, stopped := true)];
          }
        }
      }
    }

    /** `reconcile`: every row becomes what the inventory says it is. */
    method Reconcile(inventory: seq<Machine>, ages: Ages)
      requires Proper(inventory, agents)
      modifies this`agents
      ensures agents == map j | j in old(agents) :: Reconciled(inventory, ages, j, old(agents)[j])
      ensures forall j :: j in old(agents) ==> Decided(inventory, ages, j, old(agents)[j], agents[j])
    {
      var tracked := agents;
      ResolveFound(inventory, ages);
      MarkMissing(inventory, ages, tracked);
      forall j | j in tracked ensures Decided(inventory, ages, j, tracked[j], agents[j]) {
        ReconcileDecides(inventory, ages, j, tracked[j]);
      }
    }
  }

  lemma {:induction false} MatchIsSeen(inventory: seq<Machine>, j: JobId, s: Slot)
    ensures MatchOf(inventory, j, s).Some? ==>
      exists i :: 0 <= i < |inventory| && inventory[i] == MatchOf(inventory, j, s).value && Matches(inventory[i], j, s)
    decreases |inventory|
  {
    if inventory != [] && !Matches(inventory[0], j, s) {
      MatchIsSeen(inventory[1..], j, s);
      if MatchOf(inventory[1..], j, s).Some? {
        var i :| 0 <= i < |inventory[1..]| && inventory[1..][i] == MatchOf(inventory[1..], j, s).value
          && Matches(inventory[1..][i], j, s);
        assert inventory[i + 1] == inventory[1..][i];
      }
    }
  }

  lemma NotFound(inventory: seq<Machine>, ages: Ages, j: JobId, s: Slot)
    ensures !Unresolved(s) ==> Found(inventory, ages, j, s) == s
  {
    MatchIsSeen(inventory, j, s);
  }

  /**
   * A pass never makes a row hold a slot, and frees one exactly when its reservation is
   * past the grace period and no machine of the inventory carries its labels: an
   * ambiguous creation keeps its slot until the inventory has resolved it.
   */
  lemma {:induction false} ReconcileFreesOnlyAbsent(inventory: seq<Machine>, ages: Ages, j: JobId, s: Slot)
    ensures var s' := Reconciled(inventory, ages, j, s);
      && (Holds(s') ==> Holds(s))
      && (Holds(s) && !Holds(s') <==>
            Holds(s) && Unresolved(s) && j in ages.overdue
              && forall i :: 0 <= i < |inventory| ==> !Matches(inventory[i], j, s))
  {
    MatchIsSeen(inventory, j, s);
    if MatchOf(inventory, j, s).None? {
      forall i | 0 <= i < |inventory| ensures !Matches(inventory[i], j, s) {
        if Matches(inventory[i], j, s) { MatchFound(inventory, j, s, i); }
      }
    }
  }

  /**
   * A timeout or a reclaim gives a slot back exactly when the row names a machine, not
   * merely a reservation, and the provider confirms that the machine is gone.
   */
  lemma {:induction false} OnlyConfirmedDeletionsFree(
      s: Slot, j: JobId, ages: Ages, queued: set<JobId>, deleted: set<JobId>)
    ensures Holds(Expired(s, j, ages, queued, deleted)) || Holds(Reclaimed(s, j, deleted)) ==> Holds(s)
    ensures Holds(s) && !Holds(Expired(s, j, ages, queued, deleted)) <==>
      Holds(s) && Stale(s, j, ages, queued) && s.vm != s.reservation && j in deleted
    ensures Holds(s) && !Holds(Reclaimed(s, j, deleted))
      <==> Holds(s) && s.stopped && s.vm != s.reservation && j in deleted
  {}

  /**
   * The timeout decides by the row alone: one that is still being provisioned, whose job
   * waits in the queue and whose deadline has passed, is stopped, and loses its machine
   * exactly if it has one and the provider confirms its deletion; any other stays.
   */
  lemma {:induction false} ExpiryDecides(s: Slot, j: JobId, ages: Ages, queued: set<JobId>, deleted: set<JobId>)
    ensures var s' := Expired(s, j, ages, queued, deleted);
      if s.provided && !s.stopped && (s.status.Provisioning? || s.status.ProvisionUnknown?)
         && j in queued && j in ages.overdue
      then s' == s.(status := ProvisionTimeout, stopped := true,
                    vm := if s.vm.Some? && s.vm != s.reservation && j in deleted then None else s.vm)
      else s' == s
  {}

  /** Reclaiming takes the machine of a stopped row exactly if the provider confirms its deletion, and nothing else. */
  lemma {:induction false} ReclaimDecides(s: Slot, j: JobId, deleted: set<JobId>)
    ensures Reclaimed(s, j, deleted) ==
      s.(vm := if s.provided && s.stopped && s.vm.Some? && s.vm != s.reservation && j in deleted then None else s.vm)
  {}
}
