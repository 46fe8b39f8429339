/** What the launch protocol guarantees over all interleavings, stalls and crashes, and the
    exact timing condition its capacity guarantee rests on. */
module DispatchSafety {
  import opened Common
  import opened Placement
  import opened DispatchProtocol
  import opened DispatchInvariant
  import opened DispatchSteps
  import opened DispatchPreservation
  import opened DispatchOnce

  lemma {:induction false} InvariantRun(c: Config, s: State, steps: seq<Step>)
    requires Inv(c, s) && SharedLeasesOutlastLag(c) && Run(c, s, steps).Some?
    ensures Inv(c, Run(c, s, steps).value)
    decreases |steps|
  {
    if steps != [] {
      hide Inv;
      StepKeeps(c, s, steps[0]);
      InvariantRun(c, Next(c, s, steps[0]).value, steps[1..]);
    }
  }

  /** A state some run of the system reaches. */
  ghost predicate Reachable(c: Config, t: State) {
    exists s, steps :: Initial(c, s) && Run(c, s, steps) == Some(t)
  }

  lemma ReachableInv(c: Config, t: State)
    requires Reachable(c, t)
    ensures TimelessInv(c, t)
    ensures SharedLeasesOutlastLag(c) ==> Inv(c, t)
  {
    var s, steps :| Initial(c, s) && Run(c, s, steps) == Some(t);
    InitialTimeless(c, s);
    InitialOk(c, s);
    hide Inv, TimelessInv;
    TimelessRun(c, s, steps);
    if SharedLeasesOutlastLag(c) { InvariantRun(c, s, steps); }
  }

  lemma InitialTimeless(c: Config, s: State)
    requires Initial(c, s)
    ensures TimelessInv(c, s)
  {
  }

  // ---------- capacity ----------

  /** No machine ever runs more than it has, whatever the dispatchers do. */
  lemma CapacityIsNeverExceeded(c: Config, t: State, m: MachineId)
    requires Reachable(c, t) && SharedLeasesOutlastLag(c) && m in c.cores
    ensures CoresInUse(t, m) <= c.cores[m]
  {
    ReachableInv(c, t);
  }

  /** Launch windows exclude each other per machine, and the run of an open window owns the lease if that lease
      outlasts the lag. */
  lemma OneLaunchPerMachine(c: Config, t: State, r: RunId)
    requires Reachable(c, t) && SharedLeasesOutlastLag(c) && r in t.windows
    ensures Outlasts(c, r) ==> Holds(t, t.windows[r].machine, t.windows[r].token) && t.leases[t.windows[r].machine].run == r
    ensures forall x :: x in t.windows && t.windows[x].machine == t.windows[r].machine ==> x == r
  {
    ReachableInv(c, t);
    assert WindowOk(c, t, r);
    forall x | x in t.windows && t.windows[x].machine == t.windows[r].machine ensures x == r {
      assert WindowOk(c, t, x);
      OneWindowPerMachine(c, t, r, x);
    }
  }

  /** A run that appears on its machine keeps its lane within the slots its admitting probe saw. */
  lemma LandingKeepsItsLane(c: Config, t: State, r: RunId)
    requires Reachable(c, t) && SharedLeasesOutlastLag(c) && Next(c, t, O(Land(r))).Some?
    ensures var w, lane := t.windows[r], c.jobs[r].workloadClass;
            var u := Next(c, t, O(Land(r))).value;
            w.machine in c.cores && LaneCount(ActiveOn(u.live, w.machine), lane) <= w.slots && CoresInUse(u, w.machine) <= c.cores[w.machine]
  {
    ReachableInv(c, t);
    assert WindowOk(c, t, r);
    LandedRoom(c, t, r, t.windows[r].machine, c.jobs[r].workloadClass);
  }

  // ---------- launches and records, for any timing ----------

  /** The bootstrap of a run is attempted at most once, and only for a registered run. */
  lemma AtMostOneLaunch(c: Config, t: State, i: nat, j: nat)
    requires Reachable(c, t) && i < j < |t.sent|
    ensures t.sent[i] != t.sent[j] && t.sent[i] in t.exec
  {
    ReachableInv(c, t);
  }

  /** A row is dispatched only with an execution record behind it. */
  lemma DispatchedMeansRegistered(c: Config, t: State, r: RunId)
    requires Reachable(c, t) && r in t.queue && t.queue[r].status == Dispatched
    ensures r in t.exec
  {
    ReachableInv(c, t);
  }

  /** A dispatching row is queued again only when the lease it was dispatched under is gone. */
  lemma RequeueIsFenced(c: Config, t: State, step: Step, r: RunId)
    requires Reachable(c, t) && Next(c, t, step).Some? && r in t.queue && t.queue[r].status == InDispatch
    requires r in Next(c, t, step).value.queue && Next(c, t, step).value.queue[r].status == Queued
    ensures !HolderAlive(t, r)
    ensures step.R? && step.r == Requeue
  {
    ReachableInv(c, t);
    OnlyRepairRequeues(c, t, step, r);
    hide HolderAlive;
    assert DispatcherOk(c, t, t.procs[step.p]);
  }

  lemma OnlyRepairRequeues(c: Config, s: State, step: Step, r: RunId)
    requires Next(c, s, step).Some? && r in s.queue && s.queue[r].status == InDispatch
    requires r in Next(c, s, step).value.queue && Next(c, s, step).value.queue[r].status == Queued
    ensures step.R? && step.r == Requeue && s.procs[step.p].Unfenced? && s.procs[step.p].run == r
            && s.queue[r].revision == s.procs[step.p].revision
  {
    hide LaunchNext, OutsideNext, RepairNext;
    match step
    case L(p, l) => LaunchesNeverRequeue(c, s, p, l, r);
    case R(p, q) => RepairRequeues(c, s, p, q, r);
    case O(o) => OutsideNeverRequeues(c, s, o, r);
  }

  lemma RepairRequeues(c: Config, s: State, p: nat, q: RepairStep, r: RunId)
    requires p < |s.procs| && RepairNext(c, s, p, q).Some? && r in s.queue && s.queue[r].status == InDispatch
    requires r in RepairNext(c, s, p, q).value.queue && RepairNext(c, s, p, q).value.queue[r].status == Queued
    ensures q == Requeue && s.procs[p].Unfenced? && s.procs[p].run == r && s.queue[r].revision == s.procs[p].revision
  {
    hide Holds, CanAcquire, Visible, LeasesOf;
  }

  predicate StaysOff(t: State, r: RunId) {
    r in t.queue && t.queue[r].status != Queued
  }

  lemma OutsideNeverRequeues(c: Config, s: State, o: OutsideStep, r: RunId)
    requires OutsideNext(c, s, o).Some? && r in s.queue && s.queue[r].status == InDispatch
    ensures StaysOff(OutsideNext(c, s, o).value, r)
  {
  }

  lemma LaunchesNeverRequeue(c: Config, s: State, p: nat, l: LaunchStep, r: RunId)
    requires p < |s.procs| && LaunchNext(c, s, p, l).Some? && r in s.queue && s.queue[r].status == InDispatch
    ensures StaysOff(LaunchNext(c, s, p, l).value, r)
  {
    if l.MarkDispatching? || l.CommitDispatched? || l.SettleUnknown? {
      SettlingNeverRequeues(c, s, p, l, r);
    } else if l.RecordFailure? {
      FailingNeverRequeues(c, s, p, r);
    } else if l.ReadRow? || l.AcquireLease? || l.ProbeAndAdmit? || l.GiveUpMachine? || l.GiveLeaseBack? || l.Heartbeat? {
      LeaseStepsKeepRows(c, s, p, l);
      hide LaunchNext;
    } else {
      OtherLaunchesKeepRows(c, s, p, l);
      hide LaunchNext;
    }
  }

  lemma SettlingNeverRequeues(c: Config, s: State, p: nat, l: LaunchStep, r: RunId)
    requires p < |s.procs| && LaunchNext(c, s, p, l).Some? && r in s.queue && s.queue[r].status == InDispatch
    requires l.MarkDispatching? || l.CommitDispatched? || l.SettleUnknown?
    ensures StaysOff(LaunchNext(c, s, p, l).value, r)
  {
    hide Holds, Visible;
  }

  lemma FailingNeverRequeues(c: Config, s: State, p: nat, r: RunId)
    requires p < |s.procs| && LaunchNext(c, s, p, RecordFailure).Some? && r in s.queue
             && s.queue[r].status == InDispatch
    ensures StaysOff(LaunchNext(c, s, p, RecordFailure).value, r)
  {
    hide RunLocked, QueueAt;
  }

  lemma LeaseStepsKeepRows(c: Config, s: State, p: nat, l: LaunchStep)
    requires p < |s.procs| && LaunchNext(c, s, p, l).Some?
    requires l.ReadRow? || l.AcquireLease? || l.ProbeAndAdmit? || l.GiveUpMachine? || l.GiveLeaseBack? || l.Heartbeat?
    ensures LaunchNext(c, s, p, l).value.queue == s.queue
  {
    hide AtPhase, Admits, Holds, CanAcquire, Allocation, SlotsOf, ActiveOn;
  }

  lemma OtherLaunchesKeepRows(c: Config, s: State, p: nat, l: LaunchStep)
    requires p < |s.procs| && LaunchNext(c, s, p, l).Some?
    requires !l.MarkDispatching? && !l.CommitDispatched? && !l.SettleUnknown? && !l.RecordFailure?
    requires !l.ReadRow? && !l.AcquireLease? && !l.ProbeAndAdmit? && !l.GiveUpMachine? && !l.GiveLeaseBack? && !l.Heartbeat?
    ensures LaunchNext(c, s, p, l).value.queue == s.queue
  {
    hide AtPhase, Admits, RunLocked, Holds, CanAcquire, Allocation, SlotsOf, ActiveOn, MarkSent;
  }
}
