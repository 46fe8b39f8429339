/** While no operator changes the slot counts, no lane of any machine ever holds more runs than it has slots. */
module DispatchSlots {
  import opened Common
  import opened Placement
  import opened DispatchProtocol
  import opened DispatchInvariant
  import opened DispatchSteps
  import opened DispatchPreservation
  import opened DispatchSafety

  /** What was recorded at a probe for lane of run `r` on `m` is what is in force. */
  predicate InForce(c: Config, s: State, r: RunId, m: MachineId, slots: int) {
    r in c.jobs ==> slots == SlotsOf(s, m, c.jobs[r].workloadClass)
  }

  predicate GrantInForce(c: Config, s: State, q: Proc) {
    q.Pipe? && q.phase in {Admitted, Marked, Owned, Registered} ==> InForce(c, s, q.g.run, q.g.machine, q.g.slots)
  }

  ghost predicate SlotsInForce(c: Config, s: State) {
    && (forall r :: r in s.windows ==> InForce(c, s, r, s.windows[r].machine, s.windows[r].slots))
    && (forall p :: 0 <= p < |s.procs| ==> GrantInForce(c, s, s.procs[p]))
  }

  ghost predicate LanesFit(c: Config, s: State) {
    forall m, lane :: m in c.cores ==> LaneCount(ActiveOn(s.live, m), lane) <= SlotsOf(s, m, lane)
  }

  /** What one dispatcher's step does to the launch windows: at most one changes, and a new one
      carries what its registered dispatcher recorded. */
  predicate WindowsFrom(s: State, t: State, p: nat)
    requires p < |s.procs|
  {
    || t.windows == s.windows
    || (s.procs[p].Pipe?
        && (t.windows == MarkSent(s.windows, s.procs[p].g.run) || t.windows == s.windows - {s.procs[p].g.run}
            || (s.procs[p].phase == Registered && s.procs[p].g.run in t.windows
                && t.windows == s.windows[s.procs[p].g.run := t.windows[s.procs[p].g.run]]
                && t.windows[s.procs[p].g.run].machine == s.procs[p].g.machine
                && t.windows[s.procs[p].g.run].slots == s.procs[p].g.slots)))
  }

  predicate StepInForce(c: Config, s: State, p: nat, t: State) {
    && p < |s.procs| == |t.procs| && t.slots == s.slots && t.live == s.live
    && t.procs == s.procs[p := t.procs[p]] && WindowsFrom(s, t, p) && GrantInForce(c, t, t.procs[p])
  }

  lemma StepInForceKeeps(c: Config, s: State, t: State, p: nat)
    requires SlotsInForce(c, s) && StepInForce(c, s, p, t)
    ensures SlotsInForce(c, t)
  {
    assert GrantInForce(c, s, s.procs[p]);
    forall i | 0 <= i < |t.procs| ensures GrantInForce(c, t, t.procs[i]) {
      assert i != p ==> t.procs[i] == s.procs[i] && GrantInForce(c, s, s.procs[i]);
    }
  }

  lemma FewerWindowsInForce(c: Config, s: State, t: State)
    requires SlotsInForce(c, s) && t.slots == s.slots && t.procs == s.procs
    requires forall r :: r in t.windows ==> r in s.windows && t.windows[r] == s.windows[r]
    ensures SlotsInForce(c, t)
  {
    forall i | 0 <= i < |t.procs| ensures GrantInForce(c, t, t.procs[i]) { assert GrantInForce(c, s, s.procs[i]); }
  }

  lemma LeaseSlots(c: Config, s: State, p: nat, l: LaunchStep)
    requires p < |s.procs| && LaunchNext(c, s, p, l).Some? && GrantInForce(c, s, s.procs[p])
    requires l.ReadRow? || l.AcquireLease? || l.Heartbeat? || l.CheckOwned?
    ensures StepInForce(c, s, p, LaunchNext(c, s, p, l).value)
  {
    hide Admits, Allocation, CanAcquire, Visible, RunLocked;
  }

  lemma GiveBackSlots(c: Config, s: State, p: nat, l: LaunchStep)
    requires p < |s.procs| && LaunchNext(c, s, p, l).Some? && GrantInForce(c, s, s.procs[p])
    requires l.GiveUpMachine? || l.GiveLeaseBack? || l.AbortBeforeRegister? || l.AbortBeforeBootstrap?
    ensures StepInForce(c, s, p, LaunchNext(c, s, p, l).value)
  {
    hide Admits, Allocation, CanAcquire, Visible, RunLocked;
  }

  lemma MarkSlots(c: Config, s: State, p: nat, l: LaunchStep)
    requires p < |s.procs| && LaunchNext(c, s, p, l).Some? && GrantInForce(c, s, s.procs[p])
    requires l.MarkDispatching?
    ensures StepInForce(c, s, p, LaunchNext(c, s, p, l).value)
  {
    hide Admits, Allocation, CanAcquire, Visible, RunLocked;
  }

  lemma RegisterSlots(c: Config, s: State, p: nat)
    requires p < |s.procs| && LaunchNext(c, s, p, Register).Some? && GrantInForce(c, s, s.procs[p])
    ensures StepInForce(c, s, p, LaunchNext(c, s, p, Register).value)
  {
    hide Admits, Allocation, CanAcquire, Visible, RunLocked;
  }

  lemma FenceSlots(c: Config, s: State, p: nat)
    requires p < |s.procs| && LaunchNext(c, s, p, CheckFence).Some? && GrantInForce(c, s, s.procs[p])
    ensures StepInForce(c, s, p, LaunchNext(c, s, p, CheckFence).value)
  {
    hide Admits, Allocation, CanAcquire, Visible, RunLocked;
  }

  lemma BootstrapSlots(c: Config, s: State, p: nat, l: LaunchStep)
    requires p < |s.procs| && LaunchNext(c, s, p, l).Some? && GrantInForce(c, s, s.procs[p])
    requires l.SendBootstrap? || l.BootstrapConfirmed? || l.BootstrapRejected? || l.BootstrapUnknown?
    ensures StepInForce(c, s, p, LaunchNext(c, s, p, l).value)
  {
    hide Admits, Allocation, CanAcquire, Visible, RunLocked;
  }

  /** Only the dispatcher and records other than windows, slots and live runs change. */
  lemma Untouched(c: Config, s: State, m: State, p: nat, q: Proc)
    requires p < |s.procs| && m.windows == s.windows && m.slots == s.slots && m.live == s.live && m.procs == s.procs
    requires GrantInForce(c, s, q)
    ensures StepInForce(c, s, p, SetProc(m, p, q))
  {
  }

  lemma AdmissionSlots(c: Config, s: State, p: nat)
    requires p < |s.procs| && LaunchNext(c, s, p, ProbeAndAdmit).Some? && GrantInForce(c, s, s.procs[p])
    ensures StepInForce(c, s, p, LaunchNext(c, s, p, ProbeAndAdmit).value)
  {
    hide Admits, Allocation, StepInForce, SlotsOf, ActiveOn;
    var g := s.procs[p].g;
    var slots := SlotsOf(s, g.machine, c.jobs[g.run].workloadClass);
    Untouched(c, s, s, p, Pipe(Admitted, g.(cores := Allocation(c.jobs[g.run], c.cores[g.machine]), slots := slots)));
    Untouched(c, s, Release(s, g.machine, g.run, g.token), p, RowRead(g.run, g.revision, g.readAt));
  }

  lemma OutcomeSlots(c: Config, s: State, p: nat, l: LaunchStep)
    requires p < |s.procs| && LaunchNext(c, s, p, l).Some? && (l.CommitDispatched? || l.SettleUnknown?)
    ensures StepInForce(c, s, p, LaunchNext(c, s, p, l).value)
  {
    hide StepInForce, Visible, Holds, QueueAt;
    var g := s.procs[p].g;
    Untouched(c, s, s, p, Idle);
    Untouched(c, s, s, p, Pipe(Unsure, g));
    Untouched(c, s, s, p, Pipe(Releasing, g));
    if QueueAt(s, g.run, InDispatch, g.revision) {
      RowPresent(s, g.run, InDispatch, g.revision);
      Untouched(c, s, SetQueue(s, g.run, Dispatched, None), p, Idle);
      Untouched(c, s, SetQueue(s, g.run, Dispatched, None), p, Pipe(Releasing, g));
    }
  }

  lemma RowPresent(s: State, r: RunId, status: QueueStatus, revision: nat)
    requires QueueAt(s, r, status, revision)
    ensures r in s.queue
  {
  }

  lemma FailureSlots(c: Config, s: State, p: nat)
    requires p < |s.procs| && LaunchNext(c, s, p, RecordFailure).Some?
    ensures StepInForce(c, s, p, LaunchNext(c, s, p, RecordFailure).value)
  {
    hide RunLocked, StepInForce;
    var g := s.procs[p].g;
    var ended :=
      if AtPhase(s, p, FailingRegistered) && g.run in s.exec && s.exec[g.run].status == Awaiting then Concluded(s, g.run, Ended) else s;
    var t := if QueueAt(s, g.run, InDispatch, g.revision) then SetQueue(ended, g.run, Closed, None) else ended;
    assert LaunchNext(c, s, p, RecordFailure) == Some(SetProc(t, p, Pipe(Releasing, g)));
    hide LaunchNext;
    ClosedSlots(c, s, t, p, g);
  }

  lemma ClosedSlots(c: Config, s: State, t: State, p: nat, g: Grant)
    requires p < |s.procs| && s.procs[p].Pipe? && s.procs[p].g == g
    requires t.slots == s.slots && t.live == s.live && t.procs == s.procs
    requires t.windows == s.windows || t.windows == s.windows - {g.run}
    ensures StepInForce(c, s, p, SetProc(t, p, Pipe(Releasing, g)))
  {
  }

  lemma LaunchSlots(c: Config, s: State, p: nat, l: LaunchStep)
    requires p < |s.procs| && LaunchNext(c, s, p, l).Some? && GrantInForce(c, s, s.procs[p])
    ensures StepInForce(c, s, p, LaunchNext(c, s, p, l).value)
  {
    hide LaunchNext, StepInForce, GrantInForce;
    if l.ProbeAndAdmit? { AdmissionSlots(c, s, p); }
    else if l.MarkDispatching? { MarkSlots(c, s, p, l); }
    else if l.Register? { RegisterSlots(c, s, p); }
    else if l.CheckFence? { FenceSlots(c, s, p); }
    else if l.GiveUpMachine? || l.GiveLeaseBack? || l.AbortBeforeRegister? || l.AbortBeforeBootstrap? { GiveBackSlots(c, s, p, l); }
    else if l.SendBootstrap? || l.BootstrapConfirmed? || l.BootstrapRejected? || l.BootstrapUnknown? { BootstrapSlots(c, s, p, l); }
    else if l.CommitDispatched? || l.SettleUnknown? { OutcomeSlots(c, s, p, l); }
    else if l.RecordFailure? { FailureSlots(c, s, p); }
    else { LeaseSlots(c, s, p, l); }
  }

  lemma RecoverySlots(c: Config, s: State, p: nat, r: RepairStep)
    requires p < |s.procs| && RepairNext(c, s, p, r).Some?
    requires r.ListLeases? || r.Refence? || r.ReleaseRefenced? || r.Requeue?
    ensures StepInForce(c, s, p, RepairNext(c, s, p, r).value)
  {
    hide StepInForce, CanAcquire;
    var q := s.procs[p];
    match r
    case ListLeases =>
      Untouched(c, s, s, p, RepairNext(c, s, p, r).value.procs[p]);
    case Refence =>
      Untouched(c, s, Acquire(c, s, q.machine, q.run), p, Refenced(q.run, q.revision, q.machine, s.nextToken));
    case ReleaseRefenced =>
      Untouched(c, s, Release(s, q.machine, q.run, q.token), p, Unfenced(q.run, q.revision));
    case Requeue =>
      Untouched(c, s, if QueueAt(s, q.run, InDispatch, q.revision) then SetQueue(s, q.run, Queued, None) else s, p, Idle);
  }

  lemma RepairSlots(c: Config, s: State, p: nat, r: RepairStep)
    requires p < |s.procs| && RepairNext(c, s, p, r).Some?
    ensures StepInForce(c, s, p, RepairNext(c, s, p, r).value)
  {
    if r.ListLeases? || r.Refence? || r.ReleaseRefenced? || r.Requeue? {
      RecoverySlots(c, s, p, r);
    } else {
      hide CanAcquire, Visible, LeasesOf, Holds, QueueAt;
    }
  }

  lemma OutsideSlots(c: Config, s: State, o: OutsideStep)
    requires SlotsInForce(c, s) && OutsideNext(c, s, o).Some? && !o.SetSlots?
    ensures SlotsInForce(c, OutsideNext(c, s, o).value) && OutsideNext(c, s, o).value.slots == s.slots
  {
    hide RunLocked, SlotsInForce;
    var t := OutsideNext(c, s, o).value;
    if o.Crash? { StepInForceKeeps(c, s, t, o.p); } else { FewerWindowsInForce(c, s, t); }
  }

  lemma DispatcherStepInForce(c: Config, s: State, step: Step)
    requires SlotsInForce(c, s) && Next(c, s, step).Some? && !step.O?
    ensures StepInForce(c, s, step.p, Next(c, s, step).value)
  {
    hide LaunchNext, RepairNext, StepInForce;
    match step
    case L(p, l) => LaunchSlots(c, s, p, l);
    case R(p, r) => RepairSlots(c, s, p, r);
  }

  lemma SlotsStep(c: Config, s: State, step: Step)
    requires SlotsInForce(c, s) && Next(c, s, step).Some? && !(step.O? && step.o.SetSlots?)
    ensures SlotsInForce(c, Next(c, s, step).value) && Next(c, s, step).value.slots == s.slots
  {
    if step.O? {
      OutsideSlots(c, s, step.o);
    } else {
      DispatcherStepInForce(c, s, step);
      hide Next, SlotsInForce;
      StepInForceKeeps(c, s, Next(c, s, step).value, step.p);
    }
  }

  /** Live runs only ever come from launch windows. */
  lemma LanesStep(c: Config, s: State, step: Step)
    requires Inv(c, s) && SlotsInForce(c, s) && LanesFit(c, s) && Next(c, s, step).Some?
             && !(step.O? && step.o.SetSlots?)
    ensures LanesFit(c, Next(c, s, step).value)
  {
    if !step.O? {
      DispatcherStepInForce(c, s, step);
      hide Next, Inv, SlotsInForce;
    } else {
      OutsideLanes(c, s, step.o);
    }
  }

  lemma OutsideLanes(c: Config, s: State, o: OutsideStep)
    requires Inv(c, s) && SlotsInForce(c, s) && LanesFit(c, s) && OutsideNext(c, s, o).Some? && !o.SetSlots?
    ensures LanesFit(c, OutsideNext(c, s, o).value)
  {
    hide Inv, SlotsInForce;
    match o
    case Land(run) => LandFits(c, s, run);
    case Finish(i) => RemovedIsLess(s.live, i);
    case StopRun(run) => FilteredIsLess(s.live, (v: Live) => v.run.runId != run);
    case _ =>
  }

  lemma LandFits(c: Config, s: State, r: RunId)
    requires Inv(c, s) && SlotsInForce(c, s) && LanesFit(c, s) && r in s.windows && r in c.jobs
    ensures LanesFit(c, Landed(c, s, r))
  {
    var t := Landed(c, s, r);
    var w, lane := s.windows[r], c.jobs[r].workloadClass;
    assert LaneCount(ActiveOn(s.live, w.machine), lane) + 1 <= SlotsOf(s, w.machine, lane) by {
      assert WindowOk(c, s, r);
      assert InForce(c, s, r, w.machine, w.slots);
    }
    hide Inv, SlotsInForce, ActiveOn, LaneCount, SlotsOf;
    assert forall m, lane :: SlotsOf(t, m, lane) == SlotsOf(s, m, lane) by { SlotsUnchanged(s, t); }
    forall m, lane | m in c.cores ensures LaneCount(ActiveOn(t.live, m), lane) <= SlotsOf(t, m, lane) {
      assert LaneCount(ActiveOn(s.live, m), lane) <= SlotsOf(s, m, lane);
      LandedRoom(c, s, r, m, lane);
    }
  }

  lemma SlotsUnchanged(s: State, t: State)
    requires s.slots == t.slots
    ensures forall m, lane :: SlotsOf(t, m, lane) == SlotsOf(s, m, lane)
  {
  }

  predicate ChangesSlots(steps: seq<Step>) {
    exists i :: 0 <= i < |steps| && steps[i].O? && steps[i].o.SetSlots?
  }

  lemma {:induction false} LanesRun(c: Config, s: State, steps: seq<Step>)
    requires Inv(c, s) && SlotsInForce(c, s) && LanesFit(c, s) && SharedLeasesOutlastLag(c)
    requires Run(c, s, steps).Some? && !ChangesSlots(steps)
    ensures LanesFit(c, Run(c, s, steps).value)
    decreases |steps|
  {
    if steps != [] {
      assert !ChangesSlots(steps[1..]);
      assert !(steps[0].O? && steps[0].o.SetSlots?);
      hide Inv, SlotsInForce, LanesFit, Next, ChangesSlots;
      StepKeeps(c, s, steps[0]);
      SlotsStep(c, s, steps[0]);
      LanesStep(c, s, steps[0]);
      LanesRun(c, Next(c, s, steps[0]).value, steps[1..]);
    }
  }

  /** With steady slot counts every lane of every machine stays within its slots, in every run. */
  lemma LanesStayWithinSlots(c: Config, s: State, steps: seq<Step>, m: MachineId, lane: WorkloadClass)
    requires Initial(c, s) && LanesFit(c, s) && SharedLeasesOutlastLag(c) && m in c.cores
    requires Run(c, s, steps).Some? && !ChangesSlots(steps)
    ensures var t := Run(c, s, steps).value; LaneCount(ActiveOn(t.live, m), lane) <= SlotsOf(t, m, lane)
  {
    InitialOk(c, s);
    LanesRun(c, s, steps);
  }
}
