/** What a dispatcher read stays true at the revision it read: rows only move to new revisions. */
module DispatchReads {
  import opened Common
  import opened Placement
  import opened DispatchProtocol
  import opened DispatchSafety

  /** The revision it saw as queued, before it has marked the row. */
  function ReadQueued(q: Proc): Option<(RunId, nat)> {
    match q
    case RowRead(run, revision, _) => Some((run, revision))
    case Pipe(phase, g) => if phase in {Leased, Admitted} then Some((g.run, g.revision)) else None
    case _ => None
  }

  /** At the revision that was read the row still has the status that was read. */
  predicate AsRead(s: State, run: RunId, revision: nat, status: QueueStatus) {
    run in s.queue && revision <= s.queue[run].revision && (s.queue[run].revision == revision ==> s.queue[run].status == status)
  }

  ghost predicate ReadsStand(s: State) {
    forall p :: 0 <= p < |s.procs| && ReadQueued(s.procs[p]).Some? ==>
      var (run, revision) := ReadQueued(s.procs[p]).value; AsRead(s, run, revision, Queued)
  }

  /** Rows stay, or move to a later revision. */
  predicate Forward(s: State, t: State) {
    forall r :: r in s.queue ==> r in t.queue && (t.queue[r] == s.queue[r] || t.queue[r].revision > s.queue[r].revision)
  }

  /** One dispatcher moves; what it goes on relying on it relied on before, or it has just read the row. */
  predicate ReadsKept(s: State, p: nat, t: State)
    requires p < |s.procs|
  {
    && |t.procs| == |s.procs| && t.procs == s.procs[p := t.procs[p]]
    && (ReadQueued(t.procs[p]).Some? && ReadQueued(t.procs[p]) != ReadQueued(s.procs[p]) ==>
          var (run, revision) := ReadQueued(t.procs[p]).value; AsRead(s, run, revision, Queued))
  }

  lemma ReadsStandAfter(s: State, p: nat, t: State)
    requires p < |s.procs| && ReadsStand(s) && Forward(s, t) && ReadsKept(s, p, t)
    ensures ReadsStand(t)
  {
    forall i | 0 <= i < |t.procs| && ReadQueued(t.procs[i]).Some?
      ensures var (run, revision) := ReadQueued(t.procs[i]).value; AsRead(t, run, revision, Queued)
    {
      var (run, revision) := ReadQueued(t.procs[i]).value;
      assert i != p ==> t.procs[i] == s.procs[i];
      assert AsRead(s, run, revision, Queued);
    }
  }

  lemma LaunchReads(c: Config, s: State, p: nat, l: LaunchStep)
    requires p < |s.procs| && LaunchNext(c, s, p, l).Some?
    ensures ReadsKept(s, p, LaunchNext(c, s, p, l).value)
  {
    if l.ReadRow? || l.AcquireLease? || l.Heartbeat? {
      EarlyReads(c, s, p, l);
    } else if l.ProbeAndAdmit? || l.GiveUpMachine? || l.MarkDispatching? {
      AdmissionReads(c, s, p, l);
    } else if l.RecordFailure? {
      FailingReads(c, s, p);
    } else if l.CommitDispatched? || l.SettleUnknown? || l.GiveLeaseBack? {
      LastReads(c, s, p, l);
    } else if l.CheckOwned? || l.AbortBeforeRegister? || l.Register? || l.CheckFence? {
      CheckReads(c, s, p, l);
    } else {
      LateReads(c, s, p, l);
    }
  }

  lemma LastReads(c: Config, s: State, p: nat, l: LaunchStep)
    requires p < |s.procs| && LaunchNext(c, s, p, l).Some?
    requires l.CommitDispatched? || l.SettleUnknown? || l.GiveLeaseBack?
    ensures ReadsKept(s, p, LaunchNext(c, s, p, l).value)
  {
    hide RunLocked, Visible, AsRead, Admits, CanAcquire, MayUse;
  }

  lemma FailingReads(c: Config, s: State, p: nat)
    requires p < |s.procs| && LaunchNext(c, s, p, RecordFailure).Some?
    ensures ReadsKept(s, p, LaunchNext(c, s, p, RecordFailure).value)
  {
    hide RunLocked, AsRead, QueueAt, AtPhase;
  }

  lemma CheckReads(c: Config, s: State, p: nat, l: LaunchStep)
    requires p < |s.procs| && LaunchNext(c, s, p, l).Some?
    requires l.CheckOwned? || l.AbortBeforeRegister? || l.Register? || l.CheckFence?
    ensures ReadsKept(s, p, LaunchNext(c, s, p, l).value)
  {
    hide RunLocked, Visible, AsRead, Admits, CanAcquire, MayUse;
  }

  lemma EarlyReads(c: Config, s: State, p: nat, l: LaunchStep)
    requires p < |s.procs| && LaunchNext(c, s, p, l).Some?
    requires l.ReadRow? || l.AcquireLease? || l.Heartbeat?
    ensures ReadsKept(s, p, LaunchNext(c, s, p, l).value)
  {
    hide CanAcquire, MayUse, Holds;
  }

  lemma AdmissionReads(c: Config, s: State, p: nat, l: LaunchStep)
    requires p < |s.procs| && LaunchNext(c, s, p, l).Some?
    requires l.ProbeAndAdmit? || l.GiveUpMachine? || l.MarkDispatching?
    ensures ReadsKept(s, p, LaunchNext(c, s, p, l).value)
  {
    hide Admits, Allocation, SlotsOf, ActiveOn, AsRead;
  }

  lemma LateReads(c: Config, s: State, p: nat, l: LaunchStep)
    requires p < |s.procs| && LaunchNext(c, s, p, l).Some?
    requires l.AbortBeforeBootstrap? || l.SendBootstrap? || l.BootstrapConfirmed? || l.BootstrapRejected? || l.BootstrapUnknown?
    ensures ReadsKept(s, p, LaunchNext(c, s, p, l).value)
  {
    hide Admits, CanAcquire, Allocation, SlotsOf, ActiveOn, MayUse, RunLocked, Visible, MarkSent, AsRead;
  }

  lemma LaunchForward(c: Config, s: State, p: nat, l: LaunchStep)
    requires p < |s.procs| && LaunchNext(c, s, p, l).Some?
    ensures Forward(s, LaunchNext(c, s, p, l).value)
  {
    if l.MarkDispatching? || l.CommitDispatched? || l.SettleUnknown? {
      SettlingForward(c, s, p, l);
    } else if l.RecordFailure? {
      FailingForward(c, s, p);
    } else if l.ReadRow? || l.AcquireLease? || l.ProbeAndAdmit? || l.GiveUpMachine? || l.GiveLeaseBack? || l.Heartbeat? {
      LeaseStepsKeepRows(c, s, p, l);
      hide LaunchNext;
    } else {
      OtherLaunchesKeepRows(c, s, p, l);
      hide LaunchNext;
    }
  }

  lemma SettlingForward(c: Config, s: State, p: nat, l: LaunchStep)
    requires p < |s.procs| && LaunchNext(c, s, p, l).Some? && (l.MarkDispatching? || l.CommitDispatched? || l.SettleUnknown?)
    ensures Forward(s, LaunchNext(c, s, p, l).value)
  {
    hide Holds, Visible, RunLocked;
  }

  lemma FailingForward(c: Config, s: State, p: nat)
    requires p < |s.procs| && LaunchNext(c, s, p, RecordFailure).Some?
    ensures Forward(s, LaunchNext(c, s, p, RecordFailure).value)
  {
    hide RunLocked, AtPhase;
  }

  lemma RepairReads(c: Config, s: State, p: nat, r: RepairStep)
    requires p < |s.procs| && RepairNext(c, s, p, r).Some?
    ensures ReadsKept(s, p, RepairNext(c, s, p, r).value)
  {
    if r.ReadDispatching? || r.CheckRecord? || r.ListLease? || r.CheckSettled? || r.ReleaseSettled? {
      hide Visible, AsRead, Holds, QueueAt;
    } else {
      RecoveryReads(c, s, p, r);
      hide RepairNext;
    }
  }

  lemma RecoveryReads(c: Config, s: State, p: nat, r: RepairStep)
    requires p < |s.procs| && RepairNext(c, s, p, r).Some?
    requires r.ListLeases? || r.Refence? || r.ReleaseRefenced? || r.Requeue?
    ensures ReadsKept(s, p, RepairNext(c, s, p, r).value)
  {
    hide CanAcquire, LeasesOf, AsRead, Holds, QueueAt;
  }

  lemma RepairForward(c: Config, s: State, p: nat, r: RepairStep)
    requires p < |s.procs| && RepairNext(c, s, p, r).Some?
    ensures Forward(s, RepairNext(c, s, p, r).value)
  {
    hide CanAcquire, Visible, LeasesOf, Holds;
  }

  lemma OutsideReads(c: Config, s: State, o: OutsideStep)
    requires OutsideNext(c, s, o).Some? && ReadsStand(s)
    ensures ReadsStand(OutsideNext(c, s, o).value)
  {
    hide RunLocked, ReadsStand;
    var t := OutsideNext(c, s, o).value;
    OutsideForward(c, s, o);
    if o.Crash? { ReadsStandAfter(s, o.p, t); } else { SameReaders(s, t); }
  }

  lemma OutsideForward(c: Config, s: State, o: OutsideStep)
    requires OutsideNext(c, s, o).Some?
    ensures Forward(s, OutsideNext(c, s, o).value)
  {
    hide RunLocked;
  }

  lemma SameReaders(s: State, t: State)
    requires ReadsStand(s) && Forward(s, t) && t.procs == s.procs
    ensures ReadsStand(t)
  {
    forall i | 0 <= i < |t.procs| && ReadQueued(t.procs[i]).Some?
      ensures var (run, revision) := ReadQueued(t.procs[i]).value; AsRead(t, run, revision, Queued)
    {
      var (run, revision) := ReadQueued(s.procs[i]).value;
      assert AsRead(s, run, revision, Queued);
    }
  }

  lemma ReadsStep(c: Config, s: State, step: Step)
    requires ReadsStand(s) && Next(c, s, step).Some?
    ensures ReadsStand(Next(c, s, step).value)
  {
    hide LaunchNext, RepairNext, OutsideNext, ReadsStand, Forward, ReadsKept;
    match step
    case L(p, l) =>
      LaunchReads(c, s, p, l);
      LaunchForward(c, s, p, l);
      ReadsStandAfter(s, p, LaunchNext(c, s, p, l).value);
    case R(p, r) =>
      RepairReads(c, s, p, r);
      RepairForward(c, s, p, r);
      ReadsStandAfter(s, p, RepairNext(c, s, p, r).value);
    case O(o) => OutsideReads(c, s, o);
  }

  lemma {:induction false} ReadsRun(c: Config, s: State, steps: seq<Step>)
    requires ReadsStand(s) && Run(c, s, steps).Some?
    ensures ReadsStand(Run(c, s, steps).value)
    decreases |steps|
  {
    if steps != [] {
      hide ReadsStand;
      ReadsStep(c, s, steps[0]);
      ReadsRun(c, Next(c, s, steps[0]).value, steps[1..]);
    }
  }

  /** For any timing: a row that a dispatcher read as queued is queued at that revision, or has moved on to a later one. */
  lemma RowsAreAsRead(c: Config, t: State, p: nat)
    requires Reachable(c, t) && p < |t.procs| && ReadQueued(t.procs[p]).Some?
    ensures var (run, revision) := ReadQueued(t.procs[p]).value; AsRead(t, run, revision, Queued)
  {
    var s, steps :| Initial(c, s) && Run(c, s, steps) == Some(t);
    assert ReadsStand(s);
    ReadsRun(c, s, steps);
  }
}
