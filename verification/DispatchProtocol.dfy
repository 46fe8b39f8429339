/** The lease and launch protocol as a transition system: any number of dispatchers
    interleave, stall and crash; each step is one file operation under a lock, one
    probe, or one event of the remote side. */
module DispatchProtocol {
  import opened Common
  import opened Placement

  type RunId = string
  type MachineId = string
  type Token = nat
  type Time = nat

  /** Jobs and machines, the jobs' own lease times, and how long an acquire may lag behind the record
      read it rests on. */
  datatype Config = Config(jobs: map<RunId, Job>, cores: map<MachineId, Positive>, leaseSeconds: map<RunId, Positive>, lag: nat)

  const DEFAULT_LEASE_SECONDS: Positive := 120

  /** How long a lease taken or renewed for a run lasts. */
  function Ttl(c: Config, run: RunId): Positive {
    if run in c.leaseSeconds then c.leaseSeconds[run] else DEFAULT_LEASE_SECONDS
  }

  /** The lease of a run lasts at least as long as an acquire may lag behind its read. */
  predicate Outlasts(c: Config, run: RunId) {
    c.lag <= Ttl(c, run)
  }

  /** One of the run's eligible servers is on the machine. */
  predicate MayUse(c: Config, run: RunId, machine: MachineId) {
    run in c.jobs && exists s :: s in EligibleServers(c.jobs[run]) && s.machineId == machine
  }

  /** The run could be admitted to the machine if nothing else ran there. */
  predicate Fits(c: Config, run: RunId, machine: MachineId) {
    run in c.jobs && machine in c.cores && MayUse(c, run, machine)
    && Allocation(c.jobs[run], c.cores[machine]) <= c.cores[machine]
  }

  /** Two runs that each fit the machine alone. */
  predicate Shares(c: Config, r: RunId, o: RunId, machine: MachineId) {
    r != o && Fits(c, r, machine) && Fits(c, o, machine)
  }

  /** The lease of every run that shares a machine with another one outlasts the lag. */
  ghost predicate SharedLeasesOutlastLag(c: Config) {
    forall r, o, m :: Shares(c, r, o, m) ==> Outlasts(c, r)
  }

  datatype Lease = Lease(run: RunId, token: Token, expires: Time)

  datatype QueueStatus = Queued | InDispatch | Dispatched | Closed

  /** A queue record; `holder` remembers the lease the dispatching transition was made under. */
  datatype QueueRecord = QueueRecord(status: QueueStatus, revision: nat, holder: Option<(MachineId, Token)>)

  datatype ExecStatus = Awaiting | Running | Ended

  /** An execution record; `token` remembers the lease of the dispatcher that registered it. */
  datatype ExecRecord = ExecRecord(status: ExecStatus, machine: MachineId, token: Token)

  /** A launch window: from the ownership check after registration until the run is seen on the
      machine or its outcome is settled. */
  datatype Window = Window(machine: MachineId, token: Token, openedAt: Time, revision: nat,
                           cores: Positive, slots: int, sent: bool)

  datatype Live = Live(machine: MachineId, run: ActiveRun)

  /** What a dispatcher holds while it works on one job. */
  datatype Grant = Grant(run: RunId, revision: nat, readAt: Time, machine: MachineId, token: Token,
                         cores: Positive, slots: int)

  datatype Phase =
    | Leased             // lease acquired, machine not probed yet
    | Admitted           // probed under the lease, room found
    | Marked             // queue record moved to dispatching
    | Owned              // first ownership check passed
    | Registered         // execution record committed
    | Fenced             // ownership check after registration passed
    | Launching          // bootstrap sent, run lock held
    | Launched           // bootstrap confirmed
    | Failing            // definite failure before registration
    | FailingRegistered  // definite failure after registration
    | Unsure             // outcome unknown
    | Releasing          // nothing left but to give the lease back

  datatype Proc =
    | Idle
    | RowRead(run: RunId, revision: nat, readAt: Time)
    | Pipe(phase: Phase, g: Grant)
    | SawDispatching(run: RunId, revision: nat)
    | NoRecord(run: RunId, revision: nat, readAt: Time)
    | OneLease(run: RunId, revision: nat, readAt: Time, machine: MachineId)
    | Refenced(run: RunId, revision: nat, machine: MachineId, token: Token)
    | Unfenced(run: RunId, revision: nat)
    | LeaseListed(machine: MachineId, run: RunId, token: Token)
    | LeaseSettled(machine: MachineId, run: RunId, token: Token)

  datatype State = State(
    now: Time,
    nextToken: Token,
    queue: map<RunId, QueueRecord>,
    exec: map<RunId, ExecRecord>,
    leases: map<MachineId, Lease>,
    slots: map<(MachineId, WorkloadClass), int>,
    windows: map<RunId, Window>,
    live: seq<Live>,
    procs: seq<Proc>,
    sent: seq<RunId>,      // history: bootstraps attempted, in order
    landed: set<RunId>)    // history: runs that appeared on a machine

  /** The active runs a probe of `machine` reports. */
  function ActiveOn(live: seq<Live>, machine: MachineId): seq<ActiveRun> {
    if live == [] then []
    else (if live[0].machine == machine then [live[0].run] else []) + ActiveOn(live[1..], machine)
  }

  predicate Visible(s: State, run: RunId, machine: MachineId) {
    exists i :: 0 <= i < |s.live| && s.live[i].machine == machine && s.live[i].run.runId == run
  }

  // ---------- the lease table ----------

  predicate Holds(s: State, machine: MachineId, token: Token) {
    machine in s.leases && s.leases[machine].token == token
  }

  /** Acquire succeeds on a free machine, or on an expired lease of the same run: a dispatch
      lease of another run stays until it is released, since no record is ever purged here. */
  predicate CanAcquire(s: State, machine: MachineId, run: RunId) {
    machine !in s.leases || (s.leases[machine].run == run && s.leases[machine].expires <= s.now)
  }

  function Acquire(c: Config, s: State, machine: MachineId, run: RunId): State {
    s.(leases := s.leases[machine := Lease(run, s.nextToken, s.now + Ttl(c, run))], nextToken := s.nextToken + 1)
  }

  /** Renew extends the lease of a current token, expired or not. */
  function Renew(c: Config, s: State, machine: MachineId): State
    requires machine in s.leases
  {
    s.(leases := s.leases[machine := s.leases[machine].(expires := s.now + Ttl(c, s.leases[machine].run))])
  }

  /** Release removes only a matching lease. */
  function Release(s: State, machine: MachineId, run: RunId, token: Token): State {
    if Holds(s, machine, token) && s.leases[machine].run == run then s.(leases := s.leases - {machine}) else s
  }

  // ---------- the queue ----------

  /** Compare-and-swap on the revision. */
  predicate QueueAt(s: State, run: RunId, status: QueueStatus, revision: nat) {
    run in s.queue && s.queue[run].status == status && s.queue[run].revision == revision
  }

  function SetQueue(s: State, run: RunId, status: QueueStatus, holder: Option<(MachineId, Token)>): State
    requires run in s.queue
  {
    s.(queue := s.queue[run := QueueRecord(status, s.queue[run].revision + 1, holder)])
  }

  // ---------- steps ----------

  /** Steps of dispatcher `p` on its way from a queued row to a launched run. */
  datatype LaunchStep =
    | ReadRow(run: RunId)
    | AcquireLease(machine: MachineId)
    | ProbeAndAdmit
    | GiveUpMachine
    | MarkDispatching
    | CheckOwned
    | AbortBeforeRegister
    | Register
    | CheckFence
    | AbortBeforeBootstrap
    | SendBootstrap
    | BootstrapConfirmed
    | BootstrapRejected
    | BootstrapUnknown
    | CommitDispatched
    | SettleUnknown
    | RecordFailure
    | GiveLeaseBack
    | Heartbeat

  /** Steps of dispatcher `p` reconciling what others left behind. */
  datatype RepairStep =
    | ReadDispatching(run: RunId)
    | CheckRecord
    | ListLeases
    | Refence
    | ReleaseRefenced
    | Requeue
    | ListLease(machine: MachineId)
    | CheckSettled
    | ReleaseSettled

  /** Everything else: time, crashes, the remote side, the monitor, operators. */
  datatype OutsideStep =
    | Tick(elapsed: nat)
    | Submit(run: RunId)
    | CancelRow(run: RunId)
    | Crash(p: nat)
    | Land(run: RunId)
    | Finish(i: nat)
    | SeeRunning(run: RunId)
    | SeeEnded(run: RunId)
    | StopRun(run: RunId)
    | SetSlots(machine: MachineId, lane: WorkloadClass, n: int)

  datatype Step = L(p: nat, l: LaunchStep) | R(p: nat, r: RepairStep) | O(o: OutsideStep)

  function SetProc(s: State, p: nat, proc: Proc): State
    requires p < |s.procs|
  {
    s.(procs := s.procs[p := proc])
  }

  predicate AtPhase(s: State, p: nat, phase: Phase) {
    p < |s.procs| && s.procs[p].Pipe? && s.procs[p].phase == phase
  }

  /** Some dispatcher is inside the run lock of `run`, waiting for its bootstrap. */
  predicate RunLocked(s: State, run: RunId) {
    exists p :: 0 <= p < |s.procs| && s.procs[p].Pipe? && s.procs[p].phase == Launching && s.procs[p].g.run == run
  }

  function SlotsOf(s: State, machine: MachineId, lane: WorkloadClass): int {
    if (machine, lane) in s.slots then s.slots[(machine, lane)] else if lane == Standard then 1 else 0
  }

  function MarkSent(windows: map<RunId, Window>, run: RunId): map<RunId, Window> {
    if run in windows then windows[run := windows[run].(sent := true)] else windows
  }

  function LaunchNext(c: Config, s: State, p: nat, l: LaunchStep): Option<State>
    requires p < |s.procs|
  {
    match l
    case ReadRow(run) =>
      if s.procs[p].Idle? && run in c.jobs && run in s.queue && s.queue[run].status == Queued then
        Some(SetProc(s, p, RowRead(run, s.queue[run].revision, s.now)))
      else None
    case AcquireLease(machine) =>
      if s.procs[p].RowRead? && MayUse(c, s.procs[p].run, machine) && machine in c.cores
         && CanAcquire(s, machine, s.procs[p].run) && s.now - s.procs[p].readAt < c.lag then
        var q := s.procs[p];
        Some(SetProc(Acquire(c, s, machine, q.run), p,
                     Pipe(Leased, Grant(q.run, q.revision, q.readAt, machine, s.nextToken, 1, 0))))
      else None
    case ProbeAndAdmit =>
      if AtPhase(s, p, Leased) && s.procs[p].g.run in c.jobs && s.procs[p].g.machine in c.cores then
        var g := s.procs[p].g;
        var job, cores := c.jobs[g.run], c.cores[g.machine];
        var slots := SlotsOf(s, g.machine, job.workloadClass);
        if Admits(job, ActiveOn(s.live, g.machine), cores, slots) then
          Some(SetProc(s, p, Pipe(Admitted, g.(cores := Allocation(job, cores), slots := slots))))
        else
          Some(SetProc(Release(s, g.machine, g.run, g.token), p, RowRead(g.run, g.revision, g.readAt)))
      else None
    case GiveUpMachine =>
      if AtPhase(s, p, Leased) then
        var g := s.procs[p].g;
        Some(SetProc(Release(s, g.machine, g.run, g.token), p, RowRead(g.run, g.revision, g.readAt)))
      else None
    case MarkDispatching =>
      if AtPhase(s, p, Admitted) then
        var g := s.procs[p].g;
        if QueueAt(s, g.run, Queued, g.revision) then
          Some(SetProc(SetQueue(s, g.run, InDispatch, Some((g.machine, g.token))), p,
                       Pipe(Marked, g.(revision := g.revision + 1))))
        else Some(SetProc(s, p, Pipe(Releasing, g)))
      else None
    case CheckOwned =>
      if AtPhase(s, p, Marked) then
        var g := s.procs[p].g;
        if Holds(s, g.machine, g.token) then Some(SetProc(Renew(c, s, g.machine), p, Pipe(Owned, g)))
        else Some(SetProc(s, p, Pipe(Failing, g)))
      else None
    case AbortBeforeRegister =>
      if AtPhase(s, p, Marked) || AtPhase(s, p, Owned) then Some(SetProc(s, p, Pipe(Failing, s.procs[p].g))) else None
    case Register =>
      if AtPhase(s, p, Owned) then
        var g := s.procs[p].g;
        if g.run in s.exec then Some(SetProc(s, p, Pipe(Failing, g)))
        else Some(SetProc(s.(exec := s.exec[g.run := ExecRecord(Awaiting, g.machine, g.token)]), p, Pipe(Registered, g)))
      else None
    case CheckFence =>
      if AtPhase(s, p, Registered) then
        var g := s.procs[p].g;
        if Holds(s, g.machine, g.token) then
          var renewed := SetProc(Renew(c, s, g.machine), p, Pipe(Fenced, g));
          if g.run in s.exec && s.exec[g.run].status == Awaiting then
            Some(renewed.(windows := s.windows[g.run := Window(g.machine, g.token, s.now, g.revision, g.cores, g.slots, false)]))
          else Some(renewed)
        else Some(SetProc(s, p, Pipe(Unsure, g)))
      else None
    case AbortBeforeBootstrap =>
      if AtPhase(s, p, Fenced) then Some(SetProc(s, p, Pipe(FailingRegistered, s.procs[p].g))) else None
    case SendBootstrap =>
      if AtPhase(s, p, Fenced) && !RunLocked(s, s.procs[p].g.run) then
        var g := s.procs[p].g;
        if g.run in s.exec && s.exec[g.run].status == Awaiting then
          Some(SetProc(s.(windows := MarkSent(s.windows, g.run), sent := s.sent + [g.run]), p, Pipe(Launching, g)))
        else Some(SetProc(s, p, Pipe(FailingRegistered, g)))
      else None
    case BootstrapConfirmed =>
      if AtPhase(s, p, Launching) && s.procs[p].g.run in s.landed && s.procs[p].g.run in s.exec then
        var g := s.procs[p].g;
        Some(SetProc(s.(exec := s.exec[g.run := s.exec[g.run].(status := Running)]), p, Pipe(Launched, g)))
      else None
    case BootstrapRejected =>
      if AtPhase(s, p, Launching) && s.procs[p].g.run in s.windows then
        var g := s.procs[p].g;
        Some(SetProc(s.(windows := s.windows - {g.run}), p, Pipe(FailingRegistered, g)))
      else None
    case BootstrapUnknown =>
      if AtPhase(s, p, Launching) then Some(SetProc(s, p, Pipe(Unsure, s.procs[p].g))) else None
    case CommitDispatched =>
      if AtPhase(s, p, Launched) then
        var g := s.procs[p].g;
        if !Holds(s, g.machine, g.token) then Some(SetProc(s, p, Pipe(Unsure, g)))
        else if QueueAt(s, g.run, InDispatch, g.revision) then
          Some(SetProc(SetQueue(s, g.run, Dispatched, None), p, Pipe(Releasing, g)))
        else if g.run in s.queue && s.queue[g.run].status == Dispatched then Some(SetProc(s, p, Pipe(Releasing, g)))
        else Some(SetProc(s, p, Pipe(Unsure, g)))
      else None
    case SettleUnknown =>
      if AtPhase(s, p, Unsure) then
        var g := s.procs[p].g;
        var done := if Visible(s, g.run, g.machine) then Pipe(Releasing, g) else Idle;
        if QueueAt(s, g.run, InDispatch, g.revision) then Some(SetProc(SetQueue(s, g.run, Dispatched, None), p, done))
        else Some(SetProc(s, p, done))
      else None
    case RecordFailure =>
      if AtPhase(s, p, Failing) then
        var g := s.procs[p].g;
        if QueueAt(s, g.run, InDispatch, g.revision) then
          Some(SetProc(SetQueue(s, g.run, Closed, None), p, Pipe(Releasing, g)))
        else Some(SetProc(s, p, Pipe(Releasing, g)))
      else if AtPhase(s, p, FailingRegistered) && !RunLocked(s, s.procs[p].g.run) then
        var g := s.procs[p].g;
        var ended :=
          if g.run in s.exec && s.exec[g.run].status == Awaiting then
            s.(exec := s.exec[g.run := s.exec[g.run].(status := Ended)], windows := s.windows - {g.run})
          else s;
        if QueueAt(s, g.run, InDispatch, g.revision) then
          Some(SetProc(SetQueue(ended, g.run, Closed, None), p, Pipe(Releasing, g)))
        else Some(SetProc(ended, p, Pipe(Releasing, g)))
      else None
    case GiveLeaseBack =>
      if AtPhase(s, p, Releasing) then
        var g := s.procs[p].g;
        Some(SetProc(Release(s, g.machine, g.run, g.token), p, Idle))
      else None
    case Heartbeat =>
      if s.procs[p].Pipe? && s.procs[p].phase !in {Leased, Admitted} && Holds(s, s.procs[p].g.machine, s.procs[p].g.token) then
        Some(Renew(c, s, s.procs[p].g.machine))
      else None
  }

  function LeasesOf(s: State, run: RunId): set<MachineId> {
    set m | m in s.leases && s.leases[m].run == run
  }

  function RepairNext(c: Config, s: State, p: nat, r: RepairStep): Option<State>
    requires p < |s.procs|
  {
    var q := s.procs[p];
    match r
    case ReadDispatching(run) =>
      if q.Idle? && run in s.queue && s.queue[run].status == InDispatch then
        Some(SetProc(s, p, SawDispatching(run, s.queue[run].revision)))
      else None
    case CheckRecord =>
      if !q.SawDispatching? then None
      else if q.run !in s.exec then Some(SetProc(s, p, NoRecord(q.run, q.revision, s.now)))
      else if QueueAt(s, q.run, InDispatch, q.revision) then Some(SetProc(SetQueue(s, q.run, Dispatched, None), p, Idle))
      else Some(SetProc(s, p, Idle))
    case ListLeases =>
      if !q.NoRecord? then None
      else if LeasesOf(s, q.run) == {} then Some(SetProc(s, p, Unfenced(q.run, q.revision)))
      else if exists m :: m in s.leases && LeasesOf(s, q.run) == {m} then
        var m :| m in s.leases && LeasesOf(s, q.run) == {m};
        Some(SetProc(s, p, OneLease(q.run, q.revision, q.readAt, m)))
      else Some(SetProc(s, p, Idle))
    case Refence =>
      if q.OneLease? && CanAcquire(s, q.machine, q.run) && s.now - q.readAt < c.lag then
        Some(SetProc(Acquire(c, s, q.machine, q.run), p, Refenced(q.run, q.revision, q.machine, s.nextToken)))
      else None
    case ReleaseRefenced =>
      if q.Refenced? then
        Some(SetProc(Release(s, q.machine, q.run, q.token), p, Unfenced(q.run, q.revision)))
      else None
    case Requeue =>
      if !q.Unfenced? then None
      else if QueueAt(s, q.run, InDispatch, q.revision) then Some(SetProc(SetQueue(s, q.run, Queued, None), p, Idle))
      else Some(SetProc(s, p, Idle))
    case ListLease(machine) =>
      if q.Idle? && machine in s.leases then
        Some(SetProc(s, p, LeaseListed(machine, s.leases[machine].run, s.leases[machine].token)))
      else None
    case CheckSettled =>
      if !q.LeaseListed? then None
      else if q.run in s.exec && (s.exec[q.run].status != Awaiting || Visible(s, q.run, q.machine)) then
        Some(SetProc(s, p, LeaseSettled(q.machine, q.run, q.token)))
      else Some(SetProc(s, p, Idle))
    case ReleaseSettled =>
      if q.LeaseSettled? then Some(SetProc(Release(s, q.machine, q.run, q.token), p, Idle)) else None
  }

  /** Live runs of `run` are gone. */
  function WithoutRun(live: seq<Live>, run: RunId): seq<Live> {
    Filter((v: Live) => v.run.runId != run, live)
  }

  function OutsideNext(c: Config, s: State, o: OutsideStep): Option<State> {
    match o
    case Tick(elapsed) => Some(s.(now := s.now + elapsed))
    case Submit(run) =>
      if run in c.jobs && run !in s.queue then Some(s.(queue := s.queue[run := QueueRecord(Queued, 0, None)])) else None
    case CancelRow(run) =>
      if run in s.queue && s.queue[run].status in {Queued, InDispatch} then Some(SetQueue(s, run, Closed, None)) else None
    case Crash(p) => if p < |s.procs| then Some(SetProc(s, p, Idle)) else None
    case Land(run) =>
      if run in c.jobs && run in s.windows && s.windows[run].sent then
        var w := s.windows[run];
        Some(s.(live := s.live + [Live(w.machine, ActiveRun(run, c.jobs[run].workloadClass, Some(w.cores)))],
                windows := s.windows - {run}, landed := s.landed + {run}))
      else None
    case Finish(i) => if i < |s.live| then Some(s.(live := s.live[..i] + s.live[i + 1..])) else None
    case SeeRunning(run) =>
      if run in s.exec && s.exec[run].status == Awaiting && run in s.landed && !RunLocked(s, run) then
        Some(s.(exec := s.exec[run := s.exec[run].(status := Running)]))
      else None
    case SeeEnded(run) =>
      if run in s.exec && s.exec[run].status != Ended && run in s.landed && !RunLocked(s, run) then
        Some(s.(exec := s.exec[run := s.exec[run].(status := Ended)]))
      else None
    case StopRun(run) =>
      if run in s.exec && s.exec[run].status != Ended && !RunLocked(s, run) then
        Some(s.(exec := s.exec[run := s.exec[run].(status := Ended)], windows := s.windows - {run},
                live := WithoutRun(s.live, run)))
      else None
    case SetSlots(machine, lane, n) => Some(s.(slots := s.slots[(machine, lane) := n]))
  }

  /** The state after `step`, or nothing when the step cannot happen. */
  function Next(c: Config, s: State, step: Step): Option<State> {
    match step
    case L(p, l) => if p < |s.procs| then LaunchNext(c, s, p, l) else None
    case R(p, r) => if p < |s.procs| then RepairNext(c, s, p, r) else None
    case O(o) => OutsideNext(c, s, o)
  }

  /** Allocated cores of the live runs on a machine. */
  function CoresInUse(s: State, machine: MachineId): nat {
    AssignedCores(ActiveOn(s.live, machine))
  }

  /** Any number of idle dispatchers and empty records; machines may run work of other
      projects that fits them. */
  ghost predicate Initial(c: Config, s: State) {
    && (forall p :: 0 <= p < |s.procs| ==> s.procs[p].Idle?)
    && s.queue == map[] && s.exec == map[] && s.leases == map[] && s.windows == map[]
    && s.sent == [] && s.landed == {}
    && (forall i :: 0 <= i < |s.live| ==> s.live[i].run.runId !in c.jobs)
    && (forall m :: m in c.cores ==> CoresInUse(s, m) <= c.cores[m])
  }

  /** The state after a whole run of the system. */
  function Run(c: Config, s: State, steps: seq<Step>): Option<State>
    decreases |steps|
  {
    if steps == [] then Some(s)
    else
      var next := Next(c, s, steps[0]);
      if next.None? then None else Run(c, next.value, steps[1..])
  }
}
