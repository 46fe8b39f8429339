/** What every reachable state of the protocol satisfies: facts about the shared records,
    and facts about one dispatcher that never mention the others. */
module DispatchInvariant {
  import opened Common
  import opened Placement
  import opened DispatchProtocol

  /** The lease token a dispatcher owns, if any. */
  function TokenOf(q: Proc): Option<Token> {
    match q
    case Pipe(_, g) => Some(g.token)
    case Refenced(_, _, _, token) => Some(token)
    case _ => None
  }

  // ---------- shared records ----------

  predicate HolderAlive(s: State, run: RunId) {
    run in s.queue && s.queue[run].holder.Some? && Holds(s, s.queue[run].holder.value.0, s.queue[run].holder.value.1)
  }

  /** Tokens are old, registrations are told apart by their tokens, and a dispatching row
      remembers its lease. */
  ghost predicate TablesOk(c: Config, s: State) {
    && (forall m :: m in s.leases ==> s.leases[m].token < s.nextToken)
    && (forall r :: r in s.exec ==> r in c.jobs && s.exec[r].token < s.nextToken)
    && (forall r, r' :: r in s.exec && r' in s.exec && r != r' ==> s.exec[r].token != s.exec[r'].token)
    && (forall r :: r in s.queue && s.queue[r].holder.Some? ==> s.queue[r].holder.value.1 < s.nextToken)
    && (forall r :: r in s.queue && s.queue[r].status == InDispatch ==> s.queue[r].holder.Some?)
    && (forall r :: HolderAlive(s, r) ==> s.leases[s.queue[r].holder.value.0].run == r)
  }

  /** The dispatch made under (machine, token) at `revision` still stands, or the row is over. */
  predicate DispatchStands(s: State, run: RunId, revision: nat, machine: MachineId, token: Token) {
    && run in s.queue
    && ((s.queue[run].status == InDispatch && s.queue[run].revision == revision && s.queue[run].holder == Some((machine, token)))
        || s.queue[run].status in {Dispatched, Closed})
  }

  /** The lease a window was opened under: held for the run, for a full lease time from the opening, with the
      dispatch it was opened for still standing. */
  ghost predicate WindowHeld(c: Config, s: State, r: RunId)
    requires r in s.windows
  {
    var w := s.windows[r];
    && Holds(s, w.machine, w.token) && s.leases[w.machine].run == r
    && s.leases[w.machine].expires >= w.openedAt + Ttl(c, r)
    && DispatchStands(s, r, w.revision, w.machine, w.token)
  }

  /** A launch window: the records still await the outcome on a machine the run fits; and its lease
      is held if it outlasts the lag. */
  ghost predicate WindowOk(c: Config, s: State, r: RunId)
    requires r in s.windows
  {
    var w := s.windows[r];
    && r in s.exec && s.exec[r] == ExecRecord(Awaiting, w.machine, w.token)
    && w.machine in c.cores && Fits(c, r, w.machine)
    && (Outlasts(c, r) ==> WindowHeld(c, s, r))
    && w.openedAt <= s.now
    && r !in s.landed
    && (w.sent <==> r in s.sent)
  }

  ghost predicate WindowsOk(c: Config, s: State) {
    forall r :: r in s.windows ==> WindowOk(c, s, r)
  }

  /** Bootstraps are distinct registered runs; only attempted runs land; every live run of ours landed. */
  ghost predicate AttemptsOk(c: Config, s: State) {
    && (forall i, j :: 0 <= i < j < |s.sent| ==> s.sent[i] != s.sent[j])
    && (forall r :: r in s.sent ==> r in s.exec)
    && (forall r :: r in s.landed ==> r in s.sent)
    && (forall i :: 0 <= i < |s.live| && s.live[i].run.runId in c.jobs ==> s.live[i].run.runId in s.landed)
  }

  /** Room for `cores` more cores and one more run of the lane on a machine. */
  predicate RoomFor(c: Config, s: State, machine: MachineId, lane: WorkloadClass, cores: Positive, slots: int) {
    machine in c.cores ==>
      CoresInUse(s, machine) + cores <= c.cores[machine] && LaneCount(ActiveOn(s.live, machine), lane) + 1 <= slots
  }

  /** Cores are never overcommitted, also not by the runs whose launch window is open. */
  ghost predicate CapacityOk(c: Config, s: State) {
    && (forall m :: m in c.cores ==> CoresInUse(s, m) <= c.cores[m])
    && (forall r :: r in s.windows && r in c.jobs ==>
          RoomFor(c, s, s.windows[r].machine, c.jobs[r].workloadClass, s.windows[r].cores, s.windows[r].slots))
  }

  ghost predicate RecordsOk(c: Config, s: State) {
    TablesOk(c, s) && WindowsOk(c, s) && AttemptsOk(c, s) && CapacityOk(c, s)
  }

  // ---------- one dispatcher ----------

  predicate BeforeRegistration(q: Proc) {
    q.Refenced? || (q.Pipe? && q.phase in {Leased, Admitted, Marked, Owned, Failing})
  }

  predicate AfterRegistration(q: Proc) {
    q.Pipe? && q.phase in {Registered, Fenced, Launching, Launched, FailingRegistered, Unsure}
  }

  /** Its token is old, names its run while current, and is the registrar's exactly after registration. */
  ghost predicate OwnershipOk(c: Config, s: State, q: Proc) {
    && (TokenOf(q).Some? ==> TokenOf(q).value < s.nextToken)
    && (q.Pipe? ==> q.g.run in c.jobs && q.g.machine in c.cores && MayUse(c, q.g.run, q.g.machine))
    && (q.RowRead? ==> q.run in c.jobs)
    && (q.Pipe? && Holds(s, q.g.machine, q.g.token) ==> s.leases[q.g.machine].run == q.g.run)
    && (BeforeRegistration(q) ==> forall r :: r in s.exec ==> Some(s.exec[r].token) != TokenOf(q))
    && (AfterRegistration(q) ==>
          q.g.run in s.exec && s.exec[q.g.run].token == q.g.token && s.exec[q.g.run].machine == q.g.machine)
  }

  /** How far the bootstrap of its run can have got. */
  ghost predicate ProgressOk(s: State, q: Proc) {
    q.Pipe? ==>
      var r := q.g.run;
      && (q.phase == Registered ==> r !in s.windows && r !in s.sent)
      && (q.phase == Fenced ==> r !in s.sent && (r in s.exec && s.exec[r].status == Awaiting ==> r in s.windows))
      && (q.phase == Launching ==> r in s.exec && s.exec[r].status == Awaiting && r in s.sent && (r in s.windows || r in s.landed))
      && (q.phase == Launched ==> r in s.landed)
      && (q.phase == Releasing ==> forall w :: w in s.windows ==> s.windows[w].token != q.g.token)
  }

  /** While it holds its lease, its dispatch stands and the room its probe found is still there, unless its run
      took that room. */
  ghost predicate AdmissionOk(c: Config, s: State, q: Proc) {
    q.Pipe? && Holds(s, q.g.machine, q.g.token) && q.g.run in c.jobs ==>
      && (q.phase in {Marked, Owned, Registered} ==> DispatchStands(s, q.g.run, q.g.revision, q.g.machine, q.g.token))
      && (q.phase in {Admitted, Marked, Owned, Registered} ==>
            && Fits(c, q.g.run, q.g.machine)
            && (q.g.run !in s.landed ==> RoomFor(c, s, q.g.machine, c.jobs[q.g.run].workloadClass, q.g.cores, q.g.slots)))
  }

  /** When the record it relies on was read. */
  function ReadTime(q: Proc): Option<(RunId, Time)> {
    match q
    case RowRead(run, _, readAt) => Some((run, readAt))
    case Pipe(phase, g) => if phase == Leased then Some((g.run, g.readAt)) else None
    case NoRecord(run, _, readAt) => Some((run, readAt))
    case OneLease(run, _, readAt, _) => Some((run, readAt))
    case _ => None
  }

  /** If it may still fence a run, it read the run's record before the launch window opened. */
  ghost predicate ReadingOk(c: Config, s: State, q: Proc) {
    ReadTime(q).Some? ==>
      var (run, readAt) := ReadTime(q).value;
      readAt <= s.now && (Outlasts(c, run) && run in s.windows ==> readAt <= s.windows[run].openedAt)
  }

  /** The revision it saw as dispatching. */
  function SeenRevision(q: Proc): Option<(RunId, nat)> {
    match q
    case SawDispatching(run, revision) => Some((run, revision))
    case NoRecord(run, revision, _) => Some((run, revision))
    case OneLease(run, revision, _, _) => Some((run, revision))
    case Refenced(run, revision, _, _) => Some((run, revision))
    case Unfenced(run, revision) => Some((run, revision))
    case _ => None
  }

  /** Recovery never meets a live holder, except behind the one lease it is about to fence. */
  ghost predicate RecoveryOk(s: State, q: Proc) {
    SeenRevision(q).Some? ==>
      var (run, revision) := SeenRevision(q).value;
      && run in s.queue && revision <= s.queue[run].revision
      && (revision == s.queue[run].revision ==>
            && s.queue[run].status == InDispatch
            && (q.OneLease? && HolderAlive(s, run) ==> s.queue[run].holder.value.0 == q.machine)
            && (q.Refenced? || q.Unfenced? ==> !HolderAlive(s, run)))
  }

  /** It releases a lease on behalf of a run only after the launch is settled for good. */
  ghost predicate SettlementOk(s: State, q: Proc) {
    q.LeaseSettled? ==> q.run in s.exec && q.run !in s.windows && (s.exec[q.run].status != Awaiting || q.run in s.landed)
  }

  ghost predicate ProcOk(c: Config, s: State, q: Proc) {
    && OwnershipOk(c, s, q) && ProgressOk(s, q) && AdmissionOk(c, s, q)
    && ReadingOk(c, s, q) && RecoveryOk(s, q) && SettlementOk(s, q)
  }

  // ---------- all of it ----------

  ghost predicate TokensDistinct(procs: seq<Proc>) {
    forall p, q :: 0 <= p < |procs| && 0 <= q < |procs| && p != q && TokenOf(procs[p]).Some? ==> TokenOf(procs[p]) != TokenOf(procs[q])
  }

  ghost predicate Inv(c: Config, s: State) {
    && RecordsOk(c, s)
    && (forall p :: 0 <= p < |s.procs| ==> ProcOk(c, s, s.procs[p]))
    && TokensDistinct(s.procs)
  }
}
