/** What holds whatever the timing: a bootstrap is attempted at most once per run, a dispatched
    row has an execution record, and a row is queued again only behind a fenced lease. None of
    it depends on how long a lease lasts or how stale a read is. */
module DispatchOnce {
  import opened Common
  import opened Placement
  import opened DispatchProtocol
  import opened DispatchInvariant
  import opened DispatchSteps

  ghost predicate HistoryOk(s: State) {
    && (forall i, j :: 0 <= i < j < |s.sent| ==> s.sent[i] != s.sent[j])
    && (forall r :: r in s.sent ==> r in s.exec)
    && (forall r :: r in s.queue && s.queue[r].status == Dispatched ==> r in s.exec)
  }

  ghost predicate DispatcherOk(c: Config, s: State, q: Proc) {
    && OwnershipOk(c, s, q) && RecoveryOk(s, q)
    && (q.Pipe? && q.phase in {Registered, Fenced} ==> q.g.run !in s.sent)
  }

  ghost predicate TimelessInv(c: Config, s: State) {
    && TablesOk(c, s) && HistoryOk(s)
    && (forall p :: 0 <= p < |s.procs| ==> DispatcherOk(c, s, s.procs[p]))
    && TokensDistinct(s.procs)
  }

  ghost predicate SharedOk(c: Config, s: State, m: State) {
    m.procs == s.procs && TablesOk(c, m) && HistoryOk(m) && forall i :: 0 <= i < |s.procs| ==> DispatcherOk(c, m, s.procs[i])
  }

  // ---------- changes of the shared records ----------

  /** Rows, leases, registrations and attempts stay; times, windows, live runs and statuses may change. */
  predicate Harmless(s: State, t: State) {
    && t.nextToken == s.nextToken && t.queue == s.queue && t.leases == s.leases && t.sent == s.sent && t.procs == s.procs
    && t.exec.Keys == s.exec.Keys
    && forall r :: r in s.exec ==> t.exec[r].token == s.exec[r].token && t.exec[r].machine == s.exec[r].machine
  }

  lemma HarmlessKeeps(c: Config, s: State, t: State)
    requires TimelessInv(c, s) && Harmless(s, t)
    ensures SharedOk(c, s, t) && TimelessInv(c, t)
  {
    assert forall r :: HolderAlive(s, r) == HolderAlive(t, r);
    forall i | 0 <= i < |s.procs| ensures DispatcherOk(c, t, s.procs[i]) { assert DispatcherOk(c, s, s.procs[i]); }
  }

  lemma AcquireKeeps(c: Config, s: State, m: MachineId, r: RunId)
    requires TimelessInv(c, s) && CanAcquire(s, m, r)
    ensures SharedOk(c, s, Acquire(c, s, m, r))
  {
    var t := Acquire(c, s, m, r);
    assert forall x :: HolderAlive(t, x) ==> HolderAlive(s, x);
    forall i | 0 <= i < |s.procs| ensures DispatcherOk(c, t, s.procs[i]) { assert DispatcherOk(c, s, s.procs[i]); }
  }

  lemma RenewKeeps(c: Config, s: State, m: MachineId)
    requires TimelessInv(c, s) && m in s.leases
    ensures SharedOk(c, s, Renew(c, s, m))
  {
    var t := Renew(c, s, m);
    assert forall x :: HolderAlive(t, x) == HolderAlive(s, x);
    forall i | 0 <= i < |s.procs| ensures DispatcherOk(c, t, s.procs[i]) { assert DispatcherOk(c, s, s.procs[i]); }
  }

  lemma ReleaseKeeps(c: Config, s: State, m: MachineId, r: RunId, k: Token)
    requires TimelessInv(c, s)
    ensures SharedOk(c, s, Release(s, m, r, k))
  {
    var t := Release(s, m, r, k);
    assert forall x :: HolderAlive(t, x) ==> HolderAlive(s, x);
    forall i | 0 <= i < |s.procs| ensures DispatcherOk(c, t, s.procs[i]) { assert DispatcherOk(c, s, s.procs[i]); }
  }

  lemma QueueKeeps(c: Config, s: State, r: RunId, status: QueueStatus, holder: Option<(MachineId, Token)>)
    requires TimelessInv(c, s) && LegalMove(s, r, status, holder) && (status == Dispatched ==> r in s.exec)
    ensures SharedOk(c, s, SetQueue(s, r, status, holder))
  {
    var t := SetQueue(s, r, status, holder);
    QueueTables(c, s, r, status, holder);
    hide TablesOk;
    forall i | 0 <= i < |s.procs| ensures DispatcherOk(c, t, s.procs[i]) {
      hide LegalMove, OwnershipOk, RecoveryOk;
      assert DispatcherOk(c, s, s.procs[i]);
      SameOwnership(c, s, t, s.procs[i]);
      QueueRecovery(s, r, status, holder, s.procs[i]);
    }
  }

  lemma SubmitKeeps(c: Config, s: State, r: RunId)
    requires TimelessInv(c, s) && r !in s.queue
    ensures SharedOk(c, s, Submitted(s, r)) && TimelessInv(c, Submitted(s, r))
  {
    var t := Submitted(s, r);
    SubmittedTables(c, s, r);
    hide TablesOk;
    forall i | 0 <= i < |s.procs| ensures DispatcherOk(c, t, s.procs[i]) {
      hide OwnershipOk, RecoveryOk;
      assert DispatcherOk(c, s, s.procs[i]);
      SameOwnership(c, s, t, s.procs[i]);
      SubmittedRecovery(s, r, s.procs[i]);
    }
  }

  lemma SubmittedRecovery(s: State, r: RunId, q: Proc)
    requires RecoveryOk(s, q) && r !in s.queue
    ensures RecoveryOk(Submitted(s, r), q)
  {
    assert forall x :: x != r ==> HolderAlive(Submitted(s, r), x) == HolderAlive(s, x);
  }

  // ---------- one dispatcher moves on ----------

  lemma Moves(c: Config, s: State, m: State, p: nat, q: Proc)
    requires p < |s.procs| && SharedOk(c, s, m) && TokensDistinct(s.procs) && DispatcherOk(c, m, q)
    requires TokenOf(q).None? || TokenOf(q) == TokenOf(s.procs[p])
             || forall i :: 0 <= i < |s.procs| && i != p ==> TokenOf(s.procs[i]) != TokenOf(q)
    ensures TimelessInv(c, SetProc(m, p, q))
  {
    var t := SetProc(m, p, q);
    SameTables(c, m, t);
    hide TablesOk;
    forall i | 0 <= i < |t.procs| ensures DispatcherOk(c, t, t.procs[i]) {
      assert DispatcherOk(c, m, t.procs[i]);
      SameOwnership(c, m, t, t.procs[i]);
      SameRecovery(m, t, t.procs[i]);
    }
  }

  lemma Unshared(c: Config, s: State)
    requires TimelessInv(c, s)
    ensures SharedOk(c, s, s)
  {
  }

  /** Moves that change the dispatcher only. */
  predicate PlainMove(before: Proc, q: Proc) {
    || q.Idle? || q.RowRead? || q.LeaseListed? || q.LeaseSettled?
    || (q.Pipe? && before.Pipe? && q.g == before.g
        && ((BeforeRegistration(before) && BeforeRegistration(q))
            || (AfterRegistration(before) && AfterRegistration(q) && (q.phase in {Registered, Fenced} ==> before.phase in {Registered, Fenced}))
            || q.phase == Releasing))
  }

  lemma PlainMoveKeeps(c: Config, s: State, m: State, p: nat, q: Proc)
    requires p < |s.procs| && TimelessInv(c, s) && SharedOk(c, s, m) && PlainMove(s.procs[p], q) && (q.RowRead? ==> q.run in c.jobs)
    ensures TimelessInv(c, SetProc(m, p, q))
  {
    hide TablesOk, HistoryOk, DispatcherOk, TokensDistinct;
    PlainMoveOk(c, m, s.procs[p], q);
    Moves(c, s, m, p, q);
  }

  lemma PlainMoveOk(c: Config, m: State, before: Proc, q: Proc)
    requires DispatcherOk(c, m, before) && PlainMove(before, q) && (q.RowRead? ==> q.run in c.jobs)
    ensures DispatcherOk(c, m, q)
  {
  }

  /** What every dispatcher knows of its job and machine. */
  lemma JobFacts(c: Config, s: State, q: Proc)
    requires DispatcherOk(c, s, q)
    ensures q.RowRead? ==> q.run in c.jobs
    ensures q.Pipe? ==> q.g.run in c.jobs && q.g.machine in c.cores && (AfterRegistration(q) ==> q.g.run in s.exec)
  {
  }

  lemma AcquiredBy(c: Config, s: State, p: nat, m: MachineId, q: Proc)
    requires TimelessInv(c, s) && p < |s.procs| && TokenOf(q) == Some(s.nextToken)
    requires s.procs[p].RowRead? || s.procs[p].OneLease?
    requires CanAcquire(s, m, s.procs[p].run) && DispatcherOk(c, Acquire(c, s, m, s.procs[p].run), q)
    ensures TimelessInv(c, SetProc(Acquire(c, s, m, s.procs[p].run), p, q))
  {
    AcquireKeeps(c, s, m, s.procs[p].run);
    forall i | 0 <= i < |s.procs| ensures TokenOf(s.procs[i]) != TokenOf(q) { assert DispatcherOk(c, s, s.procs[i]); }
    hide TablesOk, HistoryOk, DispatcherOk;
    Moves(c, s, Acquire(c, s, m, s.procs[p].run), p, q);
  }

  function RowMarked(s: State, g: Grant): State
    requires g.run in s.queue
  {
    SetQueue(s, g.run, InDispatch, Some((g.machine, g.token)))
  }

  lemma MarkKeeps(c: Config, s: State, p: nat, g: Grant)
    requires AtPhase(s, p, Admitted) && g == s.procs[p].g && QueueAt(s, g.run, Queued, g.revision) && TimelessInv(c, s)
    ensures TimelessInv(c, SetProc(RowMarked(s, g), p, Pipe(Marked, g.(revision := g.revision + 1))))
  {
    hide TablesOk, HistoryOk, TokensDistinct, LegalMove, DispatcherOk;
    MarkLegal(c, s, s.procs[p]);
    QueueKeeps(c, s, g.run, InDispatch, Some((g.machine, g.token)));
    MarkedMoves(c, RowMarked(s, g), s.procs[p]);
    Moves(c, s, RowMarked(s, g), p, Pipe(Marked, g.(revision := g.revision + 1)));
  }

  lemma MarkLegal(c: Config, s: State, q: Proc)
    requires DispatcherOk(c, s, q) && q.Pipe? && QueueAt(s, q.g.run, Queued, q.g.revision)
    ensures q.g.run in s.queue && LegalMove(s, q.g.run, InDispatch, Some((q.g.machine, q.g.token)))
  {
  }

  lemma MarkedMoves(c: Config, t: State, q: Proc)
    requires DispatcherOk(c, t, q) && q.Pipe? && q.phase == Admitted
    ensures DispatcherOk(c, t, Pipe(Marked, q.g.(revision := q.g.revision + 1)))
  {
  }

  lemma RegisterKeeps(c: Config, s: State, p: nat)
    requires TimelessInv(c, s) && AtPhase(s, p, Owned) && s.procs[p].g.run !in s.exec
    ensures var g := s.procs[p].g; TimelessInv(c, SetProc(Registration(s, g.run, g.machine, g.token), p, Pipe(Registered, g)))
  {
    hide TablesOk, DispatcherOk;
    var g := s.procs[p].g;
    var m := Registration(s, g.run, g.machine, g.token);
    var t := SetProc(m, p, Pipe(Registered, g));
    MayRegister(c, s, s.procs[p]);
    RegistrationTables(c, s, g.run, g.machine, g.token);
    SameTables(c, m, t);
    forall i | 0 <= i < |t.procs| ensures DispatcherOk(c, t, t.procs[i]) {
      if i == p { RegisteredDispatcher(c, s, t, s.procs[p]); } else { RegistrationDispatcher(c, s, t, g, s.procs[i]); }
    }
  }

  lemma MayRegister(c: Config, s: State, q: Proc)
    requires DispatcherOk(c, s, q) && q.Pipe? && q.phase == Owned
    ensures q.g.run in c.jobs && q.g.token < s.nextToken && forall x :: x in s.exec ==> s.exec[x].token != q.g.token
  {
  }

  lemma RegisteredDispatcher(c: Config, s: State, t: State, q: Proc)
    requires DispatcherOk(c, s, q) && q.Pipe? && q.phase == Owned && q.g.run !in s.exec && q.g.run !in s.sent
    requires t == Registration(s, q.g.run, q.g.machine, q.g.token).(procs := t.procs)
    ensures DispatcherOk(c, t, Pipe(Registered, q.g))
  {
  }

  lemma RegistrationDispatcher(c: Config, s: State, t: State, g: Grant, q: Proc)
    requires DispatcherOk(c, s, q) && g.run !in s.exec && TokenOf(q) != Some(g.token)
    requires t == Registration(s, g.run, g.machine, g.token).(procs := t.procs)
    ensures DispatcherOk(c, t, q)
  {
    SameRecovery(s, t, q);
    hide RecoveryOk;
  }

  /** Only its registrar may be about to bootstrap a run, so no other dispatcher still could. */
  lemma SendKeeps(c: Config, s: State, p: nat)
    requires TimelessInv(c, s) && AtPhase(s, p, Fenced)
    ensures var g := s.procs[p].g; TimelessInv(c, SetProc(BootstrapSent(s, g.run), p, Pipe(Launching, g)))
  {
    hide TablesOk, DispatcherOk, TokensDistinct, HistoryOk;
    var g := s.procs[p].g;
    var t := SetProc(BootstrapSent(s, g.run), p, Pipe(Launching, g));
    SentTables(c, s, t, p);
    assert TimelessInv(c, s) && DispatcherOk(c, s, s.procs[p]);
    forall i | 0 <= i < |t.procs| ensures DispatcherOk(c, t, t.procs[i]) {
      if i == p {
        SentSelf(c, s, t, s.procs[p]);
      } else {
        OtherRegistrar(c, s, p, i);
        SentDispatcher(c, s, t, g.run, s.procs[i]);
      }
    }
  }

  lemma SentTables(c: Config, s: State, t: State, p: nat)
    requires TablesOk(c, s) && HistoryOk(s) && TokensDistinct(s.procs) && AtPhase(s, p, Fenced) && DispatcherOk(c, s, s.procs[p])
    requires t == SetProc(BootstrapSent(s, s.procs[p].g.run), p, Pipe(Launching, s.procs[p].g))
    ensures TablesOk(c, t) && HistoryOk(t) && TokensDistinct(t.procs)
  {
    SameTables(c, s, t);
    hide TablesOk, RecoveryOk;
  }

  lemma SentSelf(c: Config, s: State, t: State, q: Proc)
    requires DispatcherOk(c, s, q) && q.Pipe? && q.phase == Fenced
    requires t.leases == s.leases && t.queue == s.queue && t.exec == s.exec && t.nextToken == s.nextToken
    ensures DispatcherOk(c, t, Pipe(Launching, q.g))
  {
  }

  lemma OtherRegistrar(c: Config, s: State, p: nat, i: nat)
    requires AtPhase(s, p, Fenced) && i < |s.procs| && i != p && TokensDistinct(s.procs)
    requires DispatcherOk(c, s, s.procs[p]) && DispatcherOk(c, s, s.procs[i])
    ensures s.procs[i].Pipe? && s.procs[i].phase in {Registered, Fenced} ==> s.procs[i].g.run != s.procs[p].g.run
  {
    hide RecoveryOk;
  }

  lemma SentDispatcher(c: Config, s: State, t: State, r: RunId, q: Proc)
    requires DispatcherOk(c, s, q) && (q.Pipe? && q.phase in {Registered, Fenced} ==> q.g.run != r)
    requires t.leases == s.leases && t.queue == s.queue && t.exec == s.exec && t.nextToken == s.nextToken && t.sent == s.sent + [r]
    ensures DispatcherOk(c, t, q)
  {
    hide OwnershipOk, RecoveryOk;
    SameOwnership(c, s, t, q);
    SameRecovery(s, t, q);
  }

  /** A dispatching row is settled as dispatched or closed. */
  lemma SettleKeeps(c: Config, s: State, r: RunId, status: QueueStatus)
    requires TimelessInv(c, s) && r in s.queue && s.queue[r].status in {Queued, InDispatch}
             && status in {Dispatched, Closed}
    requires status == Dispatched ==> r in s.exec
    ensures SharedOk(c, s, SetQueue(s, r, status, None))
  {
    hide TablesOk, HistoryOk, DispatcherOk;
    QueueKeeps(c, s, r, status, None);
  }

  // ---------- all steps ----------

  lemma LaunchKeeps(c: Config, s: State, p: nat, l: LaunchStep)
    requires TimelessInv(c, s) && p < |s.procs| && LaunchNext(c, s, p, l).Some?
    ensures TimelessInv(c, LaunchNext(c, s, p, l).value)
  {
    hide TimelessInv, LaunchNext;
    match l
    case AcquireLease(m) => LeaseKeeps(c, s, p, m);
    case ProbeAndAdmit => AdmitKeeps(c, s, p);
    case MarkDispatching => MarkStepKeeps(c, s, p);
    case Register => RegisterStepKeeps(c, s, p);
    case CheckFence => FenceKeeps(c, s, p);
    case SendBootstrap => SendStepKeeps(c, s, p);
    case CommitDispatched => CommitKeeps(c, s, p);
    case SettleUnknown => UnknownKeeps(c, s, p);
    case RecordFailure => FailureKeeps(c, s, p);
    case ReadRow(_) => LeaseSideKeeps(c, s, p, l);
    case GiveUpMachine => LeaseSideKeeps(c, s, p, l);
    case GiveLeaseBack => LeaseSideKeeps(c, s, p, l);
    case Heartbeat => LeaseSideKeeps(c, s, p, l);
    case CheckOwned => CheckOwnedKeeps(c, s, p);
    case _ => OutcomeKeeps(c, s, p, l);
  }

  lemma MarkStepKeeps(c: Config, s: State, p: nat)
    requires TimelessInv(c, s) && p < |s.procs| && LaunchNext(c, s, p, MarkDispatching).Some?
    ensures TimelessInv(c, LaunchNext(c, s, p, MarkDispatching).value)
  {
    hide TimelessInv, SharedOk;
    Unshared(c, s);
    var q := s.procs[p];
    if QueueAt(s, q.g.run, Queued, q.g.revision) { MarkKeeps(c, s, p, q.g); }
    else { PlainMoveKeeps(c, s, s, p, Pipe(Releasing, q.g)); }
  }

  lemma RegisterStepKeeps(c: Config, s: State, p: nat)
    requires TimelessInv(c, s) && p < |s.procs| && LaunchNext(c, s, p, Register).Some?
    ensures TimelessInv(c, LaunchNext(c, s, p, Register).value)
  {
    hide TimelessInv, SharedOk;
    Unshared(c, s);
    var q := s.procs[p];
    if q.g.run in s.exec { PlainMoveKeeps(c, s, s, p, Pipe(Failing, q.g)); } else { RegisterKeeps(c, s, p); }
  }

  lemma SendStepKeeps(c: Config, s: State, p: nat)
    requires TimelessInv(c, s) && p < |s.procs| && LaunchNext(c, s, p, SendBootstrap).Some?
    ensures TimelessInv(c, LaunchNext(c, s, p, SendBootstrap).value)
  {
    hide TimelessInv, SharedOk;
    Unshared(c, s);
    var q := s.procs[p];
    if q.g.run in s.exec && s.exec[q.g.run].status == Awaiting { SendKeeps(c, s, p); }
    else { PlainMoveKeeps(c, s, s, p, Pipe(FailingRegistered, q.g)); }
  }

  lemma LeaseKeeps(c: Config, s: State, p: nat, m: MachineId)
    requires TimelessInv(c, s) && p < |s.procs| && LaunchNext(c, s, p, AcquireLease(m)).Some?
    ensures TimelessInv(c, LaunchNext(c, s, p, AcquireLease(m)).value)
  {
    var q := s.procs[p];
    assert DispatcherOk(c, s, q);
    AcquiredBy(c, s, p, m, Pipe(Leased, Grant(q.run, q.revision, q.readAt, m, s.nextToken, 1, 0)));
  }

  lemma AdmitKeeps(c: Config, s: State, p: nat)
    requires TimelessInv(c, s) && p < |s.procs| && LaunchNext(c, s, p, ProbeAndAdmit).Some?
    ensures TimelessInv(c, LaunchNext(c, s, p, ProbeAndAdmit).value)
  {
    var g := s.procs[p].g;
    var job, cores := c.jobs[g.run], c.cores[g.machine];
    var slots := SlotsOf(s, g.machine, job.workloadClass);
    var next := Pipe(Admitted, g.(cores := Allocation(job, cores), slots := slots));
    Unshared(c, s);
    assert DispatcherOk(c, s, s.procs[p]);
    assert DispatcherOk(c, s, next);
    ReleaseKeeps(c, s, g.machine, g.run, g.token);
    hide TimelessInv, DispatcherOk, SharedOk, Release, Admits;
    if Admits(job, ActiveOn(s.live, g.machine), cores, slots) {
      AdmittedMoves(c, s, p, next);
    } else {
      PlainMoveKeeps(c, s, Release(s, g.machine, g.run, g.token), p, RowRead(g.run, g.revision, g.readAt));
    }
  }

  lemma AdmittedMoves(c: Config, s: State, p: nat, q: Proc)
    requires TimelessInv(c, s) && p < |s.procs| && DispatcherOk(c, s, q) && TokenOf(q) == TokenOf(s.procs[p])
    ensures TimelessInv(c, SetProc(s, p, q))
  {
    hide TablesOk, HistoryOk, DispatcherOk;
    Moves(c, s, s, p, q);
  }

  lemma FenceKeeps(c: Config, s: State, p: nat)
    requires TimelessInv(c, s) && p < |s.procs| && LaunchNext(c, s, p, CheckFence).Some?
    ensures TimelessInv(c, LaunchNext(c, s, p, CheckFence).value)
  {
    var g := s.procs[p].g;
    Unshared(c, s);
    hide TablesOk, HistoryOk, DispatcherOk;
    if Holds(s, g.machine, g.token) {
      RenewKeeps(c, s, g.machine);
      var renewed := SetProc(Renew(c, s, g.machine), p, Pipe(Fenced, g));
      PlainMoveKeeps(c, s, Renew(c, s, g.machine), p, Pipe(Fenced, g));
      HarmlessKeeps(c, renewed,
        renewed.(windows := s.windows[g.run := Window(g.machine, g.token, s.now, g.revision, g.cores, g.slots, false)]));
    } else {
      PlainMoveKeeps(c, s, s, p, Pipe(Unsure, g));
    }
  }

  lemma CommitKeeps(c: Config, s: State, p: nat)
    requires TimelessInv(c, s) && p < |s.procs| && LaunchNext(c, s, p, CommitDispatched).Some?
    ensures TimelessInv(c, LaunchNext(c, s, p, CommitDispatched).value)
  {
    var g := s.procs[p].g;
    Unshared(c, s);
    assert DispatcherOk(c, s, s.procs[p]);
    hide TablesOk, HistoryOk, DispatcherOk;
    if !Holds(s, g.machine, g.token) { PlainMoveKeeps(c, s, s, p, Pipe(Unsure, g)); }
    else if QueueAt(s, g.run, InDispatch, g.revision) {
      SettleKeeps(c, s, g.run, Dispatched);
      PlainMoveKeeps(c, s, SetQueue(s, g.run, Dispatched, None), p, Pipe(Releasing, g));
    }
    else if g.run in s.queue && s.queue[g.run].status == Dispatched { PlainMoveKeeps(c, s, s, p, Pipe(Releasing, g)); }
    else { PlainMoveKeeps(c, s, s, p, Pipe(Unsure, g)); }
  }

  lemma UnknownKeeps(c: Config, s: State, p: nat)
    requires TimelessInv(c, s) && p < |s.procs| && LaunchNext(c, s, p, SettleUnknown).Some?
    ensures TimelessInv(c, LaunchNext(c, s, p, SettleUnknown).value)
  {
    var g := s.procs[p].g;
    Unshared(c, s);
    assert DispatcherOk(c, s, s.procs[p]);
    hide TablesOk, HistoryOk, DispatcherOk;
    var done := if Visible(s, g.run, g.machine) then Pipe(Releasing, g) else Idle;
    if QueueAt(s, g.run, InDispatch, g.revision) {
      SettleKeeps(c, s, g.run, Dispatched);
      PlainMoveKeeps(c, s, SetQueue(s, g.run, Dispatched, None), p, done);
    } else {
      PlainMoveKeeps(c, s, s, p, done);
    }
  }

  lemma FailureKeeps(c: Config, s: State, p: nat)
    requires TimelessInv(c, s) && p < |s.procs| && LaunchNext(c, s, p, RecordFailure).Some?
    ensures TimelessInv(c, LaunchNext(c, s, p, RecordFailure).value)
  {
    hide TimelessInv, RunLocked, QueueAt;
    var g := s.procs[p].g;
    var ended := if AtPhase(s, p, FailingRegistered) && g.run in s.exec && s.exec[g.run].status == Awaiting
                 then Concluded(s, g.run, Ended) else s;
    HarmlessKeeps(c, s, ended);
    FailureThenReleases(c, ended, p);
    SameRow(s, ended, g.run, g.revision);
  }

  lemma SameRow(s: State, t: State, r: RunId, revision: nat)
    requires t.queue == s.queue
    ensures QueueAt(t, r, InDispatch, revision) == QueueAt(s, r, InDispatch, revision)
  {
  }

  lemma FailureThenReleases(c: Config, s: State, p: nat)
    requires TimelessInv(c, s) && p < |s.procs| && s.procs[p].Pipe? && s.procs[p].phase in {Failing, FailingRegistered}
    ensures var g := s.procs[p].g;
            if QueueAt(s, g.run, InDispatch, g.revision)
            then TimelessInv(c, SetProc(SetQueue(s, g.run, Closed, None), p, Pipe(Releasing, g)))
            else TimelessInv(c, SetProc(s, p, Pipe(Releasing, g)))
  {
    var g := s.procs[p].g;
    Unshared(c, s);
    hide TimelessInv;
    if QueueAt(s, g.run, InDispatch, g.revision) {
      SettleKeeps(c, s, g.run, Closed);
      PlainMoveKeeps(c, s, SetQueue(s, g.run, Closed, None), p, Pipe(Releasing, g));
    } else {
      PlainMoveKeeps(c, s, s, p, Pipe(Releasing, g));
    }
  }

  lemma LeaseSideKeeps(c: Config, s: State, p: nat, l: LaunchStep)
    requires TimelessInv(c, s) && p < |s.procs| && LaunchNext(c, s, p, l).Some?
    requires l.ReadRow? || l.GiveUpMachine? || l.GiveLeaseBack? || l.Heartbeat?
    ensures TimelessInv(c, LaunchNext(c, s, p, l).value)
  {
    var q := s.procs[p];
    Unshared(c, s);
    JobFacts(c, s, q);
    hide TimelessInv, DispatcherOk, SharedOk;
    match l
    case ReadRow(run) => PlainMoveKeeps(c, s, s, p, RowRead(run, s.queue[run].revision, s.now));
    case GiveUpMachine =>
      ReleaseKeeps(c, s, q.g.machine, q.g.run, q.g.token);
      PlainMoveKeeps(c, s, Release(s, q.g.machine, q.g.run, q.g.token), p, RowRead(q.g.run, q.g.revision, q.g.readAt));
    case GiveLeaseBack =>
      ReleaseKeeps(c, s, q.g.machine, q.g.run, q.g.token);
      PlainMoveKeeps(c, s, Release(s, q.g.machine, q.g.run, q.g.token), p, Idle);
    case Heartbeat => HeartbeatKeeps(c, s, q.g.machine);
  }

  lemma CheckOwnedKeeps(c: Config, s: State, p: nat)
    requires TimelessInv(c, s) && p < |s.procs| && LaunchNext(c, s, p, CheckOwned).Some?
    ensures TimelessInv(c, LaunchNext(c, s, p, CheckOwned).value)
  {
    hide TimelessInv, SharedOk;
    var q := s.procs[p];
    Unshared(c, s);
    if Holds(s, q.g.machine, q.g.token) {
      RenewKeeps(c, s, q.g.machine);
      PlainMoveKeeps(c, s, Renew(c, s, q.g.machine), p, Pipe(Owned, q.g));
    } else {
      PlainMoveKeeps(c, s, s, p, Pipe(Failing, q.g));
    }
  }

  lemma OutcomeKeeps(c: Config, s: State, p: nat, l: LaunchStep)
    requires TimelessInv(c, s) && p < |s.procs| && LaunchNext(c, s, p, l).Some?
    requires l.AbortBeforeRegister? || l.AbortBeforeBootstrap? || l.BootstrapConfirmed? || l.BootstrapRejected? || l.BootstrapUnknown?
    ensures TimelessInv(c, LaunchNext(c, s, p, l).value)
  {
    hide TimelessInv, SharedOk;
    var q := s.procs[p];
    Unshared(c, s);
    match l
    case AbortBeforeRegister => PlainMoveKeeps(c, s, s, p, Pipe(Failing, q.g));
    case AbortBeforeBootstrap => PlainMoveKeeps(c, s, s, p, Pipe(FailingRegistered, q.g));
    case BootstrapConfirmed =>
      var m := s.(exec := s.exec[q.g.run := s.exec[q.g.run].(status := Running)]);
      HarmlessKeeps(c, s, m);
      PlainMoveKeeps(c, s, m, p, Pipe(Launched, q.g));
    case BootstrapRejected =>
      HarmlessKeeps(c, s, WindowClosed(s, q.g.run));
      PlainMoveKeeps(c, s, WindowClosed(s, q.g.run), p, Pipe(FailingRegistered, q.g));
    case BootstrapUnknown => PlainMoveKeeps(c, s, s, p, Pipe(Unsure, q.g));
  }

  lemma HeartbeatKeeps(c: Config, s: State, m: MachineId)
    requires TimelessInv(c, s) && m in s.leases
    ensures TimelessInv(c, Renew(c, s, m))
  {
    hide TablesOk, HistoryOk, DispatcherOk;
    RenewKeeps(c, s, m);
  }

  /** What a repairing dispatcher may conclude from what it sees now. */
  lemma RepairMoves(c: Config, s: State, p: nat, q: Proc)
    requires TimelessInv(c, s) && p < |s.procs|
    requires || (q.SawDispatching? && QueueAt(s, q.run, InDispatch, q.revision))
             || (q.NoRecord? && s.procs[p].SawDispatching? && q.run == s.procs[p].run && q.revision == s.procs[p].revision)
             || (q.Unfenced? && s.procs[p].NoRecord? && q == Unfenced(s.procs[p].run, s.procs[p].revision) && LeasesOf(s, q.run) == {})
             || (q.OneLease? && s.procs[p].NoRecord? && q.run == s.procs[p].run && q.revision == s.procs[p].revision
                 && LeasesOf(s, q.run) == {q.machine})
    ensures TimelessInv(c, SetProc(s, p, q))
  {
    assert DispatcherOk(c, s, s.procs[p]);
    assert HolderAlive(s, q.run) ==> s.queue[q.run].holder.value.0 in LeasesOf(s, q.run);
    assert DispatcherOk(c, s, q);
    Unshared(c, s);
    hide TablesOk, HistoryOk, DispatcherOk;
    Moves(c, s, s, p, q);
  }

  lemma RefenceKeeps(c: Config, s: State, p: nat)
    requires TimelessInv(c, s) && p < |s.procs| && RepairNext(c, s, p, Refence).Some?
    ensures TimelessInv(c, RepairNext(c, s, p, Refence).value)
  {
    var q := s.procs[p];
    assert DispatcherOk(c, s, q);
    AcquiredBy(c, s, p, q.machine, Refenced(q.run, q.revision, q.machine, s.nextToken));
  }

  lemma ReleaseRefencedKeeps(c: Config, s: State, p: nat)
    requires TimelessInv(c, s) && p < |s.procs| && RepairNext(c, s, p, ReleaseRefenced).Some?
    ensures TimelessInv(c, RepairNext(c, s, p, ReleaseRefenced).value)
  {
    var q := s.procs[p];
    var m := Release(s, q.machine, q.run, q.token);
    ReleaseKeeps(c, s, q.machine, q.run, q.token);
    assert DispatcherOk(c, m, q);
    assert DispatcherOk(c, m, Unfenced(q.run, q.revision));
    hide TablesOk, HistoryOk, DispatcherOk, Release;
    Moves(c, s, m, p, Unfenced(q.run, q.revision));
  }

  /** A row goes back to the queue only when the lease it was dispatched under is gone. */
  lemma RequeueKeeps(c: Config, s: State, p: nat)
    requires TimelessInv(c, s) && p < |s.procs| && s.procs[p].Unfenced?
    requires QueueAt(s, s.procs[p].run, InDispatch, s.procs[p].revision)
    ensures !HolderAlive(s, s.procs[p].run)
            && TimelessInv(c, SetProc(SetQueue(s, s.procs[p].run, Queued, None), p, Idle))
  {
    assert DispatcherOk(c, s, s.procs[p]);
    hide TablesOk, HistoryOk, DispatcherOk;
    QueueKeeps(c, s, s.procs[p].run, Queued, None);
    PlainMoveKeeps(c, s, SetQueue(s, s.procs[p].run, Queued, None), p, Idle);
  }

  lemma RepairKeeps(c: Config, s: State, p: nat, r: RepairStep)
    requires TimelessInv(c, s) && p < |s.procs| && RepairNext(c, s, p, r).Some?
    ensures TimelessInv(c, RepairNext(c, s, p, r).value)
  {
    hide TimelessInv, SharedOk;
    var q := s.procs[p];
    Unshared(c, s);
    match r
    case ReadDispatching(run) => RepairMoves(c, s, p, SawDispatching(run, s.queue[run].revision));
    case CheckRecord =>
      if q.run !in s.exec { RepairMoves(c, s, p, NoRecord(q.run, q.revision, s.now)); }
      else if QueueAt(s, q.run, InDispatch, q.revision) {
        SettleKeeps(c, s, q.run, Dispatched);
        PlainMoveKeeps(c, s, SetQueue(s, q.run, Dispatched, None), p, Idle);
      } else { PlainMoveKeeps(c, s, s, p, Idle); }
    case ListLeases =>
      if LeasesOf(s, q.run) == {} { RepairMoves(c, s, p, Unfenced(q.run, q.revision)); }
      else if exists m :: m in s.leases && LeasesOf(s, q.run) == {m} {
        var m :| m in s.leases && LeasesOf(s, q.run) == {m};
        RepairMoves(c, s, p, OneLease(q.run, q.revision, q.readAt, m));
      } else { PlainMoveKeeps(c, s, s, p, Idle); }
    case Refence => RefenceKeeps(c, s, p);
    case ReleaseRefenced => ReleaseRefencedKeeps(c, s, p);
    case Requeue =>
      if QueueAt(s, q.run, InDispatch, q.revision) { RequeueKeeps(c, s, p); }
      else { PlainMoveKeeps(c, s, s, p, Idle); }
    case ListLease(m) => PlainMoveKeeps(c, s, s, p, LeaseListed(m, s.leases[m].run, s.leases[m].token));
    case CheckSettled =>
      if q.run in s.exec && (s.exec[q.run].status != Awaiting || Visible(s, q.run, q.machine)) {
        PlainMoveKeeps(c, s, s, p, LeaseSettled(q.machine, q.run, q.token));
      } else { PlainMoveKeeps(c, s, s, p, Idle); }
    case ReleaseSettled =>
      ReleaseKeeps(c, s, q.machine, q.run, q.token);
      PlainMoveKeeps(c, s, Release(s, q.machine, q.run, q.token), p, Idle);
  }

  lemma OutsideKeeps(c: Config, s: State, o: OutsideStep)
    requires TimelessInv(c, s) && OutsideNext(c, s, o).Some?
    ensures TimelessInv(c, OutsideNext(c, s, o).value)
  {
    hide TimelessInv, SharedOk;
    Unshared(c, s);
    match o
    case Submit(run) => SubmitKeeps(c, s, run);
    case CancelRow(run) => CancelKeeps(c, s, run);
    case Crash(p) => PlainMoveKeeps(c, s, s, p, Idle);
    case _ => HarmlessKeeps(c, s, OutsideNext(c, s, o).value);
  }

  lemma CancelKeeps(c: Config, s: State, r: RunId)
    requires TimelessInv(c, s) && r in s.queue && s.queue[r].status in {Queued, InDispatch}
    ensures TimelessInv(c, SetQueue(s, r, Closed, None))
  {
    hide TablesOk, HistoryOk, DispatcherOk;
    SettleKeeps(c, s, r, Closed);
  }

  lemma TimelessStep(c: Config, s: State, step: Step)
    requires TimelessInv(c, s) && Next(c, s, step).Some?
    ensures TimelessInv(c, Next(c, s, step).value)
  {
    hide TimelessInv, LaunchNext, RepairNext, OutsideNext;
    match step
    case L(p, l) => LaunchKeeps(c, s, p, l);
    case R(p, r) => RepairKeeps(c, s, p, r);
    case O(o) => OutsideKeeps(c, s, o);
  }

  lemma {:induction false} TimelessRun(c: Config, s: State, steps: seq<Step>)
    requires TimelessInv(c, s) && Run(c, s, steps).Some?
    ensures TimelessInv(c, Run(c, s, steps).value)
    decreases |steps|
  {
    if steps != [] {
      hide TimelessInv;
      TimelessStep(c, s, steps[0]);
      TimelessRun(c, Next(c, s, steps[0]).value, steps[1..]);
    }
  }
}
