/** Every step of the protocol keeps the invariant, provided the lease of every run that shares a machine lasts
    at least as long as an acquire may lag behind the record read it rests on. */
module DispatchPreservation {
  import opened Common
  import opened Placement
  import opened DispatchProtocol
  import opened DispatchInvariant
  import opened DispatchSteps

  /** Dispatcher `p` moves on to `q` while the records change from those of `s` to those of `m`. */
  lemma Moved(c: Config, s: State, m: State, p: nat, q: Proc)
    requires p < |s.procs| && m.procs == s.procs && TokensDistinct(s.procs)
    requires RecordsOk(c, m) && ProcOk(c, m, q)
    requires forall i :: 0 <= i < |s.procs| && i != p ==> ProcOk(c, m, s.procs[i])
    requires TokenOf(q).None? || TokenOf(q) == TokenOf(s.procs[p])
             || forall i :: 0 <= i < |s.procs| && i != p ==> TokenOf(s.procs[i]) != TokenOf(q)
    ensures Inv(c, SetProc(m, p, q))
  {
    var t := SetProc(m, p, q);
    RecordsIgnoreProcs(c, m, t);
    hide RecordsOk, ProcOk;
    forall i | 0 <= i < |t.procs| ensures ProcOk(c, t, t.procs[i]) {
      ProcIgnoresProcs(c, m, t, t.procs[i]);
    }
  }

  /** The same when the records stay as they are. */
  lemma MovedOnly(c: Config, s: State, p: nat, q: Proc)
    requires Inv(c, s) && p < |s.procs| && ProcOk(c, s, q) && (TokenOf(q).None? || TokenOf(q) == TokenOf(s.procs[p]))
    ensures Inv(c, SetProc(s, p, q))
  {
    hide RecordsOk, ProcOk, TokensDistinct;
    Moved(c, s, s, p, q);
  }

  lemma OldToken(c: Config, s: State, q: Proc)
    requires OwnershipOk(c, s, q)
    ensures TokenOf(q) != Some(s.nextToken)
  {
  }

  /** Fencing `m` for `r` meets no open window of `r` on `m`: such a window opened after the read,
      so its lease outlives the allowed lag, if it is no shorter than that. */
  lemma FencesNoWindow(c: Config, s: State, q: Proc, m: MachineId)
    requires TablesOk(c, s) && WindowsOk(c, s) && ReadingOk(c, s, q) && ReadTime(q).Some?
    requires CanAcquire(s, m, ReadTime(q).value.0) && s.now - ReadTime(q).value.1 < c.lag
    ensures var r := ReadTime(q).value.0; Outlasts(c, r) && r in s.windows ==> s.windows[r].machine != m
  {
    var r := ReadTime(q).value.0;
    if r in s.windows { assert WindowOk(c, s, r); }
  }

  /** Two dispatchers never share the registration of a run. */
  lemma OneRegistrar(c: Config, s: State, p: nat, i: nat)
    requires TokensDistinct(s.procs) && p < |s.procs| && i < |s.procs| && p != i
    requires OwnershipOk(c, s, s.procs[p]) && OwnershipOk(c, s, s.procs[i])
    requires AfterRegistration(s.procs[p]) && AfterRegistration(s.procs[i])
    ensures s.procs[p].g.run != s.procs[i].g.run
  {
  }

  // ---------- windows and tokens ----------

  lemma NoWindowBeforeRegistration(c: Config, s: State, q: Proc, r: RunId)
    requires WindowsOk(c, s) && OwnershipOk(c, s, q) && BeforeRegistration(q) && r in s.windows
    ensures Some(s.windows[r].token) != TokenOf(q)
  {
    assert WindowOk(c, s, r);
  }

  lemma OnlyItsOwnWindow(c: Config, s: State, q: Proc, r: RunId)
    requires TablesOk(c, s) && WindowsOk(c, s) && OwnershipOk(c, s, q) && AfterRegistration(q)
    requires r in s.windows && s.windows[r].token == q.g.token
    ensures r == q.g.run
  {
    assert WindowOk(c, s, r);
  }

  lemma SeenMeansLanded(c: Config, s: State, r: RunId, m: MachineId)
    requires AttemptsOk(c, s) && WindowsOk(c, s) && r in c.jobs && Visible(s, r, m)
    ensures r in s.landed && r !in s.windows
  {
    assert r in s.windows ==> WindowOk(c, s, r);
  }

  lemma LandedMeansNoWindow(c: Config, s: State, r: RunId)
    requires WindowsOk(c, s) && r in s.landed
    ensures r !in s.windows
  {
    assert r in s.windows ==> WindowOk(c, s, r);
  }

  // ---------- the record changes, for every dispatcher at once ----------

  ghost predicate AllProcsOk(c: Config, s: State, m: State) {
    forall i :: 0 <= i < |s.procs| ==> ProcOk(c, m, s.procs[i])
  }

  lemma AllAcquired(c: Config, s: State, m: MachineId, r: RunId)
    requires Inv(c, s) && CanAcquire(s, m, r) && (Outlasts(c, r) && r in s.windows ==> s.windows[r].machine != m)
    ensures RecordsOk(c, Acquire(c, s, m, r)) && AllProcsOk(c, s, Acquire(c, s, m, r))
  {
    hide RecordsOk, ProcOk;
    AcquireRecords(c, s, m, r);
    forall i | 0 <= i < |s.procs| ensures ProcOk(c, Acquire(c, s, m, r), s.procs[i]) { AcquireProc(c, s, m, r, s.procs[i]); }
  }

  lemma AllRenewed(c: Config, s: State, m: MachineId)
    requires Inv(c, s) && m in s.leases
    ensures RecordsOk(c, Renew(c, s, m)) && AllProcsOk(c, s, Renew(c, s, m))
  {
    hide RecordsOk, ProcOk;
    RenewRecords(c, s, m);
    forall i | 0 <= i < |s.procs| ensures ProcOk(c, Renew(c, s, m), s.procs[i]) { RenewProc(c, s, m, s.procs[i]); }
  }

  lemma AllReleased(c: Config, s: State, m: MachineId, r: RunId, k: Token)
    requires Inv(c, s) && (r in s.windows ==> s.windows[r].token != k)
    ensures RecordsOk(c, Release(s, m, r, k)) && AllProcsOk(c, s, Release(s, m, r, k))
  {
    hide RecordsOk, ProcOk;
    ReleaseRecords(c, s, m, r, k);
    forall i | 0 <= i < |s.procs| ensures ProcOk(c, Release(s, m, r, k), s.procs[i]) { ReleaseProc(c, s, m, r, k, s.procs[i]); }
  }

  lemma AllQueued(c: Config, s: State, r: RunId, status: QueueStatus, holder: Option<(MachineId, Token)>)
    requires Inv(c, s) && LegalMove(s, r, status, holder)
    ensures RecordsOk(c, SetQueue(s, r, status, holder)) && AllProcsOk(c, s, SetQueue(s, r, status, holder))
  {
    hide RecordsOk, ProcOk;
    QueueRecords(c, s, r, status, holder);
    forall i | 0 <= i < |s.procs| ensures ProcOk(c, SetQueue(s, r, status, holder), s.procs[i]) {
      QueueProc(c, s, r, status, holder, s.procs[i]);
    }
  }

  lemma AllConcluded(c: Config, s: State, r: RunId, status: ExecStatus)
    requires Inv(c, s) && r in s.exec && status != Awaiting
    ensures RecordsOk(c, Concluded(s, r, status))
    ensures forall i :: 0 <= i < |s.procs| && !LaunchingRun(s.procs[i], r) ==> ProcOk(c, Concluded(s, r, status), s.procs[i])
  {
    hide RecordsOk, ProcOk;
    ConcludedRecords(c, s, r, status);
    forall i | 0 <= i < |s.procs| && !LaunchingRun(s.procs[i], r) ensures ProcOk(c, Concluded(s, r, status), s.procs[i]) {
      ConcludedProc(c, s, r, status, s.procs[i]);
    }
  }

  // ---------- launch steps ----------

  lemma AcquireStep(c: Config, s: State, p: nat, m: MachineId)
    requires Inv(c, s) && p < |s.procs| && LaunchNext(c, s, p, AcquireLease(m)).Some?
    ensures Inv(c, LaunchNext(c, s, p, AcquireLease(m)).value)
  {
    var q := s.procs[p];
    var t := Acquire(c, s, m, q.run);
    var next := Pipe(Leased, Grant(q.run, q.revision, q.readAt, m, s.nextToken, 1, 0));
    FencesNoWindow(c, s, q, m);
    AllAcquired(c, s, m, q.run);
    AcquiredOk(c, s, q, m);
    forall i | 0 <= i < |s.procs| ensures TokenOf(s.procs[i]) != TokenOf(next) { OldToken(c, s, s.procs[i]); }
    hide RecordsOk, ProcOk, TokensDistinct;
    Moved(c, s, t, p, next);
  }

  lemma AcquiredOk(c: Config, s: State, q: Proc, m: MachineId)
    requires TablesOk(c, s) && q.RowRead? && q.run in c.jobs && MayUse(c, q.run, m) && m in c.cores && ReadingOk(c, s, q)
    ensures ProcOk(c, Acquire(c, s, m, q.run), Pipe(Leased, Grant(q.run, q.revision, q.readAt, m, s.nextToken, 1, 0)))
  {
  }

  /** Giving a machine up before registration. */
  lemma BackToRow(c: Config, s: State, p: nat)
    requires Inv(c, s) && AtPhase(s, p, Leased)
    ensures var g := s.procs[p].g;
            Inv(c, SetProc(Release(s, g.machine, g.run, g.token), p, RowRead(g.run, g.revision, g.readAt)))
  {
    var q := s.procs[p];
    if q.g.run in s.windows { NoWindowBeforeRegistration(c, s, q, q.g.run); }
    AllReleased(c, s, q.g.machine, q.g.run, q.g.token);
    RowReadOk(c, Release(s, q.g.machine, q.g.run, q.g.token), q);
    hide RecordsOk, ProcOk, TokensDistinct;
    Moved(c, s, Release(s, q.g.machine, q.g.run, q.g.token), p, RowRead(q.g.run, q.g.revision, q.g.readAt));
  }

  lemma RowReadOk(c: Config, s: State, q: Proc)
    requires ProcOk(c, s, q) && q.Pipe? && q.phase == Leased
    ensures ProcOk(c, s, RowRead(q.g.run, q.g.revision, q.g.readAt))
  {
  }

  lemma AdmitStep(c: Config, s: State, p: nat)
    requires Inv(c, s) && p < |s.procs| && LaunchNext(c, s, p, ProbeAndAdmit).Some?
    ensures Inv(c, LaunchNext(c, s, p, ProbeAndAdmit).value)
  {
    var g := s.procs[p].g;
    var job, cores := c.jobs[g.run], c.cores[g.machine];
    var slots := SlotsOf(s, g.machine, job.workloadClass);
    if Admits(job, ActiveOn(s.live, g.machine), cores, slots) {
      AdmittedOk(c, s, s.procs[p], slots);
      hide RecordsOk, ProcOk, TokensDistinct;
      MovedOnly(c, s, p, Pipe(Admitted, g.(cores := Allocation(job, cores), slots := slots)));
    } else {
      BackToRow(c, s, p);
    }
  }

  lemma AdmittedOk(c: Config, s: State, q: Proc, slots: int)
    requires ProcOk(c, s, q) && q.Pipe? && q.phase == Leased && q.g.run in c.jobs && q.g.machine in c.cores
    requires Admits(c.jobs[q.g.run], ActiveOn(s.live, q.g.machine), c.cores[q.g.machine], slots)
    ensures ProcOk(c, s, Pipe(Admitted, q.g.(cores := Allocation(c.jobs[q.g.run], c.cores[q.g.machine]), slots := slots)))
  {
  }

  lemma MarkStep(c: Config, s: State, p: nat)
    requires Inv(c, s) && p < |s.procs| && LaunchNext(c, s, p, MarkDispatching).Some?
    ensures Inv(c, LaunchNext(c, s, p, MarkDispatching).value)
  {
    hide Inv;
    if QueueAt(s, s.procs[p].g.run, Queued, s.procs[p].g.revision) {
      MarkNow(c, s, p);
    } else {
      ReleaseNext(c, s, p);
    }
  }

  lemma MarkNow(c: Config, s: State, p: nat)
    requires Inv(c, s) && AtPhase(s, p, Admitted) && QueueAt(s, s.procs[p].g.run, Queued, s.procs[p].g.revision)
    ensures var g := s.procs[p].g;
            Inv(c, SetProc(SetQueue(s, g.run, InDispatch, Some((g.machine, g.token))), p, Pipe(Marked, g.(revision := g.revision + 1))))
  {
    hide RecordsOk, ProcOk, TokensDistinct;
    var g := s.procs[p].g;
    var t := SetQueue(s, g.run, InDispatch, Some((g.machine, g.token)));
    MarkIsLegal(c, s, s.procs[p]);
    AllQueued(c, s, g.run, InDispatch, Some((g.machine, g.token)));
    MarkedOk(c, s, t, s.procs[p]);
    Moved(c, s, t, p, Pipe(Marked, g.(revision := g.revision + 1)));
  }

  lemma MarkIsLegal(c: Config, s: State, q: Proc)
    requires ProcOk(c, s, q) && q.Pipe? && QueueAt(s, q.g.run, Queued, q.g.revision)
    ensures LegalMove(s, q.g.run, InDispatch, Some((q.g.machine, q.g.token)))
  {
  }

  lemma MarkedOk(c: Config, s: State, t: State, q: Proc)
    requires q.Pipe? && q.phase == Admitted && QueueAt(s, q.g.run, Queued, q.g.revision)
    requires t == SetQueue(s, q.g.run, InDispatch, Some((q.g.machine, q.g.token))) && ProcOk(c, t, q)
    ensures ProcOk(c, t, Pipe(Marked, q.g.(revision := q.g.revision + 1)))
  {
    hide RoomFor;
  }

  /** Before registration, and once its run has no window, nothing but the release is left to do. */
  lemma ReleasingOk(c: Config, s: State, q: Proc)
    requires RecordsOk(c, s) && ProcOk(c, s, q) && q.Pipe?
    requires BeforeRegistration(q) || (AfterRegistration(q) && q.g.run !in s.windows)
    ensures ProcOk(c, s, Pipe(Releasing, q.g))
  {
    hide AttemptsOk, CapacityOk, RoomFor;
    forall w | w in s.windows ensures s.windows[w].token != q.g.token {
      if BeforeRegistration(q) { NoWindowBeforeRegistration(c, s, q, w); }
      else if s.windows[w].token == q.g.token { OnlyItsOwnWindow(c, s, q, w); }
    }
  }

  lemma ReleaseNext(c: Config, s: State, p: nat)
    requires Inv(c, s) && p < |s.procs| && s.procs[p].Pipe?
    requires BeforeRegistration(s.procs[p]) || (AfterRegistration(s.procs[p]) && s.procs[p].g.run !in s.windows)
    ensures Inv(c, SetProc(s, p, Pipe(Releasing, s.procs[p].g)))
  {
    hide RecordsOk, ProcOk, TokensDistinct;
    ReleasingOk(c, s, s.procs[p]);
    MovedOnly(c, s, p, Pipe(Releasing, s.procs[p].g));
  }

  lemma OwnedStep(c: Config, s: State, p: nat)
    requires Inv(c, s) && p < |s.procs| && LaunchNext(c, s, p, CheckOwned).Some?
    ensures Inv(c, LaunchNext(c, s, p, CheckOwned).value)
  {
    var g := s.procs[p].g;
    if Holds(s, g.machine, g.token) {
      AllRenewed(c, s, g.machine);
      OwnedOk(c, Renew(c, s, g.machine), s.procs[p]);
      hide RecordsOk, ProcOk, TokensDistinct;
      Moved(c, s, Renew(c, s, g.machine), p, Pipe(Owned, g));
    } else {
      FailingOk(c, s, s.procs[p]);
      hide RecordsOk, ProcOk, TokensDistinct;
      MovedOnly(c, s, p, Pipe(Failing, g));
    }
  }

  lemma OwnedOk(c: Config, s: State, q: Proc)
    requires ProcOk(c, s, q) && q.Pipe? && q.phase == Marked
    ensures ProcOk(c, s, Pipe(Owned, q.g))
  {
  }

  lemma FailingOk(c: Config, s: State, q: Proc)
    requires ProcOk(c, s, q) && q.Pipe? && q.phase in {Marked, Owned}
    ensures ProcOk(c, s, Pipe(Failing, q.g))
  {
  }

  lemma RegisterStep(c: Config, s: State, p: nat)
    requires Inv(c, s) && p < |s.procs| && LaunchNext(c, s, p, Register).Some?
    ensures Inv(c, LaunchNext(c, s, p, Register).value)
  {
    var q := s.procs[p];
    var g := q.g;
    if g.run in s.exec {
      FailingOk(c, s, q);
      hide RecordsOk, ProcOk, TokensDistinct;
      MovedOnly(c, s, p, Pipe(Failing, g));
    } else {
      var t := Registration(s, g.run, g.machine, g.token);
      RegistrationRecords(c, s, g.run, g.machine, g.token);
      RegisteredOk(c, s, q);
      hide RecordsOk, ProcOk;
      forall i | 0 <= i < |s.procs| && i != p ensures ProcOk(c, t, s.procs[i]) {
        RegistrationProc(c, s, g.run, g.machine, g.token, s.procs[i]);
      }
      Moved(c, s, t, p, Pipe(Registered, g));
    }
  }

  lemma RegisteredOk(c: Config, s: State, q: Proc)
    requires RecordsOk(c, s) && ProcOk(c, s, q) && q.Pipe? && q.phase == Owned && q.g.run !in s.exec
    ensures ProcOk(c, Registration(s, q.g.run, q.g.machine, q.g.token), Pipe(Registered, q.g))
  {
    hide TablesOk, CapacityOk, AdmissionOk, OwnershipOk, WindowHeld, Fits;
    var t := Registration(s, q.g.run, q.g.machine, q.g.token);
    SameAdmission(c, s, t, q);
    RegisteredAdmission(c, t, q);
    RegisteredOwnership(c, s, q);
    assert q.g.run in s.windows ==> WindowOk(c, s, q.g.run);
  }

  lemma RegisteredAdmission(c: Config, s: State, q: Proc)
    requires AdmissionOk(c, s, q) && q.Pipe? && q.phase == Owned
    ensures AdmissionOk(c, s, Pipe(Registered, q.g))
  {
    hide RoomFor, DispatchStands, Fits;
  }

  lemma RegisteredOwnership(c: Config, s: State, q: Proc)
    requires OwnershipOk(c, s, q) && q.Pipe? && q.phase == Owned
    ensures OwnershipOk(c, Registration(s, q.g.run, q.g.machine, q.g.token), Pipe(Registered, q.g))
  {
    hide MayUse;
  }

  lemma FenceStep(c: Config, s: State, p: nat)
    requires Inv(c, s) && p < |s.procs| && LaunchNext(c, s, p, CheckFence).Some?
    ensures Inv(c, LaunchNext(c, s, p, CheckFence).value)
  {
    var q := s.procs[p];
    var g := q.g;
    if !Holds(s, g.machine, g.token) {
      UnsureOk(c, s, q);
      hide RecordsOk, ProcOk, TokensDistinct;
      MovedOnly(c, s, p, Pipe(Unsure, g));
    } else {
      var mid := Renew(c, s, g.machine);
      AllRenewed(c, s, g.machine);
      if g.run in s.exec && s.exec[g.run].status == Awaiting {
        FenceOpens(c, s, mid, p);
      } else {
        FencedWithoutWindow(c, mid, q);
        hide RecordsOk, ProcOk, TokensDistinct;
        Moved(c, s, mid, p, Pipe(Fenced, g));
      }
    }
  }

  lemma UnsureOk(c: Config, s: State, q: Proc)
    requires ProcOk(c, s, q) && q.Pipe? && q.phase in {Registered, Launching, Launched}
    ensures ProcOk(c, s, Pipe(Unsure, q.g))
  {
  }

  lemma FencedWithoutWindow(c: Config, s: State, q: Proc)
    requires ProcOk(c, s, q) && q.Pipe? && q.phase == Registered
             && !(q.g.run in s.exec && s.exec[q.g.run].status == Awaiting)
    ensures ProcOk(c, s, Pipe(Fenced, q.g))
  {
  }

  lemma FenceOpens(c: Config, s: State, mid: State, p: nat)
    requires Inv(c, s) && AtPhase(s, p, Registered) && Holds(s, s.procs[p].g.machine, s.procs[p].g.token)
    requires mid == Renew(c, s, s.procs[p].g.machine) && RecordsOk(c, mid) && AllProcsOk(c, s, mid)
    requires s.procs[p].g.run in s.exec && s.exec[s.procs[p].g.run].status == Awaiting
    ensures var g := s.procs[p].g;
            Inv(c, SetProc(WindowOpened(mid, g.run, Window(g.machine, g.token, s.now, g.revision, g.cores, g.slots, false)),
                           p, Pipe(Fenced, g)))
  {
    var q := s.procs[p];
    var g := q.g;
    var w := Window(g.machine, g.token, s.now, g.revision, g.cores, g.slots, false);
    var t := WindowOpened(mid, g.run, w);
    FenceCanOpen(c, mid, q, w);
    OpenRecords(c, mid, g.run, w);
    FencedOk(c, mid, q, w);
    hide ProcOk, CanOpen, AttemptsOk, TablesOk, WindowsOk, CapacityOk;
    forall i | 0 <= i < |s.procs| && i != p ensures ProcOk(c, t, s.procs[i]) {
      OpenProc(c, mid, g.run, w, s.procs[i]);
    }
    hide RecordsOk;
    Moved(c, s, t, p, Pipe(Fenced, g));
  }

  lemma FenceCanOpen(c: Config, s: State, q: Proc, w: Window)
    requires AttemptsOk(c, s) && ProcOk(c, s, q) && q.Pipe? && q.phase == Registered && Holds(s, q.g.machine, q.g.token)
    requires q.g.run in s.exec && s.exec[q.g.run].status == Awaiting
    requires s.leases[q.g.machine].expires >= s.now + Ttl(c, q.g.run)
    requires w == Window(q.g.machine, q.g.token, s.now, q.g.revision, q.g.cores, q.g.slots, false)
    ensures CanOpen(c, s, q.g.run, w)
  {
    hide RoomFor, RecoveryOk, ReadingOk, SettlementOk;
  }

  lemma FencedOk(c: Config, s: State, q: Proc, w: Window)
    requires ProcOk(c, s, q) && q.Pipe? && q.phase == Registered
    ensures ProcOk(c, WindowOpened(s, q.g.run, w), Pipe(Fenced, q.g))
  {
    hide RoomFor;
  }

  lemma AbortBootstrapOk(c: Config, s: State, q: Proc)
    requires ProcOk(c, s, q) && q.Pipe? && q.phase in {Fenced, Launching}
    ensures ProcOk(c, s, Pipe(FailingRegistered, q.g))
  {
  }

  lemma SendStep(c: Config, s: State, p: nat)
    requires Inv(c, s) && p < |s.procs| && LaunchNext(c, s, p, SendBootstrap).Some?
    ensures Inv(c, LaunchNext(c, s, p, SendBootstrap).value)
  {
    var q := s.procs[p];
    var g := q.g;
    if g.run in s.exec && s.exec[g.run].status == Awaiting {
      var t := BootstrapSent(s, g.run);
      assert g.run in s.windows && g.run !in s.sent && WindowOk(c, s, g.run) by { assert ProcOk(c, s, q); }
      hide RecordsOk, ProcOk, WindowOk;
      SentRecords(c, s, g.run);
      LaunchingOk(c, s, q);
      forall i | 0 <= i < |s.procs| && i != p ensures ProcOk(c, t, s.procs[i]) {
        assert TokenOf(s.procs[i]) != TokenOf(q);
        SentProc(c, s, g.run, s.procs[i]);
      }
      Moved(c, s, t, p, Pipe(Launching, g));
    } else {
      AbortBootstrapOk(c, s, q);
      hide RecordsOk, ProcOk, TokensDistinct;
      MovedOnly(c, s, p, Pipe(FailingRegistered, g));
    }
  }

  lemma LaunchingOk(c: Config, s: State, q: Proc)
    requires ProcOk(c, s, q) && q.Pipe? && q.phase == Fenced && q.g.run in s.exec && s.exec[q.g.run].status == Awaiting
    ensures ProcOk(c, BootstrapSent(s, q.g.run), Pipe(Launching, q.g))
  {
    hide RoomFor;
  }

  lemma RejectedStep(c: Config, s: State, p: nat)
    requires Inv(c, s) && p < |s.procs| && LaunchNext(c, s, p, BootstrapRejected).Some?
    ensures Inv(c, LaunchNext(c, s, p, BootstrapRejected).value)
  {
    hide RecordsOk, ProcOk, WindowOk;
    var q := s.procs[p];
    var g := q.g;
    var t := WindowClosed(s, g.run);
    OpenWindowOk(c, s, g.run);
    OwnWindow(c, s, q);
    FewerWindows(c, s, t);
    RejectedOk(c, s, q);
    forall i | 0 <= i < |s.procs| && i != p ensures ProcOk(c, t, s.procs[i]) {
      assert TokenOf(s.procs[i]) != TokenOf(q);
      ClosedProc(c, s, g.run, s.procs[i]);
    }
    Moved(c, s, t, p, Pipe(FailingRegistered, g));
  }

  lemma OpenWindowOk(c: Config, s: State, r: RunId)
    requires RecordsOk(c, s) && r in s.windows
    ensures WindowOk(c, s, r)
  {
  }

  lemma OwnWindow(c: Config, s: State, q: Proc)
    requires ProcOk(c, s, q) && AfterRegistration(q) && q.g.run in s.windows && WindowOk(c, s, q.g.run)
    ensures s.windows[q.g.run].token == q.g.token
  {
  }

  lemma RejectedOk(c: Config, s: State, q: Proc)
    requires ProcOk(c, s, q) && q.Pipe? && q.phase == Launching
    ensures ProcOk(c, WindowClosed(s, q.g.run), Pipe(FailingRegistered, q.g))
  {
    hide RoomFor;
  }

  /** Only the registrar of a run launches it. */
  lemma OthersAreNotLaunching(c: Config, s: State, p: nat, i: nat)
    requires Inv(c, s) && p < |s.procs| && i < |s.procs| && i != p && AfterRegistration(s.procs[p])
    ensures !LaunchingRun(s.procs[i], s.procs[p].g.run)
  {
    hide RecordsOk, AdmissionOk, ReadingOk, RecoveryOk, SettlementOk, ProgressOk;
    assert ProcOk(c, s, s.procs[p]) && ProcOk(c, s, s.procs[i]);
    if AfterRegistration(s.procs[i]) { OneRegistrar(c, s, p, i); }
  }

  lemma ConfirmedStep(c: Config, s: State, p: nat)
    requires Inv(c, s) && p < |s.procs| && LaunchNext(c, s, p, BootstrapConfirmed).Some?
    ensures Inv(c, LaunchNext(c, s, p, BootstrapConfirmed).value)
  {
    hide Inv, LaunchNext;
    NoWindowOfLanded(c, s, s.procs[p]);
    ConfirmedNext(c, s, p);
    ConfirmedMoves(c, s, p);
  }

  lemma NoWindowOfLanded(c: Config, s: State, q: Proc)
    requires Inv(c, s)
    ensures q.Pipe? && q.g.run in s.landed ==> q.g.run !in s.windows
  {
    hide ProcOk, TokensDistinct, TablesOk, CapacityOk;
    if q.Pipe? && q.g.run in s.landed { LandedMeansNoWindow(c, s, q.g.run); }
  }

  lemma ConfirmedNext(c: Config, s: State, p: nat)
    requires p < |s.procs| && LaunchNext(c, s, p, BootstrapConfirmed).Some?
    requires s.procs[p].Pipe? && s.procs[p].g.run in s.landed ==> s.procs[p].g.run !in s.windows
    ensures AtPhase(s, p, Launching) && s.procs[p].g.run in s.landed && s.procs[p].g.run in s.exec
    ensures var g := s.procs[p].g;
            LaunchNext(c, s, p, BootstrapConfirmed).value == SetProc(Concluded(s, g.run, Running), p, Pipe(Launched, g))
  {
    assert s.windows - {s.procs[p].g.run} == s.windows;
  }

  lemma ConfirmedMoves(c: Config, s: State, p: nat)
    requires Inv(c, s) && AtPhase(s, p, Launching) && s.procs[p].g.run in s.landed && s.procs[p].g.run in s.exec
    ensures var g := s.procs[p].g; Inv(c, SetProc(Concluded(s, g.run, Running), p, Pipe(Launched, g)))
  {
    hide RecordsOk, ProcOk, TokensDistinct;
    var q := s.procs[p];
    LaunchedOk(c, s, q);
    AllConcluded(c, s, q.g.run, Running);
    forall i | 0 <= i < |s.procs| && i != p ensures !LaunchingRun(s.procs[i], q.g.run) { OthersAreNotLaunching(c, s, p, i); }
    Moved(c, s, Concluded(s, q.g.run, Running), p, Pipe(Launched, q.g));
  }

  lemma LaunchedOk(c: Config, s: State, q: Proc)
    requires ProcOk(c, s, q) && q.Pipe? && q.phase == Launching && q.g.run in s.landed && q.g.run in s.exec
    ensures ProcOk(c, Concluded(s, q.g.run, Running), Pipe(Launched, q.g))
  {
    hide RoomFor;
  }

  lemma CommitStep(c: Config, s: State, p: nat)
    requires Inv(c, s) && p < |s.procs| && LaunchNext(c, s, p, CommitDispatched).Some?
    ensures Inv(c, LaunchNext(c, s, p, CommitDispatched).value)
  {
    var q := s.procs[p];
    var g := q.g;
    LandedMeansNoWindow(c, s, g.run);
    if !Holds(s, g.machine, g.token) {
      UnsureOk(c, s, q);
      hide RecordsOk, ProcOk, TokensDistinct;
      MovedOnly(c, s, p, Pipe(Unsure, g));
    } else if QueueAt(s, g.run, InDispatch, g.revision) {
      CloseAndRelease(c, s, p, Dispatched);
    } else if g.run in s.queue && s.queue[g.run].status == Dispatched {
      ReleaseNext(c, s, p);
    } else {
      UnsureOk(c, s, q);
      hide RecordsOk, ProcOk, TokensDistinct;
      MovedOnly(c, s, p, Pipe(Unsure, g));
    }
  }

  /** The dispatching row is settled, and only the release is left. */
  lemma CloseAndRelease(c: Config, s: State, p: nat, status: QueueStatus)
    requires Inv(c, s) && p < |s.procs| && s.procs[p].Pipe? && status in {Dispatched, Closed}
    requires QueueAt(s, s.procs[p].g.run, InDispatch, s.procs[p].g.revision)
    requires BeforeRegistration(s.procs[p]) || (AfterRegistration(s.procs[p]) && s.procs[p].g.run !in s.windows)
    ensures Inv(c, SetProc(SetQueue(s, s.procs[p].g.run, status, None), p, Pipe(Releasing, s.procs[p].g)))
  {
    var q := s.procs[p];
    var t := SetQueue(s, q.g.run, status, None);
    hide RecordsOk, ProcOk, TokensDistinct;
    AllQueued(c, s, q.g.run, status, None);
    ReleasingOk(c, t, q);
    Moved(c, s, t, p, Pipe(Releasing, q.g));
  }

  lemma SettleStep(c: Config, s: State, p: nat)
    requires Inv(c, s) && p < |s.procs| && LaunchNext(c, s, p, SettleUnknown).Some?
    ensures Inv(c, LaunchNext(c, s, p, SettleUnknown).value)
  {
    var q := s.procs[p];
    var g := q.g;
    assert ProcOk(c, s, q);
    if Visible(s, g.run, g.machine) {
      SeenMeansLanded(c, s, g.run, g.machine);
      if QueueAt(s, g.run, InDispatch, g.revision) {
        CloseAndRelease(c, s, p, Dispatched);
      } else {
        ReleaseNext(c, s, p);
      }
    } else if QueueAt(s, g.run, InDispatch, g.revision) {
      CloseRow(c, s, p, g.run, Dispatched);
    } else {
      IdleOk(c, s);
      hide RecordsOk, ProcOk, TokensDistinct;
      MovedOnly(c, s, p, Idle);
    }
  }

  lemma IdleOk(c: Config, s: State)
    ensures ProcOk(c, s, Idle)
  {
  }

  /** A row leaves the dispatching status and the dispatcher is done with it. */
  lemma CloseRow(c: Config, s: State, p: nat, r: RunId, status: QueueStatus)
    requires Inv(c, s) && p < |s.procs| && LegalMove(s, r, status, None)
    ensures Inv(c, SetProc(SetQueue(s, r, status, None), p, Idle))
  {
    hide RecordsOk, ProcOk, TokensDistinct;
    AllQueued(c, s, r, status, None);
    IdleOk(c, SetQueue(s, r, status, None));
    Moved(c, s, SetQueue(s, r, status, None), p, Idle);
  }

  /** After a definite failure: the record ends unless somebody ended it, the row is closed. */
  lemma FailureStep(c: Config, s: State, p: nat)
    requires Inv(c, s) && p < |s.procs| && LaunchNext(c, s, p, RecordFailure).Some?
    ensures Inv(c, LaunchNext(c, s, p, RecordFailure).value)
  {
    var g := s.procs[p].g;
    assert ProcOk(c, s, s.procs[p]);
    assert AtPhase(s, p, FailingRegistered) && g.run in s.windows ==> WindowOk(c, s, g.run);
    hide Inv, ProcOk, WindowOk;
    if AtPhase(s, p, FailingRegistered) && g.run in s.exec && s.exec[g.run].status == Awaiting {
      EndedByFailure(c, s, p);
      FailureSettles(c, Concluded(s, g.run, Ended), p);
    } else {
      FailureSettles(c, s, p);
    }
  }

  lemma FailureSettles(c: Config, s: State, p: nat)
    requires Inv(c, s) && p < |s.procs| && s.procs[p].Pipe?
    requires s.procs[p].phase == Failing || (s.procs[p].phase == FailingRegistered && s.procs[p].g.run !in s.windows)
    ensures var g := s.procs[p].g;
            if QueueAt(s, g.run, InDispatch, g.revision)
            then Inv(c, SetProc(SetQueue(s, g.run, Closed, None), p, Pipe(Releasing, g)))
            else Inv(c, SetProc(s, p, Pipe(Releasing, g)))
  {
    var g := s.procs[p].g;
    hide Inv;
    if QueueAt(s, g.run, InDispatch, g.revision) {
      CloseAndRelease(c, s, p, Closed);
    } else {
      ReleaseNext(c, s, p);
    }
  }

  lemma EndedByFailure(c: Config, s: State, p: nat)
    requires Inv(c, s) && AtPhase(s, p, FailingRegistered) && s.procs[p].g.run in s.exec
             && !RunLocked(s, s.procs[p].g.run)
    ensures Inv(c, Concluded(s, s.procs[p].g.run, Ended))
  {
    hide RecordsOk, ProcOk;
    AllConcluded(c, s, s.procs[p].g.run, Ended);
  }

  lemma GiveBackStep(c: Config, s: State, p: nat)
    requires Inv(c, s) && p < |s.procs| && LaunchNext(c, s, p, GiveLeaseBack).Some?
    ensures Inv(c, LaunchNext(c, s, p, GiveLeaseBack).value)
  {
    var g := s.procs[p].g;
    assert ProcOk(c, s, s.procs[p]);
    ReleasedAndIdle(c, s, p, g.machine, g.run, g.token);
  }

  lemma ReleasedAndIdle(c: Config, s: State, p: nat, m: MachineId, r: RunId, k: Token)
    requires Inv(c, s) && p < |s.procs| && (r in s.windows ==> s.windows[r].token != k)
    ensures Inv(c, SetProc(Release(s, m, r, k), p, Idle))
  {
    hide RecordsOk, ProcOk, TokensDistinct, Release;
    AllReleased(c, s, m, r, k);
    IdleOk(c, Release(s, m, r, k));
    ReleaseKeepsProcs(s, m, r, k);
    Moved(c, s, Release(s, m, r, k), p, Idle);
  }

  lemma ReleaseKeepsProcs(s: State, m: MachineId, r: RunId, k: Token)
    ensures Release(s, m, r, k).procs == s.procs
  {
  }

  lemma HeartbeatStep(c: Config, s: State, p: nat)
    requires Inv(c, s) && p < |s.procs| && LaunchNext(c, s, p, Heartbeat).Some?
    ensures Inv(c, LaunchNext(c, s, p, Heartbeat).value)
  {
    hide RecordsOk, ProcOk;
    AllRenewed(c, s, s.procs[p].g.machine);
  }

  lemma ReadRowStep(c: Config, s: State, p: nat, run: RunId)
    requires Inv(c, s) && p < |s.procs| && LaunchNext(c, s, p, ReadRow(run)).Some?
    ensures Inv(c, LaunchNext(c, s, p, ReadRow(run)).value)
  {
    FreshRead(c, s, run);
    hide RecordsOk, ProcOk, TokensDistinct;
    MovedOnly(c, s, p, RowRead(run, s.queue[run].revision, s.now));
  }

  /** A read made now precedes every window that opens later, and meets none that is open on a queued row. */
  lemma FreshRead(c: Config, s: State, run: RunId)
    requires RecordsOk(c, s) && run in c.jobs && run in s.queue && s.queue[run].status == Queued
    ensures ProcOk(c, s, RowRead(run, s.queue[run].revision, s.now))
  {
    assert run in s.windows ==> WindowOk(c, s, run);
  }

  lemma LaunchStepKeeps(c: Config, s: State, p: nat, l: LaunchStep)
    requires Inv(c, s) && p < |s.procs| && LaunchNext(c, s, p, l).Some?
    ensures Inv(c, LaunchNext(c, s, p, l).value)
  {
    hide Inv;
    match l
    case ReadRow(run) => ReadRowStep(c, s, p, run);
    case AcquireLease(machine) => AcquireStep(c, s, p, machine);
    case ProbeAndAdmit => AdmitStep(c, s, p);
    case GiveUpMachine => BackToRow(c, s, p);
    case MarkDispatching => MarkStep(c, s, p);
    case CheckOwned => OwnedStep(c, s, p);
    case AbortBeforeRegister => AbortStep(c, s, p);
    case Register => RegisterStep(c, s, p);
    case CheckFence => FenceStep(c, s, p);
    case AbortBeforeBootstrap => AbortBootstrapStep(c, s, p);
    case SendBootstrap => SendStep(c, s, p);
    case BootstrapConfirmed => ConfirmedStep(c, s, p);
    case BootstrapRejected => RejectedStep(c, s, p);
    case BootstrapUnknown => UnknownStep(c, s, p);
    case CommitDispatched => CommitStep(c, s, p);
    case SettleUnknown => SettleStep(c, s, p);
    case RecordFailure => FailureStep(c, s, p);
    case GiveLeaseBack => GiveBackStep(c, s, p);
    case Heartbeat => HeartbeatStep(c, s, p);
  }

  lemma AbortStep(c: Config, s: State, p: nat)
    requires Inv(c, s) && (AtPhase(s, p, Marked) || AtPhase(s, p, Owned))
    ensures Inv(c, SetProc(s, p, Pipe(Failing, s.procs[p].g)))
  {
    FailingOk(c, s, s.procs[p]);
    hide RecordsOk, ProcOk, TokensDistinct;
    MovedOnly(c, s, p, Pipe(Failing, s.procs[p].g));
  }

  lemma AbortBootstrapStep(c: Config, s: State, p: nat)
    requires Inv(c, s) && AtPhase(s, p, Fenced)
    ensures Inv(c, SetProc(s, p, Pipe(FailingRegistered, s.procs[p].g)))
  {
    AbortBootstrapOk(c, s, s.procs[p]);
    hide RecordsOk, ProcOk, TokensDistinct;
    MovedOnly(c, s, p, Pipe(FailingRegistered, s.procs[p].g));
  }

  lemma UnknownStep(c: Config, s: State, p: nat)
    requires Inv(c, s) && AtPhase(s, p, Launching)
    ensures Inv(c, SetProc(s, p, Pipe(Unsure, s.procs[p].g)))
  {
    UnsureOk(c, s, s.procs[p]);
    hide RecordsOk, ProcOk, TokensDistinct;
    MovedOnly(c, s, p, Pipe(Unsure, s.procs[p].g));
  }

  // ---------- repair steps ----------

  lemma SeenOk(c: Config, s: State, run: RunId)
    requires run in s.queue && s.queue[run].status == InDispatch
    ensures ProcOk(c, s, SawDispatching(run, s.queue[run].revision))
  {
  }

  lemma NoRecordOk(c: Config, s: State, q: Proc)
    requires WindowsOk(c, s) && ProcOk(c, s, q) && q.SawDispatching? && q.run !in s.exec
    ensures ProcOk(c, s, NoRecord(q.run, q.revision, s.now))
  {
  }

  lemma UnfencedOk(c: Config, s: State, q: Proc)
    requires TablesOk(c, s) && ProcOk(c, s, q) && ((q.NoRecord? && LeasesOf(s, q.run) == {}) || q.Refenced?)
    ensures ProcOk(c, s, Unfenced(q.run, q.revision))
  {
    assert HolderAlive(s, q.run) ==> s.queue[q.run].holder.value.0 in LeasesOf(s, q.run);
  }

  lemma OneLeaseOk(c: Config, s: State, q: Proc, m: MachineId)
    requires TablesOk(c, s) && ProcOk(c, s, q) && q.NoRecord? && LeasesOf(s, q.run) == {m}
    ensures ProcOk(c, s, OneLease(q.run, q.revision, q.readAt, m))
  {
    if HolderAlive(s, q.run) {
      assert s.queue[q.run].holder.value.0 in LeasesOf(s, q.run);
    }
  }

  lemma RefencedOk(c: Config, s: State, q: Proc)
    requires TablesOk(c, s) && ProcOk(c, s, q) && q.OneLease? && CanAcquire(s, q.machine, q.run)
    ensures ProcOk(c, Acquire(c, s, q.machine, q.run), Refenced(q.run, q.revision, q.machine, s.nextToken))
  {
  }

  lemma RefenceStep(c: Config, s: State, p: nat)
    requires Inv(c, s) && p < |s.procs| && RepairNext(c, s, p, Refence).Some?
    ensures Inv(c, RepairNext(c, s, p, Refence).value)
  {
    var q := s.procs[p];
    var t := Acquire(c, s, q.machine, q.run);
    var next := Refenced(q.run, q.revision, q.machine, s.nextToken);
    FencesNoWindow(c, s, q, q.machine);
    AllAcquired(c, s, q.machine, q.run);
    RefencedOk(c, s, q);
    forall i | 0 <= i < |s.procs| ensures TokenOf(s.procs[i]) != TokenOf(next) { OldToken(c, s, s.procs[i]); }
    hide RecordsOk, ProcOk, TokensDistinct;
    Moved(c, s, t, p, next);
  }

  lemma ReleaseRefencedStep(c: Config, s: State, p: nat)
    requires Inv(c, s) && p < |s.procs| && RepairNext(c, s, p, ReleaseRefenced).Some?
    ensures Inv(c, RepairNext(c, s, p, ReleaseRefenced).value)
  {
    var q := s.procs[p];
    var t := Release(s, q.machine, q.run, q.token);
    if q.run in s.windows { NoWindowBeforeRegistration(c, s, q, q.run); }
    AllReleased(c, s, q.machine, q.run, q.token);
    UnfencedOk(c, t, q);
    ReleaseKeepsProcs(s, q.machine, q.run, q.token);
    hide RecordsOk, ProcOk, TokensDistinct, Release;
    Moved(c, s, t, p, Unfenced(q.run, q.revision));
  }

  lemma ListLeasesStep(c: Config, s: State, p: nat)
    requires Inv(c, s) && p < |s.procs| && RepairNext(c, s, p, ListLeases).Some?
    ensures Inv(c, RepairNext(c, s, p, ListLeases).value)
  {
    var q := s.procs[p];
    if LeasesOf(s, q.run) == {} {
      UnfencedOk(c, s, q);
      hide RecordsOk, ProcOk, TokensDistinct;
      MovedOnly(c, s, p, Unfenced(q.run, q.revision));
    } else if exists m :: m in s.leases && LeasesOf(s, q.run) == {m} {
      var m :| m in s.leases && LeasesOf(s, q.run) == {m};
      OneLeaseOk(c, s, q, m);
      hide RecordsOk, ProcOk, TokensDistinct;
      MovedOnly(c, s, p, OneLease(q.run, q.revision, q.readAt, m));
    } else {
      IdleOk(c, s);
      hide RecordsOk, ProcOk, TokensDistinct;
      MovedOnly(c, s, p, Idle);
    }
  }

  lemma CheckRecordStep(c: Config, s: State, p: nat)
    requires Inv(c, s) && p < |s.procs| && RepairNext(c, s, p, CheckRecord).Some?
    ensures Inv(c, RepairNext(c, s, p, CheckRecord).value)
  {
    var q := s.procs[p];
    if q.run !in s.exec {
      NoRecordOk(c, s, q);
      hide RecordsOk, ProcOk, TokensDistinct;
      MovedOnly(c, s, p, NoRecord(q.run, q.revision, s.now));
    } else if QueueAt(s, q.run, InDispatch, q.revision) {
      CloseRow(c, s, p, q.run, Dispatched);
    } else {
      IdleOk(c, s);
      hide RecordsOk, ProcOk, TokensDistinct;
      MovedOnly(c, s, p, Idle);
    }
  }

  lemma RequeueStep(c: Config, s: State, p: nat)
    requires Inv(c, s) && p < |s.procs| && RepairNext(c, s, p, Requeue).Some?
    ensures Inv(c, RepairNext(c, s, p, Requeue).value)
  {
    var q := s.procs[p];
    assert ProcOk(c, s, q);
    if QueueAt(s, q.run, InDispatch, q.revision) {
      CloseRow(c, s, p, q.run, Queued);
    } else {
      IdleOk(c, s);
      hide RecordsOk, ProcOk, TokensDistinct;
      MovedOnly(c, s, p, Idle);
    }
  }

  lemma SettledOk(c: Config, s: State, q: Proc)
    requires RecordsOk(c, s) && q.LeaseListed? && q.run in s.exec
    requires s.exec[q.run].status != Awaiting || Visible(s, q.run, q.machine)
    ensures ProcOk(c, s, LeaseSettled(q.machine, q.run, q.token))
  {
    if Visible(s, q.run, q.machine) { SeenMeansLanded(c, s, q.run, q.machine); }
  }

  lemma CheckSettledStep(c: Config, s: State, p: nat)
    requires Inv(c, s) && p < |s.procs| && RepairNext(c, s, p, CheckSettled).Some?
    ensures Inv(c, RepairNext(c, s, p, CheckSettled).value)
  {
    var q := s.procs[p];
    if q.run in s.exec && (s.exec[q.run].status != Awaiting || Visible(s, q.run, q.machine)) {
      SettledOk(c, s, q);
      hide RecordsOk, ProcOk, TokensDistinct;
      MovedOnly(c, s, p, LeaseSettled(q.machine, q.run, q.token));
    } else {
      IdleOk(c, s);
      hide RecordsOk, ProcOk, TokensDistinct;
      MovedOnly(c, s, p, Idle);
    }
  }

  lemma ListedOk(c: Config, s: State, m: MachineId, r: RunId, k: Token)
    ensures ProcOk(c, s, LeaseListed(m, r, k))
  {
  }

  lemma RepairStepKeeps(c: Config, s: State, p: nat, r: RepairStep)
    requires Inv(c, s) && p < |s.procs| && RepairNext(c, s, p, r).Some?
    ensures Inv(c, RepairNext(c, s, p, r).value)
  {
    var q := s.procs[p];
    assert ProcOk(c, s, q);
    match r
    case ReadDispatching(run) =>
      SeenOk(c, s, run);
      hide RecordsOk, ProcOk, TokensDistinct;
      MovedOnly(c, s, p, SawDispatching(run, s.queue[run].revision));
    case CheckRecord => CheckRecordStep(c, s, p);
    case ListLeases => ListLeasesStep(c, s, p);
    case Refence => RefenceStep(c, s, p);
    case ReleaseRefenced => ReleaseRefencedStep(c, s, p);
    case Requeue => RequeueStep(c, s, p);
    case ListLease(machine) =>
      ListedOk(c, s, machine, s.leases[machine].run, s.leases[machine].token);
      hide RecordsOk, ProcOk, TokensDistinct;
      MovedOnly(c, s, p, LeaseListed(machine, s.leases[machine].run, s.leases[machine].token));
    case CheckSettled => CheckSettledStep(c, s, p);
    case ReleaseSettled => ReleasedAndIdle(c, s, p, q.machine, q.run, q.token);
  }

  // ---------- everything else ----------

  lemma ConcludedOutside(c: Config, s: State, r: RunId, status: ExecStatus)
    requires Inv(c, s) && r in s.exec && status != Awaiting && !RunLocked(s, r)
    ensures Inv(c, Concluded(s, r, status))
  {
    hide RecordsOk, ProcOk;
    AllConcluded(c, s, r, status);
  }

  lemma ShrunkOutside(c: Config, s: State, live: seq<Live>)
    requires Inv(c, s) && LessLive(live, s.live)
    ensures Inv(c, s.(live := live))
  {
    hide RecordsOk, ProcOk, LessLive;
    ShrunkRecords(c, s, live);
    forall i | 0 <= i < |s.procs| ensures ProcOk(c, s.(live := live), s.procs[i]) { ShrunkProc(c, s, live, s.procs[i]); }
  }

  lemma LandOutside(c: Config, s: State, r: RunId)
    requires Inv(c, s) && SharedLeasesOutlastLag(c) && r in c.jobs && r in s.windows && s.windows[r].sent
    ensures Inv(c, Landed(c, s, r))
  {
    assert WindowOk(c, s, r);
    hide RecordsOk, ProcOk, WindowOk;
    LandedRecords(c, s, r);
    forall i | 0 <= i < |s.procs| ensures ProcOk(c, Landed(c, s, r), s.procs[i]) { LandedProc(c, s, r, s.procs[i]); }
  }

  lemma LaterOutside(c: Config, s: State, now: Time)
    requires Inv(c, s) && s.now <= now
    ensures Inv(c, s.(now := now))
  {
    hide RecordsOk, ProcOk;
    LaterRecords(c, s, now);
    forall i | 0 <= i < |s.procs| ensures ProcOk(c, s.(now := now), s.procs[i]) { LaterProc(c, s, now, s.procs[i]); }
  }

  lemma SlotsOutside(c: Config, s: State, slots: map<(MachineId, WorkloadClass), int>)
    requires Inv(c, s)
    ensures Inv(c, s.(slots := slots))
  {
    hide RecordsOk, ProcOk;
    SlotsRecords(c, s, slots);
    forall i | 0 <= i < |s.procs| ensures ProcOk(c, s.(slots := slots), s.procs[i]) { SlotsProc(c, s, slots, s.procs[i]); }
  }

  lemma SubmitOutside(c: Config, s: State, r: RunId)
    requires Inv(c, s) && r !in s.queue
    ensures Inv(c, Submitted(s, r))
  {
    hide RecordsOk, ProcOk;
    SubmittedRecords(c, s, r);
    forall i | 0 <= i < |s.procs| ensures ProcOk(c, Submitted(s, r), s.procs[i]) { SubmittedProc(c, s, r, s.procs[i]); }
  }

  lemma CancelOutside(c: Config, s: State, r: RunId)
    requires Inv(c, s) && r in s.queue && s.queue[r].status in {Queued, InDispatch}
    ensures Inv(c, SetQueue(s, r, Closed, None))
  {
    hide RecordsOk, ProcOk;
    AllQueued(c, s, r, Closed, None);
  }

  lemma CrashOutside(c: Config, s: State, p: nat)
    requires Inv(c, s) && p < |s.procs|
    ensures Inv(c, SetProc(s, p, Idle))
  {
    IdleOk(c, s);
    hide RecordsOk, ProcOk, TokensDistinct;
    MovedOnly(c, s, p, Idle);
  }

  lemma StoppedOutside(c: Config, s: State, r: RunId)
    requires Inv(c, s) && r in s.exec && !RunLocked(s, r)
    ensures Inv(c, Concluded(s, r, Ended).(live := WithoutRun(s.live, r)))
  {
    hide Inv, RunLocked;
    ConcludedOutside(c, s, r, Ended);
    FilteredIsLess(s.live, (v: Live) => v.run.runId != r);
    ShrunkOutside(c, Concluded(s, r, Ended), WithoutRun(s.live, r));
  }

  lemma SeenOutside(c: Config, s: State, r: RunId, status: ExecStatus)
    requires Inv(c, s) && r in s.exec && status != Awaiting && r in s.landed && !RunLocked(s, r)
    ensures Inv(c, s.(exec := s.exec[r := s.exec[r].(status := status)]))
  {
    LandedMeansNoWindow(c, s, r);
    assert s.windows - {r} == s.windows;
    ConcludedOutside(c, s, r, status);
  }

  lemma OutsideStepKeeps(c: Config, s: State, o: OutsideStep)
    requires Inv(c, s) && SharedLeasesOutlastLag(c) && OutsideNext(c, s, o).Some?
    ensures Inv(c, OutsideNext(c, s, o).value)
  {
    hide Inv;
    match o
    case Tick(elapsed) => LaterOutside(c, s, s.now + elapsed);
    case Submit(run) => SubmitOutside(c, s, run);
    case CancelRow(run) => CancelOutside(c, s, run);
    case Crash(p) => CrashOutside(c, s, p);
    case Land(run) => LandOutside(c, s, run);
    case Finish(i) =>
      RemovedIsLess(s.live, i);
      ShrunkOutside(c, s, s.live[..i] + s.live[i + 1..]);
    case SeeRunning(run) => SeenOutside(c, s, run, Running);
    case SeeEnded(run) => SeenOutside(c, s, run, Ended);
    case StopRun(run) => StoppedOutside(c, s, run);
    case SetSlots(machine, lane, n) => SlotsOutside(c, s, s.slots[(machine, lane) := n]);
  }

  /** Every step keeps the invariant. */
  lemma StepKeeps(c: Config, s: State, step: Step)
    requires Inv(c, s) && SharedLeasesOutlastLag(c) && Next(c, s, step).Some?
    ensures Inv(c, Next(c, s, step).value)
  {
    hide Inv, LaunchNext, RepairNext, OutsideNext;
    match step
    case L(p, l) => LaunchStepKeeps(c, s, p, l);
    case R(p, r) => RepairStepKeeps(c, s, p, r);
    case O(o) => OutsideStepKeeps(c, s, o);
  }

  lemma InitialOk(c: Config, s: State)
    requires Initial(c, s)
    ensures Inv(c, s)
  {
  }
}
