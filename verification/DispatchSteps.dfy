/** Each primitive change of the shared records keeps the record facts and the facts of
    every dispatcher; each step is one or two such changes and one dispatcher moving on. */
module DispatchSteps {
  import opened Common
  import opened Placement
  import opened DispatchProtocol
  import opened DispatchInvariant

  /** The records agree; only dispatchers may differ. */
  predicate SameRecords(s: State, t: State) {
    t == s.(procs := t.procs)
  }

  lemma RecordsIgnoreProcs(c: Config, s: State, t: State)
    requires SameRecords(s, t) && RecordsOk(c, s)
    ensures RecordsOk(c, t)
  {
    SameAttempts(c, s, t);
    SameCapacity(c, s, t);
    SameTables(c, s, t);
    hide AttemptsOk, CapacityOk, TablesOk, WindowOk;
    forall r | r in t.windows ensures WindowOk(c, t, r) { WindowIgnoresProcs(c, s, t, r); }
  }

  lemma WindowIgnoresProcs(c: Config, s: State, t: State, r: RunId)
    requires SameRecords(s, t) && r in s.windows && WindowOk(c, s, r)
    ensures WindowOk(c, t, r)
  {
  }

  lemma ProcIgnoresProcs(c: Config, s: State, t: State, q: Proc)
    requires SameRecords(s, t) && ProcOk(c, s, q)
    ensures ProcOk(c, t, q)
  {
  }

  lemma SameAttempts(c: Config, s: State, t: State)
    requires AttemptsOk(c, s) && t.sent == s.sent && t.exec.Keys == s.exec.Keys && t.landed == s.landed
             && t.live == s.live
    ensures AttemptsOk(c, t)
  {
  }

  lemma SameCapacity(c: Config, s: State, t: State)
    requires CapacityOk(c, s) && t.windows == s.windows && t.live == s.live
    ensures CapacityOk(c, t)
  {
  }

  lemma SameTables(c: Config, s: State, t: State)
    requires TablesOk(c, s)
    requires t.leases == s.leases && t.exec == s.exec && t.queue == s.queue && t.nextToken == s.nextToken
    ensures TablesOk(c, t)
  {
    assert forall r :: HolderAlive(s, r) == HolderAlive(t, r);
  }

  lemma SameOwnership(c: Config, s: State, t: State, q: Proc)
    requires OwnershipOk(c, s, q) && t.leases == s.leases && t.exec == s.exec && t.nextToken == s.nextToken
    ensures OwnershipOk(c, t, q)
  {
  }

  lemma SameAdmission(c: Config, s: State, t: State, q: Proc)
    requires AdmissionOk(c, s, q) && t.leases == s.leases && t.queue == s.queue && t.live == s.live && t.landed == s.landed
    ensures AdmissionOk(c, t, q)
  {
  }

  lemma SameRecovery(s: State, t: State, q: Proc)
    requires RecoveryOk(s, q) && t.leases == s.leases && t.queue == s.queue
    ensures RecoveryOk(t, q)
  {
    assert forall r :: HolderAlive(s, r) == HolderAlive(t, r);
  }

  // ---------- acquire ----------

  lemma AcquireTables(c: Config, s: State, m: MachineId, r: RunId)
    requires TablesOk(c, s)
    ensures TablesOk(c, Acquire(c, s, m, r))
  {
    assert forall x :: HolderAlive(Acquire(c, s, m, r), x) ==> HolderAlive(s, x);
  }

  lemma AcquireWindow(c: Config, s: State, m: MachineId, r: RunId, x: RunId)
    requires x in s.windows && WindowOk(c, s, x) && CanAcquire(s, m, r) && (Outlasts(c, r) && r in s.windows ==> s.windows[r].machine != m)
    ensures WindowOk(c, Acquire(c, s, m, r), x)
  {
  }

  lemma AcquireRecords(c: Config, s: State, m: MachineId, r: RunId)
    requires RecordsOk(c, s) && CanAcquire(s, m, r) && (Outlasts(c, r) && r in s.windows ==> s.windows[r].machine != m)
    ensures RecordsOk(c, Acquire(c, s, m, r))
  {
    var t := Acquire(c, s, m, r);
    SameAttempts(c, s, t);
    SameCapacity(c, s, t);
    AcquireTables(c, s, m, r);
    hide AttemptsOk, CapacityOk, TablesOk, WindowOk;
    forall x | x in t.windows ensures WindowOk(c, t, x) { AcquireWindow(c, s, m, r, x); }
  }

  lemma AcquireProc(c: Config, s: State, m: MachineId, r: RunId, q: Proc)
    requires RecordsOk(c, s) && CanAcquire(s, m, r) && (Outlasts(c, r) && r in s.windows ==> s.windows[r].machine != m) && ProcOk(c, s, q)
    ensures ProcOk(c, Acquire(c, s, m, r), q)
  {
    var t := Acquire(c, s, m, r);
    assert forall x :: HolderAlive(t, x) ==> HolderAlive(s, x);
  }

  // ---------- renew ----------

  lemma RenewRecords(c: Config, s: State, m: MachineId)
    requires RecordsOk(c, s) && m in s.leases
    ensures RecordsOk(c, Renew(c, s, m))
  {
    var t := Renew(c, s, m);
    SameAttempts(c, s, t);
    SameCapacity(c, s, t);
    RenewTables(c, s, m);
    hide AttemptsOk, CapacityOk, TablesOk, WindowOk;
    forall x | x in t.windows ensures WindowOk(c, t, x) { RenewWindow(c, s, m, x); }
  }

  lemma RenewTables(c: Config, s: State, m: MachineId)
    requires TablesOk(c, s) && m in s.leases
    ensures TablesOk(c, Renew(c, s, m))
  {
    hide Ttl;
    assert forall x :: HolderAlive(Renew(c, s, m), x) ==> HolderAlive(s, x);
  }

  lemma RenewWindow(c: Config, s: State, m: MachineId, x: RunId)
    requires x in s.windows && WindowOk(c, s, x) && m in s.leases && s.windows[x].openedAt <= s.now
    ensures WindowOk(c, Renew(c, s, m), x)
  {
  }

  lemma RenewProc(c: Config, s: State, m: MachineId, q: Proc)
    requires RecordsOk(c, s) && m in s.leases && ProcOk(c, s, q)
    ensures ProcOk(c, Renew(c, s, m), q)
  {
    var t := Renew(c, s, m);
    assert forall x :: HolderAlive(t, x) ==> HolderAlive(s, x);
  }

  // ---------- release ----------

  lemma ReleaseTables(c: Config, s: State, m: MachineId, r: RunId, k: Token)
    requires TablesOk(c, s)
    ensures TablesOk(c, Release(s, m, r, k))
  {
    var t := Release(s, m, r, k);
    assert forall x :: HolderAlive(t, x) ==> HolderAlive(s, x);
  }

  lemma ReleaseWindow(c: Config, s: State, m: MachineId, r: RunId, k: Token, x: RunId)
    requires x in s.windows && WindowOk(c, s, x) && (r in s.windows ==> s.windows[r].token != k)
    ensures WindowOk(c, Release(s, m, r, k), x)
  {
  }

  lemma ReleaseRecords(c: Config, s: State, m: MachineId, r: RunId, k: Token)
    requires RecordsOk(c, s) && (r in s.windows ==> s.windows[r].token != k)
    ensures RecordsOk(c, Release(s, m, r, k))
  {
    var t := Release(s, m, r, k);
    SameAttempts(c, s, t);
    SameCapacity(c, s, t);
    ReleaseTables(c, s, m, r, k);
    hide AttemptsOk, CapacityOk, TablesOk, WindowOk;
    forall x | x in t.windows ensures WindowOk(c, t, x) { ReleaseWindow(c, s, m, r, k, x); }
  }

  lemma ReleaseProc(c: Config, s: State, m: MachineId, r: RunId, k: Token, q: Proc)
    requires RecordsOk(c, s) && (r in s.windows ==> s.windows[r].token != k) && ProcOk(c, s, q)
    ensures ProcOk(c, Release(s, m, r, k), q)
  {
    var t := Release(s, m, r, k);
    assert forall x :: HolderAlive(t, x) ==> HolderAlive(s, x);
  }

  // ---------- queue transitions ----------

  /** Legal queue moves: a queued row is marked under a live fresh lease, a dispatching row is over,
      a row is cancelled, or a dispatching row whose holder is gone is queued again. */
  predicate LegalMove(s: State, r: RunId, status: QueueStatus, holder: Option<(MachineId, Token)>) {
    && r in s.queue
    && (status == InDispatch ==> s.queue[r].status == Queued && holder.Some? && holder.value.1 < s.nextToken
                                 && (Holds(s, holder.value.0, holder.value.1) ==> s.leases[holder.value.0].run == r))
    && (status == Queued ==> s.queue[r].status == InDispatch && !HolderAlive(s, r))
    && (status in {Dispatched, Closed} ==> s.queue[r].status in {Queued, InDispatch})
    && (status != InDispatch ==> holder == None)
  }

  lemma QueueTables(c: Config, s: State, r: RunId, status: QueueStatus, holder: Option<(MachineId, Token)>)
    requires TablesOk(c, s) && LegalMove(s, r, status, holder)
    ensures TablesOk(c, SetQueue(s, r, status, holder))
  {
    var t := SetQueue(s, r, status, holder);
    assert forall x :: x != r ==> HolderAlive(t, x) == HolderAlive(s, x);
  }

  lemma QueueWindow(c: Config, s: State, r: RunId, status: QueueStatus, holder: Option<(MachineId, Token)>, x: RunId)
    requires x in s.windows && WindowOk(c, s, x) && LegalMove(s, r, status, holder)
    ensures WindowOk(c, SetQueue(s, r, status, holder), x)
  {
  }

  lemma QueueRecords(c: Config, s: State, r: RunId, status: QueueStatus, holder: Option<(MachineId, Token)>)
    requires RecordsOk(c, s) && LegalMove(s, r, status, holder)
    ensures RecordsOk(c, SetQueue(s, r, status, holder))
  {
    var t := SetQueue(s, r, status, holder);
    SameAttempts(c, s, t);
    SameCapacity(c, s, t);
    QueueTables(c, s, r, status, holder);
    hide AttemptsOk, CapacityOk, TablesOk, WindowOk, LegalMove;
    forall x | x in t.windows ensures WindowOk(c, t, x) { QueueWindow(c, s, r, status, holder, x); }
  }

  lemma QueueProc(c: Config, s: State, r: RunId, status: QueueStatus, holder: Option<(MachineId, Token)>, q: Proc)
    requires RecordsOk(c, s) && LegalMove(s, r, status, holder) && ProcOk(c, s, q)
    ensures ProcOk(c, SetQueue(s, r, status, holder), q)
  {
    hide OwnershipOk, AdmissionOk, RecoveryOk, LegalMove, TablesOk, CapacityOk;
    LegalRow(s, r, status, holder);
    var t := SetQueue(s, r, status, holder);
    SameOwnership(c, s, t, q);
    QueueAdmission(c, s, r, status, holder, q);
    QueueRecovery(s, r, status, holder, q);
  }

  lemma LegalRow(s: State, r: RunId, status: QueueStatus, holder: Option<(MachineId, Token)>)
    requires LegalMove(s, r, status, holder)
    ensures r in s.queue
  {
  }

  lemma QueueAdmission(c: Config, s: State, r: RunId, status: QueueStatus, holder: Option<(MachineId, Token)>, q: Proc)
    requires AdmissionOk(c, s, q) && LegalMove(s, r, status, holder)
    ensures AdmissionOk(c, SetQueue(s, r, status, holder), q)
  {
    hide ActiveOn, LaneCount, AssignedCores;
  }

  lemma QueueRecovery(s: State, r: RunId, status: QueueStatus, holder: Option<(MachineId, Token)>, q: Proc)
    requires RecoveryOk(s, q) && r in s.queue
    ensures RecoveryOk(SetQueue(s, r, status, holder), q)
  {
    assert forall x :: x != r ==> HolderAlive(SetQueue(s, r, status, holder), x) == HolderAlive(s, x);
  }

  // ---------- registration ----------

  function Registration(s: State, r: RunId, m: MachineId, k: Token): State {
    s.(exec := s.exec[r := ExecRecord(Awaiting, m, k)])
  }

  lemma RegistrationTables(c: Config, s: State, r: RunId, m: MachineId, k: Token)
    requires TablesOk(c, s) && r !in s.exec && r in c.jobs && k < s.nextToken
    requires forall x :: x in s.exec ==> s.exec[x].token != k
    ensures TablesOk(c, Registration(s, r, m, k))
  {
    assert forall x :: HolderAlive(Registration(s, r, m, k), x) == HolderAlive(s, x);
  }

  lemma RegistrationAttempts(c: Config, s: State, r: RunId, m: MachineId, k: Token)
    requires AttemptsOk(c, s)
    ensures AttemptsOk(c, Registration(s, r, m, k))
  {
  }

  lemma RegistrationWindow(c: Config, s: State, r: RunId, m: MachineId, k: Token, x: RunId)
    requires x in s.windows && WindowOk(c, s, x) && r !in s.exec
    ensures WindowOk(c, Registration(s, r, m, k), x)
  {
  }

  lemma RegistrationRecords(c: Config, s: State, r: RunId, m: MachineId, k: Token)
    requires RecordsOk(c, s) && r !in s.exec && r in c.jobs && k < s.nextToken
    requires forall x :: x in s.exec ==> s.exec[x].token != k
    ensures RecordsOk(c, Registration(s, r, m, k))
  {
    var t := Registration(s, r, m, k);
    SameCapacity(c, s, t);
    RegistrationTables(c, s, r, m, k);
    RegistrationAttempts(c, s, r, m, k);
    hide CapacityOk, TablesOk, AttemptsOk, WindowOk;
    forall x | x in t.windows ensures WindowOk(c, t, x) { RegistrationWindow(c, s, r, m, k, x); }
  }

  lemma RegistrationProc(c: Config, s: State, r: RunId, m: MachineId, k: Token, q: Proc)
    requires r !in s.exec && ProcOk(c, s, q) && TokenOf(q) != Some(k)
    ensures ProcOk(c, Registration(s, r, m, k), q)
  {
    var t := Registration(s, r, m, k);
    assert forall x :: HolderAlive(t, x) == HolderAlive(s, x);
  }

  // ---------- opening, using and closing a launch window ----------

  function WindowOpened(s: State, r: RunId, w: Window): State {
    s.(windows := s.windows[r := w])
  }

  /** What the ownership check after registration has established when a window opens. */
  ghost predicate CanOpen(c: Config, s: State, r: RunId, w: Window) {
    && r !in s.windows && r !in s.sent && r in c.jobs
    && r in s.exec && s.exec[r] == ExecRecord(Awaiting, w.machine, w.token)
    && w.machine in c.cores && Fits(c, r, w.machine) && Holds(s, w.machine, w.token) && s.leases[w.machine].run == r
    && s.leases[w.machine].expires >= s.now + Ttl(c, r) && w.openedAt == s.now && !w.sent
    && DispatchStands(s, r, w.revision, w.machine, w.token)
    && RoomFor(c, s, w.machine, c.jobs[r].workloadClass, w.cores, w.slots)
  }

  lemma OpenCapacity(c: Config, s: State, r: RunId, w: Window)
    requires CapacityOk(c, s) && CanOpen(c, s, r, w)
    ensures CapacityOk(c, WindowOpened(s, r, w))
  {
    hide AssignedCores, ActiveOn, LaneCount;
  }

  lemma OpenWindow(c: Config, s: State, r: RunId, w: Window, x: RunId)
    requires CanOpen(c, s, r, w) && AttemptsOk(c, s) && (x == r || (x in s.windows && WindowOk(c, s, x)))
    ensures WindowOk(c, WindowOpened(s, r, w), x)
  {
    AttemptedFirst(c, s, r);
  }

  lemma OpenRecords(c: Config, s: State, r: RunId, w: Window)
    requires RecordsOk(c, s) && CanOpen(c, s, r, w)
    ensures RecordsOk(c, WindowOpened(s, r, w))
  {
    var t := WindowOpened(s, r, w);
    SameAttempts(c, s, t);
    SameTables(c, s, t);
    OpenCapacity(c, s, r, w);
    hide AttemptsOk, TablesOk, CapacityOk, WindowOk, CanOpen;
    forall x | x in t.windows ensures WindowOk(c, t, x) { OpenWindow(c, s, r, w, x); }
  }

  lemma AttemptedFirst(c: Config, s: State, r: RunId)
    requires AttemptsOk(c, s) && r !in s.sent
    ensures r !in s.landed
  {
  }

  lemma OpenProc(c: Config, s: State, r: RunId, w: Window, q: Proc)
    requires AttemptsOk(c, s) && CanOpen(c, s, r, w) && ProcOk(c, s, q) && TokenOf(q) != Some(w.token)
    ensures ProcOk(c, WindowOpened(s, r, w), q)
  {
    var t := WindowOpened(s, r, w);
    SameOwnership(c, s, t, q);
    SameAdmission(c, s, t, q);
    SameRecovery(s, t, q);
    AttemptedFirst(c, s, r);
    hide AttemptsOk, AdmissionOk, RecoveryOk, RoomFor;
  }

  function BootstrapSent(s: State, r: RunId): State {
    s.(windows := MarkSent(s.windows, r), sent := s.sent + [r])
  }

  lemma SentCapacity(c: Config, s: State, r: RunId)
    requires CapacityOk(c, s)
    ensures CapacityOk(c, BootstrapSent(s, r))
  {
    hide AssignedCores, ActiveOn, LaneCount;
  }

  lemma SentAttempts(c: Config, s: State, r: RunId)
    requires AttemptsOk(c, s) && r in s.windows && WindowOk(c, s, r) && r !in s.sent
    ensures AttemptsOk(c, BootstrapSent(s, r))
  {
  }

  lemma SentWindow(c: Config, s: State, r: RunId, x: RunId)
    requires x in s.windows && WindowOk(c, s, x)
    ensures WindowOk(c, BootstrapSent(s, r), x)
  {
  }

  lemma SentRecords(c: Config, s: State, r: RunId)
    requires RecordsOk(c, s) && r in s.windows && r !in s.sent
    ensures RecordsOk(c, BootstrapSent(s, r))
  {
    var t := BootstrapSent(s, r);
    SameTables(c, s, t);
    SentCapacity(c, s, r);
    SentAttempts(c, s, r);
    hide TablesOk, CapacityOk, AttemptsOk, WindowOk;
    forall x | x in t.windows ensures WindowOk(c, t, x) { SentWindow(c, s, r, x); }
  }

  lemma SentProc(c: Config, s: State, r: RunId, q: Proc)
    requires r in s.windows && WindowOk(c, s, r) && r !in s.sent && ProcOk(c, s, q)
             && TokenOf(q) != Some(s.windows[r].token)
    ensures ProcOk(c, BootstrapSent(s, r), q)
  {
    var t := BootstrapSent(s, r);
    SameOwnership(c, s, t, q);
    SameAdmission(c, s, t, q);
    SameRecovery(s, t, q);
    hide AdmissionOk, RecoveryOk;
  }

  function WindowClosed(s: State, r: RunId): State {
    s.(windows := s.windows - {r})
  }

  /** Some windows are closed, nothing else changes. */
  predicate SomeClosed(s: State, t: State) {
    t.windows.Keys <= s.windows.Keys && t == s.(windows := t.windows) && forall x :: x in t.windows ==> t.windows[x] == s.windows[x]
  }

  lemma FewerCapacity(c: Config, s: State, t: State)
    requires CapacityOk(c, s) && SomeClosed(s, t)
    ensures CapacityOk(c, t)
  {
    hide AssignedCores, ActiveOn, LaneCount;
  }

  lemma FewerWindow(c: Config, s: State, t: State, x: RunId)
    requires SomeClosed(s, t) && x in t.windows && WindowOk(c, s, x)
    ensures WindowOk(c, t, x)
  {
  }

  lemma FewerWindows(c: Config, s: State, t: State)
    requires RecordsOk(c, s) && SomeClosed(s, t)
    ensures RecordsOk(c, t)
  {
    SameAttempts(c, s, t);
    SameTables(c, s, t);
    FewerCapacity(c, s, t);
    hide AttemptsOk, TablesOk, CapacityOk, WindowOk;
    forall x | x in t.windows ensures WindowOk(c, t, x) { FewerWindow(c, s, t, x); }
  }

  lemma ClosedProc(c: Config, s: State, r: RunId, q: Proc)
    requires r in s.windows && WindowOk(c, s, r) && ProcOk(c, s, q) && TokenOf(q) != Some(s.windows[r].token)
    ensures ProcOk(c, WindowClosed(s, r), q)
  {
    var t := WindowClosed(s, r);
    SameOwnership(c, s, t, q);
    SameAdmission(c, s, t, q);
    SameRecovery(s, t, q);
    hide AdmissionOk, RecoveryOk;
  }

  // ---------- concluding a launch ----------

  /** The execution record leaves the awaiting status and any window of the run closes. */
  function Concluded(s: State, r: RunId, status: ExecStatus): State
    requires r in s.exec
  {
    s.(exec := s.exec[r := s.exec[r].(status := status)], windows := s.windows - {r})
  }

  predicate LaunchingRun(q: Proc, r: RunId) {
    q.Pipe? && q.phase == Launching && q.g.run == r
  }

  lemma ConcludedTables(c: Config, s: State, r: RunId, status: ExecStatus)
    requires TablesOk(c, s) && r in s.exec
    ensures TablesOk(c, Concluded(s, r, status))
  {
    hide TablesOk;
    StatusTables(c, s, Concluded(s, r, status));
  }

  /** Execution statuses do not matter to the tables. */
  lemma StatusTables(c: Config, s: State, t: State)
    requires TablesOk(c, s) && t.leases == s.leases && t.queue == s.queue && t.nextToken == s.nextToken
    requires t.exec.Keys == s.exec.Keys && forall r :: r in s.exec ==> t.exec[r].token == s.exec[r].token
    ensures TablesOk(c, t)
  {
    hide Holds;
    SameHolders(s, t);
  }

  lemma SameHolders(s: State, t: State)
    requires t.leases == s.leases && t.queue == s.queue
    ensures forall r :: HolderAlive(s, r) == HolderAlive(t, r)
  {
  }

  lemma ConcludedCapacity(c: Config, s: State, r: RunId, status: ExecStatus)
    requires CapacityOk(c, s) && r in s.exec
    ensures CapacityOk(c, Concluded(s, r, status))
  {
    hide AssignedCores, ActiveOn, LaneCount;
  }

  lemma ConcludedWindow(c: Config, s: State, r: RunId, status: ExecStatus, x: RunId)
    requires r in s.exec && x in s.windows && x != r && WindowOk(c, s, x)
    ensures WindowOk(c, Concluded(s, r, status), x)
  {
  }

  lemma ConcludedRecords(c: Config, s: State, r: RunId, status: ExecStatus)
    requires RecordsOk(c, s) && r in s.exec && status != Awaiting
    ensures RecordsOk(c, Concluded(s, r, status))
  {
    var t := Concluded(s, r, status);
    SameAttempts(c, s, t);
    ConcludedTables(c, s, r, status);
    ConcludedCapacity(c, s, r, status);
    hide AttemptsOk, TablesOk, CapacityOk, WindowOk;
    forall x | x in t.windows ensures WindowOk(c, t, x) { ConcludedWindow(c, s, r, status, x); }
  }

  lemma ConcludedProc(c: Config, s: State, r: RunId, status: ExecStatus, q: Proc)
    requires RecordsOk(c, s) && r in s.exec && status != Awaiting && ProcOk(c, s, q) && !LaunchingRun(q, r)
    ensures ProcOk(c, Concluded(s, r, status), q)
  {
    hide AdmissionOk, RecoveryOk, OwnershipOk, ProgressOk, TablesOk, CapacityOk;
    var t := Concluded(s, r, status);
    SameAdmission(c, s, t, q);
    SameRecovery(s, t, q);
    ConcludedOwnership(c, s, r, status, q);
    ConcludedProgress(s, r, status, q);
  }

  lemma ConcludedOwnership(c: Config, s: State, r: RunId, status: ExecStatus, q: Proc)
    requires r in s.exec && OwnershipOk(c, s, q)
    ensures OwnershipOk(c, Concluded(s, r, status), q)
  {
  }

  lemma ConcludedProgress(s: State, r: RunId, status: ExecStatus, q: Proc)
    requires r in s.exec && status != Awaiting && ProgressOk(s, q) && !LaunchingRun(q, r)
    ensures ProgressOk(Concluded(s, r, status), q)
  {
  }

  // ---------- the remote side ----------

  lemma {:induction false} ActiveAppend(live: seq<Live>, x: Live, m: MachineId)
    ensures ActiveOn(live + [x], m) == ActiveOn(live, m) + (if x.machine == m then [x.run] else [])
  {
    if live == [] {
      assert live + [x] == [x] && [x][1..] == [];
    } else {
      assert (live + [x])[1..] == live[1..] + [x] && (live + [x])[0] == live[0];
      ActiveAppend(live[1..], x, m);
      var head := if live[0].machine == m then [live[0].run] else [];
      var last := if x.machine == m then [x.run] else [];
      assert ActiveOn(live + [x], m) == head + ActiveOn(live[1..] + [x], m);
      assert head + (ActiveOn(live[1..], m) + last) == (head + ActiveOn(live[1..], m)) + last;
    }
  }

  /** `b` uses no more of any machine than `a`, and runs nothing that `a` does not run. */
  ghost predicate LessLive(b: seq<Live>, a: seq<Live>) {
    && (forall m :: AssignedCores(ActiveOn(b, m)) <= AssignedCores(ActiveOn(a, m)))
    && (forall m, lane :: LaneCount(ActiveOn(b, m), lane) <= LaneCount(ActiveOn(a, m), lane))
    && (forall x :: x in b ==> x in a)
  }

  lemma LessLiveStep(x: Live, b: seq<Live>, a: seq<Live>)
    requires LessLive(b, a)
    ensures LessLive([x] + b, [x] + a) && LessLive(b, [x] + a)
  {
    assert ([x] + b)[1..] == b && ([x] + a)[1..] == a;
    assert forall m :: ActiveOn([x] + b, m) == (if x.machine == m then [x.run] else []) + ActiveOn(b, m);
    assert forall m :: ActiveOn([x] + a, m) == (if x.machine == m then [x.run] else []) + ActiveOn(a, m);
    forall m
      ensures AssignedCores(ActiveOn([x] + b, m)) <= AssignedCores(ActiveOn([x] + a, m))
      ensures AssignedCores(ActiveOn(b, m)) <= AssignedCores(ActiveOn([x] + a, m))
      ensures forall lane :: LaneCount(ActiveOn([x] + b, m), lane) <= LaneCount(ActiveOn([x] + a, m), lane)
      ensures forall lane :: LaneCount(ActiveOn(b, m), lane) <= LaneCount(ActiveOn([x] + a, m), lane)
    {
      if x.machine == m {
        assert ([x.run] + ActiveOn(b, m))[1..] == ActiveOn(b, m) && ([x.run] + ActiveOn(a, m))[1..] == ActiveOn(a, m);
      } else {
        assert [] + ActiveOn(b, m) == ActiveOn(b, m) && [] + ActiveOn(a, m) == ActiveOn(a, m);
      }
    }
  }

  lemma {:induction false} RemovedIsLess(live: seq<Live>, i: nat)
    requires i < |live|
    ensures LessLive(live[..i] + live[i + 1..], live)
  {
    assert live == [live[0]] + live[1..];
    if i == 0 {
      assert LessLive(live[1..], live[1..]);
      LessLiveStep(live[0], live[1..], live[1..]);
      assert live[..0] + live[0 + 1..] == live[1..];
    } else {
      RemovedIsLess(live[1..], i - 1);
      LessLiveStep(live[0], live[1..][..i - 1] + live[1..][i..], live[1..]);
      assert live[..i] + live[i + 1..] == [live[0]] + (live[1..][..i - 1] + live[1..][i..]);
    }
  }

  lemma {:induction false} FilteredIsLess(live: seq<Live>, keep: Live -> bool)
    ensures LessLive(Filter(keep, live), live)
  {
    if live != [] {
      FilteredIsLess(live[1..], keep);
      LessLiveStep(live[0], Filter(keep, live[1..]), live[1..]);
      assert live == [live[0]] + live[1..];
      assert [] + Filter(keep, live[1..]) == Filter(keep, live[1..]);
    }
  }

  lemma ShrunkRecords(c: Config, s: State, live: seq<Live>)
    requires RecordsOk(c, s) && LessLive(live, s.live)
    ensures RecordsOk(c, s.(live := live))
  {
    var t := s.(live := live);
    assert forall i :: 0 <= i < |live| ==> live[i] in s.live;
    forall x | x in t.windows ensures WindowOk(c, t, x) { assert WindowOk(c, s, x); }
    assert forall x :: HolderAlive(t, x) == HolderAlive(s, x);
  }

  lemma ShrunkProc(c: Config, s: State, live: seq<Live>, q: Proc)
    requires LessLive(live, s.live) && ProcOk(c, s, q)
    ensures ProcOk(c, s.(live := live), q)
  {
    var t := s.(live := live);
    assert forall x :: HolderAlive(t, x) == HolderAlive(s, x);
  }

  /** The run of an open, sent window appears on its machine. */
  function Landed(c: Config, s: State, r: RunId): State
    requires r in s.windows && r in c.jobs
  {
    var w := s.windows[r];
    s.(live := s.live + [Live(w.machine, ActiveRun(r, c.jobs[r].workloadClass, Some(w.cores)))],
       windows := s.windows - {r}, landed := s.landed + {r})
  }

  lemma LandedRoom(c: Config, s: State, r: RunId, m: MachineId, lane: WorkloadClass)
    requires r in s.windows && r in c.jobs
    ensures var t := Landed(c, s, r);
            && CoresInUse(t, m) == CoresInUse(s, m) + (if s.windows[r].machine == m then s.windows[r].cores else 0)
            && (s.windows[r].machine != m ==> ActiveOn(t.live, m) == ActiveOn(s.live, m))
            && LaneCount(ActiveOn(t.live, m), lane)
               == LaneCount(ActiveOn(s.live, m), lane) + (if s.windows[r].machine == m && lane == c.jobs[r].workloadClass then 1 else 0)
  {
    var w := s.windows[r];
    var x := Live(w.machine, ActiveRun(r, c.jobs[r].workloadClass, Some(w.cores)));
    ActiveAppend(s.live, x, m);
    if w.machine == m {
      OneMoreRun(ActiveOn(s.live, m), x.run, lane);
    } else {
      assert ActiveOn(s.live, m) + [] == ActiveOn(s.live, m);
    }
  }

  /** Two open windows are never on one machine: either they share it and hold its one lease, or only one run fits it. */
  lemma OneWindowPerMachine(c: Config, s: State, r: RunId, x: RunId)
    requires SharedLeasesOutlastLag(c) && r in s.windows && x in s.windows && WindowOk(c, s, r) && WindowOk(c, s, x)
    ensures s.windows[r].machine == s.windows[x].machine ==> r == x
  {
    hide Fits, DispatchStands;
    SharersOutlast(c, r, x, s.windows[r].machine);
  }

  lemma SharersOutlast(c: Config, r: RunId, o: RunId, m: MachineId)
    requires SharedLeasesOutlastLag(c)
    ensures r != o && Fits(c, r, m) && Fits(c, o, m) ==> Outlasts(c, r) && Outlasts(c, o)
  {
    hide Fits, Outlasts;
    if r != o && Fits(c, r, m) && Fits(c, o, m) {
      assert Shares(c, r, o, m) && Shares(c, o, r, m);
    }
  }

  lemma LandedCapacity(c: Config, s: State, r: RunId)
    requires RecordsOk(c, s) && SharedLeasesOutlastLag(c) && r in s.windows
    ensures CapacityOk(c, Landed(c, s, r))
  {
    var t := Landed(c, s, r);
    assert WindowOk(c, s, r);
    forall m | m in c.cores ensures CoresInUse(t, m) <= c.cores[m] {
      LandedRoom(c, s, r, m, Standard);
    }
    forall x | x in t.windows && x in c.jobs
      ensures RoomFor(c, t, t.windows[x].machine, c.jobs[x].workloadClass, t.windows[x].cores, t.windows[x].slots)
    {
      assert WindowOk(c, s, x);
      OneWindowPerMachine(c, s, r, x);
      LandedRoom(c, s, r, t.windows[x].machine, c.jobs[x].workloadClass);
    }
  }

  lemma LandedAttempts(c: Config, s: State, r: RunId)
    requires AttemptsOk(c, s) && r in s.windows && r in c.jobs && r in s.sent
    ensures AttemptsOk(c, Landed(c, s, r))
  {
  }

  lemma LandedWindow(c: Config, s: State, r: RunId, x: RunId)
    requires r in s.windows && r in c.jobs && x in s.windows && x != r && WindowOk(c, s, x)
    ensures WindowOk(c, Landed(c, s, r), x)
  {
  }

  lemma LandedRecords(c: Config, s: State, r: RunId)
    requires RecordsOk(c, s) && SharedLeasesOutlastLag(c) && r in s.windows && r in c.jobs && s.windows[r].sent
    ensures RecordsOk(c, Landed(c, s, r))
  {
    var t := Landed(c, s, r);
    assert WindowOk(c, s, r);
    LandedCapacity(c, s, r);
    LandedAttempts(c, s, r);
    SameTables(c, s, t);
    hide CapacityOk, AttemptsOk, TablesOk, WindowOk;
    forall x | x in t.windows ensures WindowOk(c, t, x) { LandedWindow(c, s, r, x); }
  }

  /** Nobody else who still counts on room on that machine holds its lease: the window does, or no other run
      fits the machine. */
  lemma LandedAdmission(c: Config, s: State, r: RunId, q: Proc)
    requires SharedLeasesOutlastLag(c) && r in s.windows && r in c.jobs && WindowOk(c, s, r)
    requires OwnershipOk(c, s, q) && ProgressOk(s, q) && AdmissionOk(c, s, q)
    ensures AdmissionOk(c, Landed(c, s, r), q)
  {
    hide Fits, MayUse, CoresInUse, LaneCount, ActiveOn, WindowOk, OwnershipOk, ProgressOk;
    if q.Pipe? && q.g.run in c.jobs { LandedRoom(c, s, r, q.g.machine, c.jobs[q.g.run].workloadClass); }
    CountsElsewhere(c, s, r, q);
  }

  /** A dispatcher of another run that counts on room under its lease does so on another machine. */
  lemma CountsElsewhere(c: Config, s: State, r: RunId, q: Proc)
    requires SharedLeasesOutlastLag(c) && r in s.windows && r in c.jobs && WindowOk(c, s, r)
    requires OwnershipOk(c, s, q) && ProgressOk(s, q) && AdmissionOk(c, s, q)
    ensures q.Pipe? && q.phase in {Admitted, Marked, Owned, Registered} && q.g.run != r && Holds(s, q.g.machine, q.g.token)
            ==> q.g.machine != s.windows[r].machine
  {
    hide Fits, DispatchStands, MayUse, RoomFor;
    if q.Pipe? { SharersOutlast(c, r, q.g.run, q.g.machine); }
  }

  lemma LandedProc(c: Config, s: State, r: RunId, q: Proc)
    requires SharedLeasesOutlastLag(c) && r in s.windows && r in c.jobs && WindowOk(c, s, r) && s.windows[r].sent && ProcOk(c, s, q)
    ensures ProcOk(c, Landed(c, s, r), q)
  {
    var t := Landed(c, s, r);
    LandedAdmission(c, s, r, q);
    SameOwnership(c, s, t, q);
    SameRecovery(s, t, q);
    hide OwnershipOk, AdmissionOk, RecoveryOk;
  }

  // ---------- clock, slots, submissions ----------

  lemma LaterRecords(c: Config, s: State, now: Time)
    requires RecordsOk(c, s) && s.now <= now
    ensures RecordsOk(c, s.(now := now))
  {
    var t := s.(now := now);
    SameAttempts(c, s, t);
    SameCapacity(c, s, t);
    hide AttemptsOk, CapacityOk;
    forall x | x in t.windows ensures WindowOk(c, t, x) { assert WindowOk(c, s, x); }
    assert forall x :: HolderAlive(t, x) == HolderAlive(s, x);
  }

  lemma LaterProc(c: Config, s: State, now: Time, q: Proc)
    requires s.now <= now && ProcOk(c, s, q)
    ensures ProcOk(c, s.(now := now), q)
  {
    assert forall x :: HolderAlive(s.(now := now), x) == HolderAlive(s, x);
  }

  lemma SlotsRecords(c: Config, s: State, slots: map<(MachineId, WorkloadClass), int>)
    requires RecordsOk(c, s)
    ensures RecordsOk(c, s.(slots := slots))
  {
    var t := s.(slots := slots);
    SameAttempts(c, s, t);
    SameCapacity(c, s, t);
    hide AttemptsOk, CapacityOk;
    forall x | x in t.windows ensures WindowOk(c, t, x) { assert WindowOk(c, s, x); }
    assert forall x :: HolderAlive(t, x) == HolderAlive(s, x);
  }

  lemma SlotsProc(c: Config, s: State, slots: map<(MachineId, WorkloadClass), int>, q: Proc)
    requires ProcOk(c, s, q)
    ensures ProcOk(c, s.(slots := slots), q)
  {
    assert forall x :: HolderAlive(s.(slots := slots), x) == HolderAlive(s, x);
  }

  function Submitted(s: State, r: RunId): State {
    s.(queue := s.queue[r := QueueRecord(Queued, 0, None)])
  }

  lemma SubmittedTables(c: Config, s: State, r: RunId)
    requires TablesOk(c, s) && r !in s.queue
    ensures TablesOk(c, Submitted(s, r))
  {
    SubmittedHolders(s, r);
    hide HolderAlive, Holds;
  }

  lemma SubmittedHolders(s: State, r: RunId)
    requires r !in s.queue
    ensures forall x :: HolderAlive(Submitted(s, r), x) ==> x != r && HolderAlive(s, x)
  {
  }

  lemma SubmittedWindow(c: Config, s: State, r: RunId, x: RunId)
    requires x in s.windows && WindowOk(c, s, x) && r !in s.queue
    ensures WindowOk(c, Submitted(s, r), x)
  {
  }

  lemma SubmittedRecords(c: Config, s: State, r: RunId)
    requires RecordsOk(c, s) && r !in s.queue
    ensures RecordsOk(c, Submitted(s, r))
  {
    var t := Submitted(s, r);
    SameAttempts(c, s, t);
    SameCapacity(c, s, t);
    SubmittedTables(c, s, r);
    hide AttemptsOk, CapacityOk, TablesOk, WindowOk;
    forall x | x in t.windows ensures WindowOk(c, t, x) { SubmittedWindow(c, s, r, x); }
  }

  lemma SubmittedProc(c: Config, s: State, r: RunId, q: Proc)
    requires r !in s.queue && ProcOk(c, s, q)
    ensures ProcOk(c, Submitted(s, r), q)
  {
    assert forall x :: x != r ==> HolderAlive(Submitted(s, r), x) == HolderAlive(s, x);
  }
}
