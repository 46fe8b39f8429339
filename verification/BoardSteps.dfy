/** The dispatcher's own lease and row operations are steps of the protocol: a board that shows the shared records of a
    protocol state still shows those of the next state after each of them. */
module BoardSteps {
  import opened Common
  import opened LeaseBoard
  import P = DispatchProtocol
  import DispatchInvariant
  import DispatchReads

  function Shown(status: Status): P.QueueStatus {
    match status
    case Queued => P.Queued
    case InDispatch => P.InDispatch
    case Dispatched => P.Dispatched
    case Failed => P.Closed
    case Stopped => P.Closed
  }

  predicate SameLease(a: Lease, x: P.Lease) {
    a.run == x.run && a.token == x.token && a.expires == x.expires
  }

  predicate SameRow(a: QueueRow, x: P.QueueRecord) {
    Shown(a.status) == x.status && a.revision == x.revision
  }

  /** The board holds the lease files, rows and execution records of the protocol state; no machine is drained
      and no run has been purged, as the protocol assumes. */
  ghost predicate Shows(b: Board, s: P.State)
    reads b
  {
    && b.drained == {} && b.gone == {} && b.now == s.now && b.nextToken == s.nextToken && b.exec == s.exec.Keys
    && b.leases.Keys == s.leases.Keys && (forall m :: m in b.leases ==> SameLease(b.leases[m], s.leases[m]))
    && b.queue.Keys == s.queue.Keys && (forall r :: r in b.queue ==> SameRow(b.queue[r], s.queue[r]))
  }

  // ---------- leases ----------

  /** Acquiring is the protocol's step, and fails exactly when that step cannot be taken. */
  method AcquireIsAStep(b: Board, c: P.Config, ghost s: P.State, ghost p: nat, machine: MachineId, run: RunId)
    returns (token: Option<nat>, ghost t: P.State)
    requires b.Valid() && Shows(b, s) && p < |s.procs| && s.procs[p].RowRead? && s.procs[p].run == run
    requires P.MayUse(c, run, machine) && machine in c.cores && s.now - s.procs[p].readAt < c.lag
    modifies b`leases, b`nextToken, b`issued
    ensures b.Valid() && Shows(b, t)
    ensures P.LaunchNext(c, s, p, P.AcquireLease(machine)) == if token.Some? then Some(t) else None
    ensures token.Some? ==> t.procs[p].Pipe? && t.procs[p].g.token == token.value
  {
    token := b.Acquire(machine, run, P.Ttl(c, run));
    t := if token.None? then s else P.LaunchNext(c, s, p, P.AcquireLease(machine)).value;
  }

  /** Recovery's fencing acquire is the protocol's step too. */
  method FencingIsAStep(b: Board, c: P.Config, ghost s: P.State, ghost p: nat, machine: MachineId, run: RunId)
    returns (token: Option<nat>, ghost t: P.State)
    requires b.Valid() && Shows(b, s) && p < |s.procs| && s.procs[p].OneLease? && s.procs[p].run == run
    requires s.procs[p].machine == machine && s.now - s.procs[p].readAt < c.lag
    modifies b`leases, b`nextToken, b`issued
    ensures b.Valid() && Shows(b, t)
    ensures P.RepairNext(c, s, p, P.Refence) == if token.Some? then Some(t) else None
    ensures token.Some? ==> t.procs[p].Refenced? && t.procs[p].token == token.value
  {
    token := b.Acquire(machine, run, P.Ttl(c, run));
    t := if token.None? then s else P.RepairNext(c, s, p, P.Refence).value;
  }

  /** What a renewal does to the lease table is what the protocol's renewal does. */
  method RenewLike(b: Board, c: P.Config, ghost s: P.State, ghost q: P.Proc, machine: MachineId, run: RunId, token: nat)
    returns (owned: bool, ghost t: P.State)
    requires b.Valid() && Shows(b, s) && q.Pipe? && q.g.machine == machine && q.g.run == run && q.g.token == token
    requires DispatchInvariant.OwnershipOk(c, s, q)
    modifies b`leases
    ensures b.Valid() && Shows(b, t) && (owned <==> P.Holds(s, machine, token))
    ensures t == if P.Holds(s, machine, token) then P.Renew(c, s, machine) else s
  {
    owned := b.Renew(machine, run, token, P.Ttl(c, run));
    t := if P.Holds(s, machine, token) then P.Renew(c, s, machine) else s;
  }

  /** Dispatchers, windows and statuses are not on the board. */
  lemma ShowsIgnores(b: Board, s: P.State, t: P.State)
    requires Shows(b, s) && t.now == s.now && t.nextToken == s.nextToken && t.leases == s.leases && t.queue == s.queue
    requires t.exec.Keys == s.exec.Keys
    ensures Shows(b, t)
  {
  }

  /** The first ownership check is the protocol's step, and its answer decides where the dispatcher goes. */
  method OwnedCheckIsAStep(b: Board, c: P.Config, ghost s: P.State, ghost p: nat, machine: MachineId, run: RunId, token: nat)
    returns (owned: bool, ghost t: P.State)
    requires b.Valid() && Shows(b, s) && P.AtPhase(s, p, P.Marked) && DispatchInvariant.OwnershipOk(c, s, s.procs[p])
    requires s.procs[p].g.machine == machine && s.procs[p].g.run == run && s.procs[p].g.token == token
    modifies b`leases
    ensures b.Valid() && Shows(b, t) && P.LaunchNext(c, s, p, P.CheckOwned) == Some(t)
    ensures t.procs == s.procs[p := P.Pipe(if owned then P.Owned else P.Failing, s.procs[p].g)]
  {
    hide DispatchInvariant.OwnershipOk, Shows;
    ghost var q, mid := s.procs[p], s;
    owned, mid := RenewLike(b, c, s, q, machine, run, token);
    t := P.SetProc(mid, p, P.Pipe(if owned then P.Owned else P.Failing, q.g));
    ShowsIgnores(b, mid, t);
  }

  /** So is the check after registration. */
  method FenceCheckIsAStep(b: Board, c: P.Config, ghost s: P.State, ghost p: nat, machine: MachineId, run: RunId, token: nat)
    returns (owned: bool, ghost t: P.State)
    requires b.Valid() && Shows(b, s) && P.AtPhase(s, p, P.Registered) && DispatchInvariant.OwnershipOk(c, s, s.procs[p])
    requires s.procs[p].g.machine == machine && s.procs[p].g.run == run && s.procs[p].g.token == token
    modifies b`leases
    ensures b.Valid() && Shows(b, t) && P.LaunchNext(c, s, p, P.CheckFence) == Some(t)
    ensures t.procs == s.procs[p := P.Pipe(if owned then P.Fenced else P.Unsure, s.procs[p].g)]
  {
    hide DispatchInvariant.OwnershipOk, Shows;
    ghost var mid := s;
    owned, mid := RenewLike(b, c, s, s.procs[p], machine, run, token);
    t := P.LaunchNext(c, s, p, P.CheckFence).value;
    ShowsIgnores(b, mid, t);
  }

  /** And the background heartbeat, which is no step once the lease is lost. */
  method HeartbeatIsAStep(b: Board, c: P.Config, ghost s: P.State, ghost p: nat, machine: MachineId, run: RunId, token: nat)
    returns (owned: bool, ghost t: P.State)
    requires b.Valid() && Shows(b, s) && p < |s.procs| && s.procs[p].Pipe? && s.procs[p].phase !in {P.Leased, P.Admitted}
    requires DispatchInvariant.OwnershipOk(c, s, s.procs[p])
    requires s.procs[p].g.machine == machine && s.procs[p].g.run == run && s.procs[p].g.token == token
    modifies b`leases
    ensures b.Valid() && Shows(b, t) && P.LaunchNext(c, s, p, P.Heartbeat) == if owned then Some(t) else None
  {
    hide DispatchInvariant.OwnershipOk, Shows;
    owned, t := RenewLike(b, c, s, s.procs[p], machine, run, token);
  }

  /** Giving the lease back ends the launch in the protocol as well. */
  method GiveBackIsAStep(b: Board, c: P.Config, ghost s: P.State, ghost p: nat, machine: MachineId, run: RunId, token: nat)
    returns (ghost t: P.State)
    requires b.Valid() && Shows(b, s) && P.AtPhase(s, p, P.Releasing)
    requires s.procs[p].g.machine == machine && s.procs[p].g.run == run && s.procs[p].g.token == token
    modifies b`leases
    ensures b.Valid() && Shows(b, t) && P.LaunchNext(c, s, p, P.GiveLeaseBack) == Some(t)
  {
    b.Release(machine, run, token);
    t := P.LaunchNext(c, s, p, P.GiveLeaseBack).value;
  }

  /** Recovery releases the lease it fenced, and so does the sweep over settled leases. */
  method RepairReleaseIsAStep(b: Board, c: P.Config, ghost s: P.State, ghost p: nat, machine: MachineId, run: RunId, token: nat)
    returns (ghost t: P.State)
    requires b.Valid() && Shows(b, s) && p < |s.procs| && (s.procs[p].Refenced? || s.procs[p].LeaseSettled?)
    requires s.procs[p].machine == machine && s.procs[p].run == run && s.procs[p].token == token
    modifies b`leases
    ensures b.Valid() && Shows(b, t)
    ensures P.RepairNext(c, s, p, if s.procs[p].Refenced? then P.ReleaseRefenced else P.ReleaseSettled) == Some(t)
  {
    b.Release(machine, run, token);
    t := P.RepairNext(c, s, p, if s.procs[p].Refenced? then P.ReleaseRefenced else P.ReleaseSettled).value;
  }

  // ---------- rows ----------

  /** Marking a row that is as it was read, as `DispatchReads.RowsAreAsRead` proves of every reachable state: done
      exactly when the protocol's dispatcher gets its row; otherwise it turns to giving back. */
  method MarkIsAStep(b: Board, c: P.Config, ghost s: P.State, ghost p: nat, run: RunId, revision: nat)
    returns (move: Move, ghost t: P.State)
    requires b.Valid() && Shows(b, s) && P.AtPhase(s, p, P.Admitted) && s.procs[p].g.run == run && s.procs[p].g.revision == revision
    requires DispatchReads.AsRead(s, run, revision, P.Queued)
    modifies b`queue
    ensures Shows(b, t) && P.LaunchNext(c, s, p, P.MarkDispatching) == Some(t)
    ensures t.procs == s.procs[p := P.Pipe(if move == Moved then P.Marked else P.Releasing,
                                           s.procs[p].g.(revision := revision + if move == Moved then 1 else 0))]
  {
    move := b.Transition(run, revision, InDispatch);
    t := P.LaunchNext(c, s, p, P.MarkDispatching).value;
  }

  /** What a commit does to the rows is what the protocol's transition does. */
  method CommitLike(b: Board, ghost s: P.State, held: Reserved) returns (lost: bool, ghost t: P.State)
    requires b.Valid() && Shows(b, s) && Marked(held, b.queue)
    modifies b`queue
    ensures held.Run() in s.queue
    ensures var at := P.QueueAt(s, held.Run(), P.InDispatch, held.item.revision + 1);
            && t == (if at then P.SetQueue(s, held.Run(), P.Dispatched, None) else s)
            && (lost <==> !at && s.queue[held.Run()].status != P.Dispatched)
    ensures Shows(b, t)
  {
    lost := CommitRow(b, held, Dispatched);
    t := if P.QueueAt(s, held.Run(), P.InDispatch, held.item.revision + 1) then P.SetQueue(s, held.Run(), P.Dispatched, None) else s;
  }

  /** Committing a launched row whose lease is still held. */
  method CommitIsAStep(b: Board, c: P.Config, ghost s: P.State, ghost p: nat, held: Reserved)
    returns (lost: bool, ghost t: P.State)
    requires b.Valid() && Shows(b, s) && P.AtPhase(s, p, P.Launched) && Marked(held, b.queue)
    requires s.procs[p].g.run == held.Run() && s.procs[p].g.revision == held.item.revision + 1
    requires P.Holds(s, s.procs[p].g.machine, s.procs[p].g.token)
    modifies b`queue
    ensures Shows(b, t) && P.LaunchNext(c, s, p, P.CommitDispatched) == Some(t)
    ensures t.procs == s.procs[p := P.Pipe(if lost then P.Unsure else P.Releasing, s.procs[p].g)]
  {
    hide P.Holds, Shows, Marked;
    ghost var mid := s;
    lost, mid := CommitLike(b, s, held);
    t := P.SetProc(mid, p, P.Pipe(if lost then P.Unsure else P.Releasing, s.procs[p].g));
    ShowsIgnores(b, mid, t);
  }

  /** Queueing a row again behind a fenced lease. */
  method RequeueIsAStep(b: Board, c: P.Config, ghost s: P.State, ghost p: nat, run: RunId, revision: nat)
    returns (move: Move, ghost t: P.State)
    requires b.Valid() && Shows(b, s) && p < |s.procs| && s.procs[p] == P.Unfenced(run, revision)
    modifies b`queue
    ensures Shows(b, t) && P.RepairNext(c, s, p, P.Requeue) == Some(t)
    ensures move == Moved <==> P.QueueAt(s, run, P.InDispatch, revision)
  {
    move := b.Recover(run, revision);
    t := P.RepairNext(c, s, p, P.Requeue).value;
  }
}
