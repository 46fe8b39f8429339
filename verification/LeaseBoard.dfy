/** The dispatcher's imperative side: lease files and queue records updated in place by one
    dispatcher while others may interfere between any two of its operations. */
module LeaseBoard {
  import opened Common
  import opened Placement

  type RunId = string
  type MachineId = string

  datatype Lease = Lease(run: RunId, token: nat, expires: nat)

  datatype Status = Queued | InDispatch | Dispatched | Failed | Stopped

  datatype QueueRow = QueueRow(status: Status, revision: nat)

  /** A planned job: its row as read, and the machines to try, best first. */
  datatype Planned = Planned(job: Job, revision: nat, selected: Probed, alternatives: seq<Probed>)

  /** A reserved job: the machine it was admitted to and the lease it holds there. */
  datatype Reserved = Reserved(item: Planned, chosen: Probed, token: nat) {
    function Run(): RunId { item.job.runId }
    function Machine(): MachineId { chosen.server.machineId }
  }

  datatype Action = Started | Unknown | NotLaunched

  datatype Recovery = Nothing | Busy(run: RunId) | SeveralLeases(run: RunId)

  /** How a conditional write of a queue row ends; only a conflict tells the caller that somebody else was faster. */
  datatype Move = Moved | Conflict | Illegal | Missing

  predicate Settled(status: Status) {
    status in {Dispatched, Failed, Stopped}
  }

  /** The legal moves of a queue row; rewriting a row under its own status is one. */
  predicate LegalMove(current: Status, status: Status) {
    || status == current
    || (current == Queued && status in {InDispatch, Failed, Stopped})
    || (current == InDispatch && status in {Dispatched, Failed, Stopped})
  }

  predicate TokensBelow(leases: map<MachineId, Lease>, bound: nat) {
    forall m :: m in leases ==> leases[m].token < bound
  }

  /** What other dispatchers may do to a lease file that carries a token of ours: remove or replace it,
      never rewrite it under the same token. */
  predicate LeasesMoved(before: map<MachineId, Lease>, after: map<MachineId, Lease>, issued: set<nat>) {
    forall m :: m in after && after[m].token in issued ==> m in before && before[m] == after[m]
  }

  predicate RowMoved(before: QueueRow, after: QueueRow) {
    after == before || (after.revision > before.revision && (Settled(before.status) ==> after.status == before.status))
  }

  /** What others may do to the queue: rows are only rewritten at a higher revision, settled rows stay settled. */
  predicate QueueMoved(before: map<RunId, QueueRow>, after: map<RunId, QueueRow>) {
    forall r :: r in before ==> r in after && RowMoved(before[r], after[r])
  }

  class Board {
    var leases: map<MachineId, Lease>
    var queue: map<RunId, QueueRow>
    var exec: set<RunId>
    var now: nat
    var nextToken: nat
    var drained: set<MachineId>
    const gone: set<RunId>     // runs whose queue and execution records were both removed
    var issued: set<nat>       // history: tokens handed to this dispatcher

    ghost predicate Valid()
      reads this
    {
      && TokensBelow(leases, nextToken)
      && (forall k :: k in issued ==> k < nextToken)
    }

    predicate CanAcquire(machine: MachineId, run: RunId)
      reads this
    {
      && machine !in drained
      && (machine in leases ==> leases[machine].expires <= now && (leases[machine].run == run || leases[machine].run in gone))
    }

    /** A fresh token, or none. */
    method Acquire(machine: MachineId, run: RunId, ttl: Positive) returns (token: Option<nat>)
      requires Valid()
      modifies this`leases, this`nextToken, this`issued
      ensures Valid()
      ensures token.Some? <==> old(CanAcquire(machine, run))
      ensures token.None? ==> leases == old(leases) && issued == old(issued) && nextToken == old(nextToken)
      ensures token.Some? ==> token.value == old(nextToken) && nextToken == token.value + 1 && issued == old(issued) + {token.value}
                              && leases == old(leases)[machine := Lease(run, token.value, now + ttl)]
    {
      if !CanAcquire(machine, run) { return None; }
      token := Some(nextToken);
      leases := leases[machine := Lease(run, nextToken, now + ttl)];
      issued := issued + {nextToken};
      nextToken := nextToken + 1;
    }

    /** Extends a current lease, expired or not; says whether it was current. */
    method Renew(machine: MachineId, run: RunId, token: nat, ttl: Positive) returns (owned: bool)
      requires Valid()
      modifies this`leases
      ensures Valid()
      ensures owned <==> machine in old(leases) && old(leases)[machine].token == token && old(leases)[machine].run == run
      ensures leases == if owned then old(leases)[machine := Lease(run, token, now + ttl)] else old(leases)
    {
      owned := machine in leases && leases[machine].token == token && leases[machine].run == run;
      if owned { leases := leases[machine := Lease(run, token, now + ttl)]; }
    }

    /** Removes the lease of this run and token, and no other. */
    method Release(machine: MachineId, run: RunId, token: nat)
      requires Valid()
      modifies this`leases
      ensures Valid()
      ensures leases == if machine in old(leases) && old(leases)[machine].run == run && old(leases)[machine].token == token
                        then old(leases) - {machine} else old(leases)
    {
      if machine in leases && leases[machine].run == run && leases[machine].token == token {
        leases := leases - {machine};
      }
    }

    /** Compare-and-swap on the row's revision, along legal moves. */
    method Transition(run: RunId, expected: nat, status: Status) returns (move: Move)
      modifies this`queue
      ensures move.Missing? <==> run !in old(queue)
      ensures move.Conflict? <==> run in old(queue) && old(queue)[run].revision != expected
      ensures move.Moved? ==> LegalMove(old(queue)[run].status, status)
      ensures move.Illegal? ==> !LegalMove(old(queue)[run].status, status)
      ensures queue == if move.Moved? then old(queue)[run := QueueRow(status, expected + 1)] else old(queue)
    {
      if run !in queue { return Missing; }
      if queue[run].revision != expected { return Conflict; }
      if !LegalMove(queue[run].status, status) { return Illegal; }
      queue := queue[run := QueueRow(status, expected + 1)];
      return Moved;
    }

    /** The one way back: a dispatching row becomes queued again. */
    method Recover(run: RunId, expected: nat) returns (move: Move)
      modifies this`queue
      ensures move.Missing? <==> run !in old(queue)
      ensures move.Conflict? <==> run in old(queue) && old(queue)[run].revision != expected
      ensures move.Moved? ==> old(queue)[run].status == InDispatch
      ensures move.Illegal? ==> old(queue)[run].status != InDispatch
      ensures queue == if move.Moved? then old(queue)[run := QueueRow(Queued, expected + 1)] else old(queue)
    {
      if run !in queue { return Missing; }
      if queue[run].revision != expected { return Conflict; }
      if queue[run].status != InDispatch { return Illegal; }
      queue := queue[run := QueueRow(Queued, expected + 1)];
      return Moved;
    }

    /** Any amount of work by other dispatchers, and any amount of time. */
    method Others()
      requires Valid()
      modifies this`leases, this`queue, this`exec, this`now, this`nextToken, this`drained
      ensures Valid()
      ensures LeasesMoved(old(leases), leases, issued) && QueueMoved(old(queue), queue)
      ensures old(exec) <= exec && old(now) <= now && old(nextToken) <= nextToken
    {
      var after: map<MachineId, Lease>, bound: nat :| LeasesMoved(leases, after, issued) && nextToken <= bound && TokensBelow(after, bound);
      assert QueueMoved(queue, queue);
      var rows :| QueueMoved(queue, rows);
      var records, later :| exec <= records && now <= later;
      leases, nextToken, queue, exec, now := after, bound, rows, records, later;
      drained := *;
    }

    // ---------- reserving one planned job ----------

    /** `_reserve_planned_dispatch`: the first machine that gives a lease and, probed under it, has room. */
    method Reserve(item: Planned, others: set<MachineId>, ttl: Positive) returns (r: Option<Reserved>)
      requires Valid()
      modifies this
      ensures Valid() && old(issued) <= issued && old(exec) <= exec
      ensures LeasesMoved(old(leases), leases, old(issued)) && QueueMoved(old(queue), queue)
      ensures r.Some? ==> r.value.item == item && r.value.token in issued - old(issued)
      ensures r.Some? ==> HasWorkloadCapacity(item.job, r.value.chosen) && r.value.Machine() !in others
      ensures r.Some? ==> exists p :: p in [item.selected] + item.alternatives && p.server.machineId == r.value.Machine()
      ensures r.Some? ==> r.value.Machine() in leases && Matches(r.value, r.value.Machine(), leases[r.value.Machine()])
      ensures HeldBy(if r.Some? then [r.value] else [], issued - old(issued), leases)
    {
      hide HasWorkloadCapacity, QueueMoved, LeasesMoved, HeldBy;
      QueueStill(queue);
      LeasesStill(leases, issued);
      HeldByNobody(leases);
      var candidates := [item.selected] + item.alternatives;
      var i := 0;
      assert issued - old(issued) == {};
      while i < |candidates|
        invariant 0 <= i <= |candidates|
        invariant Valid() && old(issued) <= issued && old(exec) <= exec
        invariant LeasesMoved(old(leases), leases, old(issued)) && QueueMoved(old(queue), queue)
        invariant HeldBy([], issued - old(issued), leases)
      {
        var machine := candidates[i].server.machineId;
        i := i + 1;
        if machine in others { continue; }
        ghost var tokens, held, rows := issued, leases, queue;
        var tried := TryMachine(item, machine, ttl);
        LeasesStillMoved(old(leases), held, leases, old(issued), tokens);
        QueueStillMoved(old(queue), rows, queue);
        ghost var got := if tried.Some? then [tried.value] else [];
        HeldTogether([], got, old(issued), tokens, issued, held, leases);
        assert [] + got == got;
        if tried.Some? { return tried; }
      }
      r := None;
    }

    /** One machine: lease it, probe it under the lease, keep it if there is room, give it back if not. */
    method TryMachine(item: Planned, machine: MachineId, ttl: Positive) returns (r: Option<Reserved>)
      requires Valid()
      modifies this
      ensures Valid() && old(issued) <= issued && old(exec) <= exec
      ensures LeasesMoved(old(leases), leases, old(issued)) && QueueMoved(old(queue), queue)
      ensures r.Some? ==> r.value.item == item && r.value.token in issued - old(issued)
      ensures r.Some? ==> HasWorkloadCapacity(item.job, r.value.chosen) && r.value.Machine() == machine
      ensures r.Some? ==> r.value.Machine() in leases && Matches(r.value, r.value.Machine(), leases[r.value.Machine()])
      ensures HeldBy(if r.Some? then [r.value] else [], issued - old(issued), leases)
    {
      hide HasWorkloadCapacity;
      Others();
      var token := Acquire(machine, item.job.runId, ttl);
      if token.None? { return None; }
      var answer: Option<Probed> :| answer.Some? ==> answer.value.server.machineId == machine;
      if answer.Some? && HasWorkloadCapacity(item.job, answer.value) {
        var kept := Reserved(item, answer.value, token.value);
        assert [kept][0] == kept && issued - old(issued) == {token.value};
        return Some(kept);
      }
      Others();
      Release(machine, item.job.runId, token.value);
      r := None;
    }
  }

  lemma LeasesStill(leases: map<MachineId, Lease>, ks: set<nat>)
    ensures LeasesMoved(leases, leases, ks)
  {
  }

  lemma LeasesStillMoved(a: map<MachineId, Lease>, b: map<MachineId, Lease>, c: map<MachineId, Lease>, ks: set<nat>,
                         more: set<nat>)
    requires LeasesMoved(a, b, ks) && LeasesMoved(b, c, more) && ks <= more
    ensures LeasesMoved(a, c, ks)
  {
  }

  lemma QueueStill(rows: map<RunId, QueueRow>)
    ensures QueueMoved(rows, rows)
  {
  }

  lemma QueueStillMoved(a: map<RunId, QueueRow>, b: map<RunId, QueueRow>, c: map<RunId, QueueRow>)
    requires QueueMoved(a, b) && QueueMoved(b, c)
    ensures QueueMoved(a, c)
  {
  }

  lemma HeldByNobody(leases: map<MachineId, Lease>)
    ensures HeldBy([], {}, leases)
  {
  }

  /** Every lease file under one of the tokens `ks` belongs to one of the reservations. */
  ghost predicate HeldBy(rs: seq<Reserved>, ks: set<nat>, leases: map<MachineId, Lease>) {
    forall m :: m in leases && leases[m].token in ks ==>
      exists i :: 0 <= i < |rs| && Matches(rs[i], m, leases[m])
  }

  predicate Matches(r: Reserved, m: MachineId, lease: Lease) {
    r.Machine() == m && r.token == lease.token && r.Run() == lease.run
  }

  // ---------- launching one reserved job ----------

  /** The background renewal of one lease: once lost, always lost. */
  class Heartbeat {
    const board: Board
    const held: Reserved
    const ttl: Positive
    var lost: bool

    constructor (board: Board, held: Reserved, ttl: Positive)
      ensures this.board == board && this.held == held && this.ttl == ttl && !lost
    {
      this.board, this.held, this.ttl, this.lost := board, held, ttl, false;
    }

    method AssertOwned() returns (owned: bool)
      requires board.Valid()
      modifies this`lost, board`leases
      ensures board.Valid() && lost == !owned && (old(lost) ==> lost)
      ensures owned ==> held.Machine() in board.leases
                        && board.leases == old(board.leases)[held.Machine() := Lease(held.Run(), held.token, board.now + ttl)]
                        && held.Machine() in old(board.leases) && old(board.leases)[held.Machine()].token == held.token
      ensures !owned ==> board.leases == old(board.leases)
    {
      if lost { return false; }
      owned := board.Renew(held.Machine(), held.Run(), held.token, ttl);
      lost := !owned;
    }

    /** The same check after anything others may have done meanwhile; `held0` and `rows0` are what the launch began with. */
    method AssertOwnedLater(ghost held0: map<MachineId, Lease>, ghost rows0: map<RunId, QueueRow>) returns (owned: bool)
      requires board.Valid() && held.token in board.issued && SoleHolder(held, board.leases)
      requires LeasesMoved(held0, board.leases, board.issued - {held.token}) && QueueMoved(rows0, board.queue)
      modifies this`lost, board
      ensures board.Valid() && board.issued == old(board.issued) && old(board.exec) <= board.exec
              && SoleHolder(held, board.leases)
      ensures LeasesMoved(held0, board.leases, board.issued - {held.token}) && QueueMoved(rows0, board.queue)
      ensures lost == !owned && (old(lost) ==> lost)
    {
      hide QueueMoved;
      board.Others();
      QueueStillMoved(rows0, old(board.queue), board.queue);
      owned := AssertOwned();
    }
  }

  /** Why a launch stopped: lease lost, definite failure, or outcome unknown. */
  datatype Failure = LeaseLost | Definite | Uncertain

  /** A token is on no machine but that of its reservation. */
  ghost predicate SoleHolder(held: Reserved, leases: map<MachineId, Lease>) {
    forall m :: m in leases && leases[m].token == held.token ==> Matches(held, m, leases[m])
  }

  /** The row was marked dispatching for this reservation: at the revision of the marking it is in dispatch,
      and any later revision is somebody else's. */
  predicate Marked(r: Reserved, queue: map<RunId, QueueRow>) {
    r.Run() in queue && RowMoved(QueueRow(InDispatch, r.item.revision + 1), queue[r.Run()])
  }

  lemma MarkedStill(r: Reserved, before: map<RunId, QueueRow>, after: map<RunId, QueueRow>)
    requires Marked(r, before) && QueueMoved(before, after)
    ensures Marked(r, after)
  {
  }

  /** The attempt: everything between the first ownership check and the commit of the row. */
  method Attempt(b: Board, h: Heartbeat) returns (failure: Option<Failure>, registered: bool)
    requires b.Valid() && h.board == b && h.held.token in b.issued && SoleHolder(h.held, b.leases)
    requires Marked(h.held, b.queue)
    modifies b, h`lost
    ensures b.Valid() && b.issued == old(b.issued) && old(b.exec) <= b.exec && SoleHolder(h.held, b.leases)
    ensures LeasesMoved(old(b.leases), b.leases, b.issued - {h.held.token}) && QueueMoved(old(b.queue), b.queue)
    ensures registered ==> h.held.Run() in b.exec
    ensures failure.None? ==> registered && h.held.Run() in b.queue && b.queue[h.held.Run()].status == Dispatched
  {
    hide LeasesMoved, QueueMoved, SoleHolder, Marked;
    ghost var held0, rows0 := b.leases, b.queue;
    LeasesStill(held0, b.issued - {h.held.token});
    QueueStill(rows0);
    var run := h.held.Run();
    registered := false;
    var owned := h.AssertOwnedLater(held0, rows0);
    if !owned { return Some(LeaseLost), registered; }
    var preparation: Option<Failure> :| preparation != Some(LeaseLost);
    if preparation.Some? { return preparation, registered; }
    owned := h.AssertOwnedLater(held0, rows0);
    if !owned { return Some(LeaseLost), registered; }
    if run in b.exec { return Some(Definite), registered; }
    b.exec := b.exec + {run};
    registered := true;
    owned := h.AssertOwnedLater(held0, rows0);
    if !owned { return Some(LeaseLost), registered; }
    var launch: Option<Failure> :| launch != Some(LeaseLost);
    if launch.Some? { return launch, registered; }
    owned := h.AssertOwnedLater(held0, rows0);
    if !owned { return Some(LeaseLost), registered; }
    MarkedStill(h.held, rows0, b.queue);
    ghost var rows := b.queue;
    var lost := CommitRow(b, h.held, Dispatched);
    QueueStillMoved(rows0, rows, b.queue);
    failure := if lost then Some(LeaseLost) else None;
  }

  /** `_transition_after_launch`: the row takes this status now, has it already, or is lost to somebody else.
      Since the row was marked at the expected revision, the move is never an illegal one. */
  method CommitRow(b: Board, held: Reserved, status: Status) returns (lost: bool)
    requires status in {Dispatched, Failed} && Marked(held, b.queue)
    modifies b`queue
    ensures QueueMoved(old(b.queue), b.queue)
    ensures lost <==> old(b.queue)[held.Run()].revision != held.item.revision + 1 && old(b.queue)[held.Run()].status != status
    ensures !lost ==> held.Run() in b.queue && b.queue[held.Run()].status == status
    ensures b.queue == if old(b.queue)[held.Run()].revision == held.item.revision + 1
                       then old(b.queue)[held.Run() := QueueRow(status, held.item.revision + 2)] else old(b.queue)
  {
    var move := b.Transition(held.Run(), held.item.revision + 1, status);
    lost := move.Conflict? && b.queue[held.Run()].status != status;
  }

  /** `_launch_dispatching_job`. No action stands for an exception that propagates; `unsettled` says that the
      lease is kept, `seen` that an unknown launch was found running on its machine. */
  method Launch(b: Board, held: Reserved, ttl: Positive) returns (action: Option<Action>, unsettled: bool, seen: bool)
    requires b.Valid() && held.token in b.issued && SoleHolder(held, b.leases) && Marked(held, b.queue)
    modifies b
    ensures b.Valid() && b.issued == old(b.issued) && old(b.exec) <= b.exec
    ensures LeasesMoved(old(b.leases), b.leases, b.issued - {held.token}) && SoleHolder(held, b.leases)
    ensures QueueMoved(old(b.queue), b.queue)
    ensures !unsettled ==> forall m :: m in b.leases ==> b.leases[m].token != held.token
    ensures unsettled <==> action == Some(Unknown) && !seen
    ensures action == Some(Unknown) ==> held.Run() in b.exec
    ensures action == Some(Started) ==> held.Run() in b.exec && held.Run() in b.queue && b.queue[held.Run()].status == Dispatched
    ensures action == Some(NotLaunched) ==> held.Run() in b.queue && b.queue[held.Run()].status == Failed
  {
    hide LeasesMoved, QueueMoved, SoleHolder, Marked;
    var h := new Heartbeat(b, held, ttl);
    var failure, registered := Attempt(b, h);
    seen := false;
    if failure.None? {
      action := Some(Started);
    } else {
      MarkedStill(held, old(b.queue), b.queue);
      action, seen := Settle(b, h, registered, registered && failure.value != Definite, old(b.leases), old(b.queue));
    }
    unsettled := action == Some(Unknown) && !seen;
    ghost var leases, rows := b.leases, b.queue;
    GiveBack(b, held, !unsettled);
    LeasesStillMoved(old(b.leases), leases, b.leases, b.issued - {held.token}, b.issued - {held.token});
    QueueStillMoved(old(b.queue), rows, b.queue);
    SettledStill(held.Run(), rows, b.queue);
  }

  lemma SettledStill(run: RunId, before: map<RunId, QueueRow>, after: map<RunId, QueueRow>)
    requires QueueMoved(before, after)
    ensures run in before && Settled(before[run].status) ==> run in after && after[run].status == before[run].status
  {
  }

  /** After a failed attempt: an unknown outcome is looked up on the machine and counts as dispatched, a
      definite one as failed. Ending the execution record of a registered run may itself raise; then the row stays
      as it is, and the exception goes to the caller. */
  method Settle(b: Board, h: Heartbeat, registered: bool, unknown: bool, ghost held0: map<MachineId, Lease>, ghost rows0: map<RunId, QueueRow>)
    returns (action: Option<Action>, seen: bool)
    requires b.Valid() && h.board == b && h.held.token in b.issued && SoleHolder(h.held, b.leases) && Marked(h.held, b.queue)
    requires LeasesMoved(held0, b.leases, b.issued - {h.held.token}) && QueueMoved(rows0, b.queue)
    requires unknown ==> registered && h.held.Run() in b.exec
    modifies b, h`lost
    ensures b.Valid() && b.issued == old(b.issued) && old(b.exec) <= b.exec && SoleHolder(h.held, b.leases)
    ensures LeasesMoved(held0, b.leases, b.issued - {h.held.token}) && QueueMoved(rows0, b.queue)
    ensures unknown ==> action == Some(Unknown)
    ensures !unknown ==> !seen && (action == None || (action == Some(NotLaunched) && h.held.Run() in b.queue
                                                      && b.queue[h.held.Run()].status == Failed))
  {
    hide QueueMoved, Marked;
    seen := false;
    if unknown {
      var owned := h.AssertOwned();
    }
    ghost var leases, rows := b.leases, b.queue;
    b.Others();
    MarkedStill(h.held, rows, b.queue);
    QueueStillMoved(rows0, rows, b.queue);
    rows := b.queue;
    if unknown {
      seen := *;
      var lost := CommitRow(b, h.held, Dispatched);
      action := Some(Unknown);
    } else {
      var raised: bool := *;
      if registered && raised {
        action := None;
        QueueStill(b.queue);
      } else {
        var lost := CommitRow(b, h.held, Failed);
        action := if lost then None else Some(NotLaunched);
      }
    }
    QueueStillMoved(rows0, rows, b.queue);
  }

  /** The end of every launch: some time later the lease is given back, unless it is kept. */
  method GiveBack(b: Board, held: Reserved, release: bool)
    requires b.Valid() && held.token in b.issued && SoleHolder(held, b.leases)
    modifies b
    ensures b.Valid() && b.issued == old(b.issued) && old(b.exec) <= b.exec
    ensures LeasesMoved(old(b.leases), b.leases, b.issued - {held.token}) && SoleHolder(held, b.leases)
    ensures QueueMoved(old(b.queue), b.queue)
    ensures release ==> forall m :: m in b.leases ==> b.leases[m].token != held.token
  {
    b.Others();
    if release { b.Release(held.Machine(), held.Run(), held.token); }
  }

  // ---------- the whole batch ----------

  datatype Ended = Normally | WhileMarking | WhileLaunching

  /** Reservations of distinct machines plans: nobody takes a machine planned for another job. */
  function PlannedMachines(planned: seq<Planned>): set<MachineId> {
    set p | p in planned :: p.selected.server.machineId
  }

  ghost predicate TokensDiffer(rs: seq<Reserved>) {
    forall i, j :: 0 <= i < j < |rs| ==> rs[i].token != rs[j].token
  }

  /** The reservation's own lease is still the machine's lease. */
  predicate Current(r: Reserved, leases: map<MachineId, Lease>) {
    r.Machine() in leases && leases[r.Machine()].token == r.token
  }

  lemma SoleAmong(rs: seq<Reserved>, i: nat, ks: set<nat>, leases: map<MachineId, Lease>)
    requires i < |rs| && TokensDiffer(rs) && HeldBy(rs, ks, leases) && rs[i].token in ks
    ensures SoleHolder(rs[i], leases)
  {
    forall m | m in leases && leases[m].token == rs[i].token ensures Matches(rs[i], m, leases[m]) {
      var j :| 0 <= j < |rs| && Matches(rs[j], m, leases[m]);
      assert i == j;
    }
  }

  /** Later reservations leave earlier ones alone, or lose them. */
  lemma HeldTogether(rs: seq<Reserved>, more: seq<Reserved>, none: set<nat>, some: set<nat>, all: set<nat>,
                     before: map<MachineId, Lease>, after: map<MachineId, Lease>)
    requires HeldBy(rs, some - none, before) && HeldBy(more, all - some, after) && LeasesMoved(before, after, some)
    ensures HeldBy(rs + more, all - none, after)
  {
    forall m | m in after && after[m].token in all - none
      ensures exists i :: 0 <= i < |rs + more| && Matches((rs + more)[i], m, after[m])
    {
      if after[m].token in some {
        var i :| 0 <= i < |rs| && Matches(rs[i], m, before[m]);
        assert (rs + more)[i] == rs[i];
      } else {
        var i :| 0 <= i < |more| && Matches(more[i], m, after[m]);
        assert (rs + more)[|rs| + i] == more[i];
      }
    }
  }

  method ReserveAll(b: Board, planned: seq<Planned>, ttl: Positive) returns (rs: seq<Reserved>)
    requires b.Valid()
    modifies b
    ensures b.Valid() && old(b.issued) <= b.issued && LeasesMoved(old(b.leases), b.leases, old(b.issued))
    ensures HeldBy(rs, b.issued - old(b.issued), b.leases) && TokensDiffer(rs)
    ensures forall r :: r in rs ==> r.token in b.issued - old(b.issued) && r.item in planned && HasWorkloadCapacity(r.item.job, r.chosen)
    ensures forall r :: r in rs ==> r.Machine() !in PlannedMachines(planned) - {r.item.selected.server.machineId}
    ensures forall i, j :: 0 <= i < j < |rs| && Current(rs[i], b.leases) && Current(rs[j], b.leases) ==> rs[i].Machine() != rs[j].Machine()
  {
    var all := PlannedMachines(planned);
    rs := [];
    for i := 0 to |planned|
      invariant b.Valid() && old(b.issued) <= b.issued && LeasesMoved(old(b.leases), b.leases, old(b.issued))
      invariant HeldBy(rs, b.issued - old(b.issued), b.leases) && TokensDiffer(rs)
      invariant forall r :: r in rs ==> r.token in b.issued - old(b.issued) && r.item in planned && HasWorkloadCapacity(r.item.job, r.chosen)
      invariant forall r :: r in rs ==> r.Machine() !in all - {r.item.selected.server.machineId}
    {
      ghost var tokens, held := b.issued, b.leases;
      var r := b.Reserve(planned[i], all - {planned[i].selected.server.machineId}, ttl);
      HeldTogether(rs, if r.Some? then [r.value] else [], old(b.issued), tokens, b.issued, held, b.leases);
      if r.Some? { rs := rs + [r.value]; }
    }
  }

  /** Dropping a reservation whose lease file is gone. */
  lemma HeldWithout(front: seq<Reserved>, r: Reserved, rest: seq<Reserved>, ks: set<nat>,
                    before: map<MachineId, Lease>, after: map<MachineId, Lease>)
    requires HeldBy(front + [r] + rest, ks, before)
    requires forall m :: m in after && after[m].token in ks ==> m in before && before[m] == after[m]
    requires forall m :: m in after ==> !Matches(r, m, after[m])
    ensures HeldBy(front + rest, ks, after)
  {
    forall m | m in after && after[m].token in ks ensures exists i :: 0 <= i < |front + rest| && Matches((front + rest)[i], m, after[m]) {
      var i :| 0 <= i < |front + [r] + rest| && Matches((front + [r] + rest)[i], m, before[m]);
      if i < |front| { assert (front + rest)[i] == (front + [r] + rest)[i]; }
      else if i > |front| { assert (front + rest)[i - 1] == (front + [r] + rest)[i]; }
    }
  }

  lemma DifferWithout(front: seq<Reserved>, r: Reserved, rest: seq<Reserved>)
    requires TokensDiffer(front + [r] + rest)
    ensures TokensDiffer(front + rest)
  {
    var all := front + [r] + rest;
    forall i, j | 0 <= i < j < |front + rest| ensures (front + rest)[i].token != (front + rest)[j].token {
      assert (front + rest)[i] == all[if i < |front| then i else i + 1];
      assert (front + rest)[j] == all[if j < |front| then j else j + 1];
    }
  }

  /** Others at work between two marks. */
  lemma HeldUndisturbed(rs: seq<Reserved>, ks: set<nat>, before: map<MachineId, Lease>, after: map<MachineId, Lease>,
                        issued: set<nat>)
    requires HeldBy(rs, ks, before) && ks <= issued && LeasesMoved(before, after, issued)
    ensures HeldBy(rs, ks, after)
  {
  }

  /** The second half of the batch: rows are marked dispatching; a job that lost its row gives its lease back,
      and an unforeseen error gives back every lease whose row is not marked yet. */
  method MarkAll(b: Board, rs: seq<Reserved>, ghost ks: set<nat>) returns (marked: seq<Reserved>, broken: bool)
    requires b.Valid() && TokensDiffer(rs) && ks <= b.issued && HeldBy(rs, ks, b.leases)
    modifies b
    ensures b.Valid() && b.issued == old(b.issued) && old(b.exec) <= b.exec
    ensures LeasesMoved(old(b.leases), b.leases, b.issued) && QueueMoved(old(b.queue), b.queue)
    ensures TokensDiffer(marked) && HeldBy(marked, ks, b.leases)
    ensures forall r :: r in marked ==> r in rs && Marked(r, b.queue)
  {
    hide HeldBy, TokensDiffer, LeasesMoved, QueueMoved, Marked;
    LeasesStill(b.leases, b.issued);
    QueueStill(b.queue);
    marked, broken := [], false;
    var i := 0;
    assert marked + rs[i..] == rs;
    while i < |rs|
      invariant 0 <= i <= |rs| && b.Valid() && b.issued == old(b.issued) && old(b.exec) <= b.exec
      invariant LeasesMoved(old(b.leases), b.leases, b.issued) && QueueMoved(old(b.queue), b.queue)
      invariant TokensDiffer(marked + rs[i..]) && HeldBy(marked + rs[i..], ks, b.leases)
      invariant forall r :: r in marked ==> r in rs && Marked(r, b.queue)
    {
      var r := rs[i];
      assert marked + rs[i..] == marked + [r] + rs[i + 1..];
      ghost var rows, held := b.queue, b.leases;
      var kept;
      kept, broken := MarkOne(b, r, broken, marked, rs[i + 1..], ks);
      LeasesStillMoved(old(b.leases), held, b.leases, b.issued, b.issued);
      QueueStillMoved(old(b.queue), rows, b.queue);
      forall q | q in marked ensures Marked(q, b.queue) { MarkedStill(q, rows, b.queue); }
      ghost var before := marked;
      if kept { marked := marked + [r]; }
      assert before + (if kept then [r] else []) + rs[i + 1..] == marked + rs[i + 1..];
      i := i + 1;
    }
    assert marked + rs[|rs|..] == marked;
  }

  /** One row, after anything others may have done: marked, or its lease given back. */
  method MarkOne(b: Board, r: Reserved, broken: bool, ghost front: seq<Reserved>, ghost rest: seq<Reserved>, ghost ks: set<nat>)
    returns (kept: bool, nowBroken: bool)
    requires b.Valid() && TokensDiffer(front + [r] + rest) && ks <= b.issued && HeldBy(front + [r] + rest, ks, b.leases)
    modifies b
    ensures b.Valid() && b.issued == old(b.issued) && old(b.exec) <= b.exec
    ensures LeasesMoved(old(b.leases), b.leases, b.issued) && QueueMoved(old(b.queue), b.queue)
    ensures var left := front + (if kept then [r] else []) + rest; TokensDiffer(left) && HeldBy(left, ks, b.leases)
    ensures kept ==> !broken && Marked(r, b.queue)
    ensures broken ==> nowBroken
  {
    hide HeldBy, TokensDiffer;
    b.Others();
    HeldUndisturbed(front + [r] + rest, ks, old(b.leases), b.leases, b.issued);
    nowBroken, kept := broken, false;
    if !broken {
      var move := b.Transition(r.Run(), r.item.revision, InDispatch);
      kept, nowBroken := move.Moved?, move.Illegal? || move.Missing?;
    }
    if !kept {
      ghost var before := b.leases;
      b.Release(r.Machine(), r.Run(), r.token);
      assert front + [] + rest == front + rest;
      DifferWithout(front, r, rest);
      HeldWithout(front, r, rest, ks, before, b.leases);
    }
  }

  /** A launched job: its reservation, what came of it, and whether an unknown launch was seen running. */
  datatype Outcome = Outcome(held: Reserved, action: Option<Action>, seen: bool)

  /** Every marked job is launched; the leases of launches that settled are given back. */
  method LaunchAll(b: Board, marked: seq<Reserved>, ghost ks: set<nat>, ttl: Positive)
    returns (outcomes: seq<Outcome>, kept: seq<Reserved>)
    requires b.Valid() && TokensDiffer(marked) && ks <= b.issued && HeldBy(marked, ks, b.leases)
    requires forall r :: r in marked ==> r.token in ks && Marked(r, b.queue)
    modifies b
    ensures b.Valid() && b.issued == old(b.issued) && LeasesMoved(old(b.leases), b.leases, b.issued - ks)
    ensures HeldBy(kept, ks, b.leases)
    ensures |outcomes| == |marked| && forall i :: 0 <= i < |outcomes| ==> outcomes[i].held == marked[i]
    ensures forall r :: r in kept ==> r.Run() in b.exec && Outcome(r, Some(Unknown), false) in outcomes
  {
    hide HeldBy, TokensDiffer, LeasesMoved, SoleHolder, QueueMoved, Marked;
    LeasesStill(b.leases, b.issued - ks);
    outcomes, kept := [], [];
    assert kept + marked[0..] == marked;
    for i := 0 to |marked|
      invariant b.Valid() && b.issued == old(b.issued) && LeasesMoved(old(b.leases), b.leases, b.issued - ks)
      invariant HeldBy(kept + marked[i..], ks, b.leases) && TokensDiffer(kept + marked[i..])
      invariant forall r :: r in marked ==> Marked(r, b.queue)
      invariant |outcomes| == i && forall j :: 0 <= j < i ==> outcomes[j].held == marked[j]
      invariant forall r :: r in kept ==> r.Run() in b.exec && Outcome(r, Some(Unknown), false) in outcomes
    {
      var r := marked[i];
      ghost var rest, before, rows := marked[i + 1..], b.leases, b.queue;
      assert kept + marked[i..] == kept + [r] + rest;
      assert (kept + [r] + rest)[|kept|] == r;
      SoleAmong(kept + [r] + rest, |kept|, ks, b.leases);
      var action, unsettled, seen := Launch(b, r, ttl);
      LeasesStillMoved(old(b.leases), before, b.leases, b.issued - ks, b.issued - {r.token});
      forall q | q in marked ensures Marked(q, b.queue) { MarkedStill(q, rows, b.queue); }
      outcomes := outcomes + [Outcome(r, action, seen)];
      HeldAfterLaunch(kept, r, rest, ks, b.issued, before, b.leases, unsettled);
      if unsettled {
        kept := kept + [r];
        assert kept + rest == kept[..|kept| - 1] + [r] + rest;
      } else {
        DifferWithout(kept, r, rest);
      }
    }
    assert kept + marked[|marked|..] == kept;
  }

  lemma HeldAfterLaunch(kept: seq<Reserved>, r: Reserved, rest: seq<Reserved>, ks: set<nat>, issued: set<nat>,
                        before: map<MachineId, Lease>, after: map<MachineId, Lease>, unsettled: bool)
    requires HeldBy(kept + [r] + rest, ks, before) && ks <= issued && r.token in ks
    requires LeasesMoved(before, after, issued - {r.token}) && SoleHolder(r, after)
    requires !unsettled ==> forall m :: m in after ==> after[m].token != r.token
    ensures HeldBy(if unsettled then kept + [r] + rest else kept + rest, ks, after)
  {
    var all := kept + [r] + rest;
    forall m | m in after && after[m].token in ks ensures exists i :: 0 <= i < |all| && Matches(all[i], m, after[m]) {
      if after[m].token == r.token {
        assert all[|kept|] == r;
      } else {
        var i :| 0 <= i < |all| && Matches(all[i], m, before[m]);
      }
    }
    assert HeldBy(all, ks, after);
    if !unsettled { HeldWithout(kept, r, rest, ks, after, after); }
  }

  /** `dispatch_batch` once a plan exists. When marking breaks off, a lease file under a token handed out during
      the call is left only for rows that were marked dispatching. Otherwise one is left only for a registered
      run whose launch has an unknown outcome and was not seen on its machine, also when a launch
      broke off. */
  method DispatchBatch(b: Board, planned: seq<Planned>, ttl: Positive)
    returns (outcomes: seq<Outcome>, kept: seq<Reserved>, ended: Ended)
    requires b.Valid()
    modifies b
    ensures b.Valid() && old(b.issued) <= b.issued
    ensures HeldBy(kept, b.issued - old(b.issued), b.leases)
    ensures LeasesMoved(old(b.leases), b.leases, old(b.issued))
    ensures ended == WhileMarking ==> outcomes == [] && forall r :: r in kept ==> r.item in planned && Marked(r, b.queue)
    ensures ended != WhileMarking ==> forall r :: r in kept ==> r.Run() in b.exec && Outcome(r, Some(Unknown), false) in outcomes
    ensures ended == Normally ==> forall o :: o in outcomes ==> o.action.Some?
    ensures ended == WhileLaunching ==> exists o :: o in outcomes && o.action.None?
  {
    hide HeldBy, TokensDiffer, LeasesMoved, Marked, HasWorkloadCapacity;
    var rs := ReserveAll(b, planned, ttl);
    ghost var ks, reserved := b.issued - old(b.issued), b.leases;
    var marked, broken := MarkAll(b, rs, ks);
    LeasesStillMoved(old(b.leases), reserved, b.leases, old(b.issued), b.issued);
    if broken { return [], marked, WhileMarking; }
    ghost var held := b.leases;
    outcomes, kept := LaunchAll(b, marked, ks, ttl);
    LeasesStillMoved(old(b.leases), held, b.leases, old(b.issued), b.issued - ks);
    ended := if forall o :: o in outcomes ==> o.action.Some? then Normally else WhileLaunching;
  }

  // ---------- recovery ----------

  function Dispatching(queue: map<RunId, QueueRow>): set<RunId> {
    set r | r in queue && queue[r].status == InDispatch
  }

  function LeasesOf(leases: map<MachineId, Lease>, run: RunId): set<MachineId> {
    set m | m in leases && leases[m].run == run
  }

  /** What recovery may make of a row: settled by its execution record, or queued again with no lease
      of the run left and every removed lease expired. */
  predicate Recovered(before: QueueRow, after: QueueRow, registered: bool, leased: bool) {
    || after == before
    || (before.status == InDispatch && after.revision == before.revision + 1
        && ((registered && after.status == Dispatched) || (!registered && !leased && after.status == Queued)))
  }

  ghost predicate RecoveryDone(before: map<RunId, QueueRow>, after: map<RunId, QueueRow>, exec: set<RunId>,
                               held: map<MachineId, Lease>, leases: map<MachineId, Lease>, now: nat) {
    && after.Keys == before.Keys
    && (forall r :: r in before ==> Recovered(before[r], after[r], r in exec, LeasesOf(leases, r) != {}))
    && (forall m :: m in leases ==> m in held && leases[m] == held[m])
    && (forall m :: m in held && m !in leases ==>
          held[m].expires <= now && held[m].run in before && held[m].run !in exec && after[held[m].run] != before[held[m].run])
  }

  lemma RowSettled(start: map<RunId, QueueRow>, q: map<RunId, QueueRow>, q': map<RunId, QueueRow>, exec: set<RunId>,
                   held: map<MachineId, Lease>, leases: map<MachineId, Lease>, now: nat, run: RunId)
    requires RecoveryDone(start, q, exec, held, leases, now) && run in Dispatching(q) && run in exec
    requires q' == q[run := QueueRow(Dispatched, q[run].revision + 1)]
    ensures RecoveryDone(start, q', exec, held, leases, now)
  {
  }

  lemma RowRequeued(start: map<RunId, QueueRow>, q: map<RunId, QueueRow>, q': map<RunId, QueueRow>, exec: set<RunId>,
                    held: map<MachineId, Lease>, leases: map<MachineId, Lease>, leases': map<MachineId, Lease>, now: nat, run: RunId)
    requires RecoveryDone(start, q, exec, held, leases, now) && run in Dispatching(q) && run !in exec
    requires q' == q[run := QueueRow(Queued, q[run].revision + 1)]
    requires LeasesOf(leases', run) == {} && (forall m :: m in leases' ==> m in leases && leases[m] == leases'[m])
    requires forall m :: m in leases && m !in leases' ==> leases[m].run == run && leases[m].expires <= now
    ensures RecoveryDone(start, q', exec, held, leases', now)
  {
    assert forall r :: LeasesOf(leases', r) <= LeasesOf(leases, r);
    assert q[run] == start[run];
  }

  lemma OneLess(q: map<RunId, QueueRow>, q': map<RunId, QueueRow>, run: RunId)
    requires run in Dispatching(q) && q'.Keys == q.Keys && q'[run].status != InDispatch
    requires forall r :: r in q && r != run ==> q'[r] == q[r]
    ensures |Dispatching(q')| < |Dispatching(q)|
  {
    assert Dispatching(q') == Dispatching(q) - {run};
  }

  /** The one expired lease of the run is fenced and released; anything else is an obstacle. */
  method ClearLease(b: Board, run: RunId, ttl: Positive) returns (obstacle: Recovery)
    requires b.Valid()
    modifies b`leases, b`nextToken, b`issued
    ensures b.Valid()
    ensures obstacle.Nothing? ==> LeasesOf(b.leases, run) == {}
    ensures forall m :: m in b.leases ==> m in old(b.leases) && b.leases[m] == old(b.leases)[m]
    ensures forall m :: m in old(b.leases) && m !in b.leases ==> old(b.leases)[m].run == run && old(b.leases)[m].expires <= b.now
    ensures !obstacle.Nothing? ==> b.leases == old(b.leases)
    ensures !obstacle.Nothing? ==> obstacle.run == run
    ensures obstacle.Busy? ==> exists m :: m in b.leases && b.leases[m].run == run && (b.leases[m].expires > b.now || m in b.drained)
    ensures obstacle.SeveralLeases? ==> |LeasesOf(b.leases, run)| > 1
  {
    var matching := LeasesOf(b.leases, run);
    if exists m :: m in matching && b.leases[m].expires > b.now { return Busy(run); }
    if |matching| > 1 { return SeveralLeases(run); }
    if matching != {} {
      var m :| m in matching;
      OnlyMember(matching, m);
      var fenced := b.Acquire(m, run, ttl);
      if fenced.None? { return Busy(run); }
      b.Release(m, run, fenced.value);
    }
    return Nothing;
  }

  /** `_reconcile_dispatching_jobs`, undisturbed by other dispatchers: it ends, and when it returns
      nothing no row is dispatching any more. */
  method ReconcileDispatching(b: Board, ttl: Positive) returns (r: Recovery)
    requires b.Valid()
    modifies b
    ensures b.Valid() && b.exec == old(b.exec) && b.now == old(b.now) && b.drained == old(b.drained)
    ensures RecoveryDone(old(b.queue), b.queue, b.exec, old(b.leases), b.leases, b.now)
    ensures r.Nothing? ==> Dispatching(b.queue) == {}
    ensures r.Busy? ==> r.run in Dispatching(b.queue) && r.run !in b.exec
    ensures r.Busy? ==> exists m :: m in b.leases && b.leases[m].run == r.run && (b.leases[m].expires > b.now || m in b.drained)
    ensures r.SeveralLeases? ==> r.run in Dispatching(b.queue) && |LeasesOf(b.leases, r.run)| > 1
  {
    hide RecoveryDone, Dispatching, LeasesOf, Settled;
    NothingRecoveredYet(b.queue, b.exec, b.leases, b.now);
    while true
      invariant b.Valid() && b.exec == old(b.exec) && b.now == old(b.now) && b.drained == old(b.drained)
      invariant RecoveryDone(old(b.queue), b.queue, b.exec, old(b.leases), b.leases, b.now)
      decreases |Dispatching(b.queue)|
    {
      if Dispatching(b.queue) == {} { return Nothing; }
      var run :| run in Dispatching(b.queue);
      ghost var before, held := b.queue, b.leases;
      r := RecoverRow(b, run, ttl);
      if !r.Nothing? { return; }
      RowRecovered(old(b.queue), before, b.queue, b.exec, old(b.leases), held, b.leases, b.now, run);
    }
  }

  lemma NothingRecoveredYet(q: map<RunId, QueueRow>, exec: set<RunId>, leases: map<MachineId, Lease>, now: nat)
    ensures RecoveryDone(q, q, exec, leases, leases, now)
  {
  }

  /** What recovering one row does to the queue and the leases. */
  ghost predicate RowDone(q: map<RunId, QueueRow>, q': map<RunId, QueueRow>, exec: set<RunId>,
                          leases: map<MachineId, Lease>, leases': map<MachineId, Lease>, now: nat, run: RunId)
  {
    && run in q && q' == q[run := QueueRow(if run in exec then Dispatched else Queued, q[run].revision + 1)]
    && (if run in exec then leases' == leases
        else LeasesOf(leases', run) == {} && (forall m :: m in leases' ==> m in leases && leases[m] == leases'[m])
             && forall m :: m in leases && m !in leases' ==> leases[m].run == run && leases[m].expires <= now)
  }

  lemma RowRecovered(start: map<RunId, QueueRow>, q: map<RunId, QueueRow>, q': map<RunId, QueueRow>, exec: set<RunId>,
                     held: map<MachineId, Lease>, leases: map<MachineId, Lease>, leases': map<MachineId, Lease>, now: nat, run: RunId)
    requires RecoveryDone(start, q, exec, held, leases, now) && run in Dispatching(q)
             && RowDone(q, q', exec, leases, leases', now, run)
    ensures RecoveryDone(start, q', exec, held, leases', now) && |Dispatching(q')| < |Dispatching(q)|
  {
    OneLess(q, q', run);
    if run in exec { RowSettled(start, q, q', exec, held, leases, now, run); }
    else { RowRequeued(start, q, q', exec, held, leases, leases', now, run); }
  }

  /** One dispatching row: settled by its execution record, or queued again behind a fenced lease. */
  method RecoverRow(b: Board, run: RunId, ttl: Positive) returns (obstacle: Recovery)
    requires b.Valid() && run in Dispatching(b.queue)
    modifies b
    ensures b.Valid() && b.exec == old(b.exec) && b.now == old(b.now) && b.drained == old(b.drained)
    ensures obstacle.Nothing? ==> RowDone(old(b.queue), b.queue, b.exec, old(b.leases), b.leases, b.now, run)
    ensures !obstacle.Nothing? ==> b.queue == old(b.queue) && b.leases == old(b.leases) && obstacle.run == run && run !in b.exec
    ensures obstacle.Busy? ==> exists m :: m in b.leases && b.leases[m].run == run && (b.leases[m].expires > b.now || m in b.drained)
    ensures obstacle.SeveralLeases? ==> |LeasesOf(b.leases, run)| > 1
  {
    obstacle := Nothing;
    if run !in b.exec {
      obstacle := ClearLease(b, run, ttl);
      if !obstacle.Nothing? { return; }
    }
    if run in b.exec {
      var move := b.Transition(run, b.queue[run].revision, Dispatched);
    } else {
      var move := b.Recover(run, b.queue[run].revision);
    }
  }

  lemma OnlyMember(s: set<MachineId>, m: MachineId)
    requires m in s && |s| <= 1
    ensures s == {m}
  {
    var rest := s - {m};
    assert |rest| == |s| - 1 && s == rest + {m};
  }

  // ---------- leases of settled launches ----------

  /** A lease no launch needs any more: its run's launch is settled, or its run is gone and it has expired. */
  predicate Needless(lease: Lease, exec: set<RunId>, gone: set<RunId>, now: nat, settled: RunId -> bool) {
    if lease.run in exec then settled(lease.run) else lease.expires <= now && lease.run in gone
  }

  function StillNeeded(leases: map<MachineId, Lease>, looked: set<MachineId>, exec: set<RunId>, gone: set<RunId>,
                       now: nat, settled: RunId -> bool): map<MachineId, Lease> {
    map m | m in leases && !(m in looked && Needless(leases[m], exec, gone, now, settled)) :: leases[m]
  }

  /** `_reconcile_owned_dispatch_leases`, undisturbed: exactly the needless leases are released. `settled` answers whether
      a run's record has left the registered status or the run was seen on its machine. */
  method ReconcileOwnedLeases(b: Board, settled: RunId -> bool)
    requires b.Valid()
    modifies b`leases
    ensures b.Valid() && b.leases == StillNeeded(old(b.leases), old(b.leases).Keys, b.exec, b.gone, b.now, settled)
  {
    var listed := b.leases;
    var todo := listed.Keys;
    assert b.leases == StillNeeded(listed, {}, b.exec, b.gone, b.now, settled) && listed.Keys - todo == {};
    while todo != {}
      invariant todo <= listed.Keys && b.Valid() && listed == old(b.leases)
      invariant b.leases == StillNeeded(listed, listed.Keys - todo, b.exec, b.gone, b.now, settled)
      decreases |todo|
    {
      var m :| m in todo;
      OneLooked(listed, listed.Keys - todo, m, b.exec, b.gone, b.now, settled);
      assert listed.Keys - (todo - {m}) == (listed.Keys - todo) + {m};
      todo := todo - {m};
      hide StillNeeded;
      if Needless(listed[m], b.exec, b.gone, b.now, settled) { b.Release(m, listed[m].run, listed[m].token); }
    }
    assert listed.Keys - todo == listed.Keys;
  }

  lemma OneLooked(leases: map<MachineId, Lease>, looked: set<MachineId>, m: MachineId, exec: set<RunId>, gone: set<RunId>,
                  now: nat, settled: RunId -> bool)
    requires m in leases && m !in looked
    ensures var before := StillNeeded(leases, looked, exec, gone, now, settled);
            var after := StillNeeded(leases, looked + {m}, exec, gone, now, settled);
            && m in before && before[m] == leases[m]
            && after == (if Needless(leases[m], exec, gone, now, settled) then before - {m} else before)
  {
  }
}
