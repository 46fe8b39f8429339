/** What the durable records guarantee over every sequence of operations with crashes anywhere:
    forward-only states, a replayable event log, and archival that is never lost. */
module RecordTheorems {
  import opened Common
  import opened ExecutionRecords

  /** Operations of launch, stop, monitor, recovery, the archive worker and log compaction, each with its crash point. */
  datatype Op =
    | RegisterOp(run: RunId, m: Manifest, now: string, crash: Crash)
    | UpdateOp(run: RunId, expected: nat, ch: Changes, now: string, crash: Crash)
    | ProcessOp(run: RunId, answer: Result<string>, crash: Crash)
    | CompactOp(runs: set<RunId>)

  function Apply(configured: bool, s: Store, op: Op): Store {
    match op
    case RegisterOp(run, m, now, crash) => Register(s, run, m, now, crash).0
    case UpdateOp(run, expected, ch, now, crash) => Update(configured, s, run, expected, ch, now, crash).0
    case ProcessOp(run, answer, crash) => if run in s.pending then Process(s, run, s.pending[run], answer, crash).0 else s
    case CompactOp(runs) => Compact(s, runs).0
  }

  function ApplyAll(configured: bool, s: Store, ops: seq<Op>): Store
    decreases |ops|
  {
    if ops == [] then s else ApplyAll(configured, Apply(configured, s, ops[0]), ops[1..])
  }

  const EMPTY := Store(map[], map[], map[], map[], map[], [], [])

  // ---------- the state machine ----------

  /** The update of `r` gets as far as replacing the state file. */
  predicate Advances(configured: bool, s: Store, op: Op, r: RunId) {
    op.UpdateOp? && op.run == r
    && var outcome := Update(configured, s, r, op.expected, op.ch, op.now, op.crash).1;
       outcome == Done || (outcome == Crashed && op.crash == AfterSecondWrite)
  }

  function Advanced(configured: bool, s: Store, ops: seq<Op>, r: RunId): nat
    decreases |ops|
  {
    if ops == [] then 0
    else (if Advances(configured, s, ops[0], r) then 1 else 0) + Advanced(configured, Apply(configured, s, ops[0]), ops[1..], r)
  }

  /** What an update does to states and log: nothing, or one step of one run. */
  predicate UpdateShows(s: Store, t: Store, op: Op, reached: bool)
    requires op.UpdateOp?
  {
    && t.manifests == s.manifests
    && if reached then
         && Known(s, op.run)
         && var st, next := s.states[op.run], Applied(s.states[op.run], op.ch, op.now);
            && CanTransition(st.status, next.status) && t.states == s.states[op.run := next]
            && t.log == if op.crash == NoCrash then s.log + [UpdateEvent(op.run, st.revision, next.revision, next.status)] else s.log
       else t.states == s.states && t.log == s.log
  }

  lemma UpdateEffect(configured: bool, s: Store, op: Op)
    requires op.UpdateOp?
    ensures UpdateShows(s, Apply(configured, s, op), op, Advances(configured, s, op, op.run))
  {
  }

  lemma ProcessEffect(configured: bool, s: Store, op: Op)
    requires op.ProcessOp?
    ensures var t := Apply(configured, s, op); t.manifests == s.manifests && t.states == s.states && t.log == s.log
  {
    hide Mismatch;
  }

  lemma ForwardStep(configured: bool, s: Store, op: Op, r: RunId)
    requires Known(s, r)
    ensures var t := Apply(configured, s, op);
            && Known(t, r) && t.manifests[r] == s.manifests[r] && CanTransition(s.states[r].status, t.states[r].status)
            && t.states[r].revision == s.states[r].revision + (if Advances(configured, s, op, r) then 1 else 0)
  {
    if op.UpdateOp? {
      UpdateEffect(configured, s, op);
      hide Apply;
    } else if op.ProcessOp? {
      ProcessEffect(configured, s, op);
      hide Apply;
    }
  }

  /** Status only moves forward, terminal status is absorbing, and the revision counts the updates. */
  lemma {:induction false} StatesOnlyMoveForward(configured: bool, s: Store, ops: seq<Op>, r: RunId)
    requires Known(s, r)
    ensures var t := ApplyAll(configured, s, ops);
            && Known(t, r) && t.manifests[r] == s.manifests[r] && CanTransition(s.states[r].status, t.states[r].status)
            && (Terminal(s.states[r].status) ==> t.states[r].status == s.states[r].status)
            && t.states[r].revision == s.states[r].revision + Advanced(configured, s, ops, r)
    decreases |ops|
  {
    if ops != [] {
      ForwardStep(configured, s, ops[0], r);
      StatesOnlyMoveForward(configured, Apply(configured, s, ops[0]), ops[1..], r);
    }
  }

  /** What one update writes when it goes through: exactly the changed fields, the next revision and the time;
      and exactly one event that says so. */
  predicate WrittenExactly(s: Store, t: Store, op: Op)
    requires op.UpdateOp?
  {
    && Known(s, op.run) && Known(t, op.run)
    && var before, after, ch := s.states[op.run], t.states[op.run], op.ch;
       && after.revision == before.revision + 1 && after.updatedAt == op.now
       && (ch.status.Some? ==> after.status == ch.status.value) && (ch.status.None? ==> after.status == before.status)
       && (ch.startedAt.Some? ==> after.startedAt == ch.startedAt.value) && (ch.startedAt.None? ==> after.startedAt == before.startedAt)
       && (ch.finishedAt.Some? ==> after.finishedAt == ch.finishedAt.value) && (ch.finishedAt.None? ==> after.finishedAt == before.finishedAt)
       && (ch.exitCode.Some? ==> after.exitCode == ch.exitCode.value) && (ch.exitCode.None? ==> after.exitCode == before.exitCode)
       && (ch.error.Some? ==> after.error == ch.error.value) && (ch.error.None? ==> after.error == before.error)
       && t.log == s.log + [UpdateEvent(op.run, before.revision, after.revision, after.status)]
  }

  /** An update writes exactly its changes or is refused without a trace; and with or without a crash it
      leaves the records of every other run alone. */
  lemma UpdatesAreExact(configured: bool, s: Store, op: Op, r: RunId)
    requires op.UpdateOp?
    ensures var (t, outcome) := Update(configured, s, op.run, op.expected, op.ch, op.now, op.crash);
            && (outcome == Done ==> WrittenExactly(s, t, op))
            && (outcome.Refused? ==> t == s)
            && (r != op.run ==> SameFor(s, t, r)) && t.attempts == s.attempts && t.invoked == s.invoked
  {
    hide IntentFor, IntentAccepted, NeedsIntent, CanTransition, SameFor, WrittenExactly;
    if r != op.run { UpdateTouchesOne(configured, s, op, r); }
    if Update(configured, s, op.run, op.expected, op.ch, op.now, op.crash).1 == Done { DoneWritesExactly(configured, s, op); }
  }

  lemma DoneWritesExactly(configured: bool, s: Store, op: Op)
    requires op.UpdateOp? && Update(configured, s, op.run, op.expected, op.ch, op.now, op.crash).1 == Done
    ensures WrittenExactly(s, Update(configured, s, op.run, op.expected, op.ch, op.now, op.crash).0, op)
  {
    hide IntentFor, IntentAccepted, NeedsIntent, CanTransition;
  }

  // ---------- the event log ----------

  /** Reading a run's events back, rejecting any gap, repetition or backward move. */
  datatype Replayed = NoEvents | At(revision: nat, status: Status) | Broken

  function Replay(log: seq<Line>, r: RunId): Replayed {
    if log == [] then NoEvents else ReplayOne(Replay(log[..|log| - 1], r), log[|log| - 1], r)
  }

  function ReplayOne(before: Replayed, l: Line, r: RunId): Replayed {
    match l
    case RegisteredEvent(run, revision, status) =>
      if run != r then before else if before.NoEvents? then At(revision, status) else Broken
    case UpdateEvent(run, from, to, status) =>
      if run != r then before
      else if before.At? && before.revision == from && to == from + 1 && CanTransition(before.status, status) then At(to, status)
      else Broken
    case _ => before
  }

  lemma ReplaySnoc(log: seq<Line>, l: Line, r: RunId)
    ensures Replay(log + [l], r) == ReplayOne(Replay(log, r), l, r)
  {
    assert (log + [l])[..|log|] == log;
  }

  /** Removing other runs' lines does not change what is read back. */
  lemma {:induction false} CompactionKeepsOthers(log: seq<Line>, runs: set<RunId>, r: RunId)
    requires r !in runs
    ensures Replay(Compacted(log, runs), r) == Replay(log, r)
  {
    if log != [] {
      var front, l := log[..|log| - 1], log[|log| - 1];
      assert log == front + [l];
      CompactionKeepsOthers(front, runs, r);
      CompactedSnoc(front, l, runs);
      if Names(l, runs) {
        assert Compacted(front, runs) + [] == Compacted(front, runs);
      } else {
        ReplaySnoc(Compacted(front, runs), l, r);
      }
    }
  }

  /** No crash cuts an operation on `r` short, and no compaction names it. */
  predicate Undisturbed(op: Op, r: RunId) {
    match op
    case RegisterOp(run, _, _, crash) => run == r ==> crash == NoCrash
    case UpdateOp(run, _, _, _, crash) => run == r ==> crash == NoCrash
    case ProcessOp(_, _, _) => true
    case CompactOp(runs) => r !in runs
  }

  predicate Recounts(s: Store, r: RunId) {
    && (r in s.manifests <==> r in s.states)
    && Replay(s.log, r) == if r in s.states then At(s.states[r].revision, s.states[r].status) else NoEvents
  }

  /** What a registration does to manifests, states and log. */
  predicate RegisterShows(s: Store, t: Store, run: RunId, m: Manifest, now: string, crash: Crash) {
    if run in s.manifests then t == s
    else
      && t.manifests == s.manifests[run := m] && t.states == s.states[run := Fresh(now)]
      && t.log == if crash == NoCrash then s.log + [RegisteredEvent(run, 0, Registered)] else s.log
  }

  lemma RegisterEffect(s: Store, run: RunId, m: Manifest, now: string, crash: Crash)
    ensures RegisterShows(s, Register(s, run, m, now, crash).0, run, m, now, crash)
  {
  }

  lemma RecountsRegister(s: Store, t: Store, r: RunId, run: RunId, m: Manifest, now: string, crash: Crash)
    requires Recounts(s, r) && (run == r ==> crash == NoCrash) && RegisterShows(s, t, run, m, now, crash)
    ensures Recounts(t, r)
  {
    hide Replay, Register;
    ReplaySnoc(s.log, RegisteredEvent(run, 0, Registered), r);
  }

  lemma RecountsUpdate(s: Store, t: Store, r: RunId, op: Op, reached: bool)
    requires Recounts(s, r) && op.UpdateOp? && (op.run == r ==> op.crash == NoCrash) && UpdateShows(s, t, op, reached)
    ensures Recounts(t, r)
  {
    hide Replay, Update, Applied, CanTransition;
    if reached {
      var next := Applied(s.states[op.run], op.ch, op.now);
      ReplaySnoc(s.log, UpdateEvent(op.run, s.states[op.run].revision, next.revision, next.status), r);
      AppliedRevision(s.states[op.run], op.ch, op.now);
    }
  }

  lemma AppliedRevision(st: RunState, ch: Changes, now: string)
    ensures Applied(st, ch, now).revision == st.revision + 1
  {
  }

  lemma RecountsStep(configured: bool, s: Store, op: Op, r: RunId)
    requires Recounts(s, r) && Undisturbed(op, r)
    ensures Recounts(Apply(configured, s, op), r)
  {
    match op
    case RegisterOp(run, m, now, crash) =>
      hide Recounts, Register;
      RegisterEffect(s, run, m, now, crash);
      RecountsRegister(s, Register(s, run, m, now, crash).0, r, run, m, now, crash);
    case UpdateOp(run, expected, ch, now, crash) =>
      hide Recounts, Apply, Advances;
      UpdateEffect(configured, s, op);
      RecountsUpdate(s, Apply(configured, s, op), r, op, Advances(configured, s, op, op.run));
    case ProcessOp(run, answer, crash) =>
      ProcessEffect(configured, s, op);
      hide Apply;
    case CompactOp(runs) =>
      CompactionKeepsOthers(s.log, runs, r);
      hide Replay;
  }

  lemma {:induction false} RecountsAll(configured: bool, s: Store, ops: seq<Op>, r: RunId)
    requires Recounts(s, r) && forall op :: op in ops ==> Undisturbed(op, r)
    ensures Recounts(ApplyAll(configured, s, ops), r)
    decreases |ops|
  {
    if ops != [] {
      RecountsStep(configured, s, ops[0], r);
      RecountsAll(configured, Apply(configured, s, ops[0]), ops[1..], r);
    }
  }

  /** Without crashes a run's events are gapless and replay to its current revision and status, whatever
      other runs do, crash or lose to compaction. */
  lemma EventsReplay(configured: bool, ops: seq<Op>, r: RunId)
    requires forall op :: op in ops ==> Undisturbed(op, r)
    ensures var t := ApplyAll(configured, EMPTY, ops);
            Replay(t.log, r) == if r in t.states then At(t.states[r].revision, t.states[r].status) else NoEvents
  {
    RecountsAll(configured, EMPTY, ops, r);
  }

  /** With crashes events may be missing, never out of order or ahead of the state. */
  predicate Ordered(log: seq<Line>, r: RunId, bound: int) {
    if log == [] then true
    else
      var l := log[|log| - 1];
      if l.UpdateEvent? && l.run == r then l.after == l.before + 1 && l.after <= bound && Ordered(log[..|log| - 1], r, l.before)
      else Ordered(log[..|log| - 1], r, bound)
  }

  lemma OrderedSnoc(log: seq<Line>, l: Line, r: RunId, bound: int)
    ensures Ordered(log + [l], r, bound) ==
            if l.UpdateEvent? && l.run == r then l.after == l.before + 1 && l.after <= bound && Ordered(log, r, l.before)
            else Ordered(log, r, bound)
  {
    assert (log + [l])[..|log|] == log;
  }

  lemma {:induction false} OrderedWeaken(log: seq<Line>, r: RunId, low: int, high: int)
    requires Ordered(log, r, low) && low <= high
    ensures Ordered(log, r, high)
  {
    if log != [] {
      var l := log[|log| - 1];
      if !(l.UpdateEvent? && l.run == r) { OrderedWeaken(log[..|log| - 1], r, low, high); }
    }
  }

  lemma {:induction false} OrderedCompacted(log: seq<Line>, runs: set<RunId>, r: RunId, bound: int)
    requires Ordered(log, r, bound)
    ensures Ordered(Compacted(log, runs), r, bound)
  {
    if log != [] {
      var front, l := log[..|log| - 1], log[|log| - 1];
      assert log == front + [l];
      CompactedSnoc(front, l, runs);
      if l.UpdateEvent? && l.run == r {
        OrderedCompacted(front, runs, r, l.before);
        OrderedWeaken(Compacted(front, runs), r, l.before, bound);
      } else {
        OrderedCompacted(front, runs, r, bound);
      }
      if Names(l, runs) {
        assert Compacted(front, runs) + [] == Compacted(front, runs);
      } else {
        OrderedSnoc(Compacted(front, runs), l, r, bound);
      }
    }
  }

  function Revision(s: Store, r: RunId): int {
    if Known(s, r) then s.states[r].revision else -1
  }

  lemma OrderedRegister(s: Store, r: RunId, run: RunId, m: Manifest, now: string, crash: Crash)
    requires Ordered(s.log, r, Revision(s, r)) && s.manifests.Keys == s.states.Keys
    ensures var t := Register(s, run, m, now, crash).0;
            Ordered(t.log, r, Revision(t, r)) && t.manifests.Keys == t.states.Keys
  {
    hide Ordered;
    var t := Register(s, run, m, now, crash).0;
    OrderedWeaken(s.log, r, Revision(s, r), Revision(t, r));
    OrderedSnoc(s.log, RegisteredEvent(run, 0, Registered), r, Revision(t, r));
  }

  lemma OrderedUpdate(configured: bool, s: Store, op: Op, r: RunId)
    requires op.UpdateOp? && Ordered(s.log, r, Revision(s, r)) && s.manifests.Keys == s.states.Keys
    ensures var t := Apply(configured, s, op); Ordered(t.log, r, Revision(t, r)) && t.manifests.Keys == t.states.Keys
  {
    hide Apply, Advances, Ordered;
    var t := Apply(configured, s, op);
    UpdateEffect(configured, s, op);
    OrderedWeaken(s.log, r, Revision(s, r), Revision(t, r));
    if op.run in s.states {
      var next := Applied(s.states[op.run], op.ch, op.now);
      OrderedSnoc(s.log, UpdateEvent(op.run, s.states[op.run].revision, next.revision, next.status), r, Revision(t, r));
    }
  }

  lemma OrderedStep(configured: bool, s: Store, op: Op, r: RunId)
    requires Ordered(s.log, r, Revision(s, r)) && s.manifests.Keys == s.states.Keys
    ensures var t := Apply(configured, s, op); Ordered(t.log, r, Revision(t, r)) && t.manifests.Keys == t.states.Keys
  {
    match op
    case RegisterOp(run, m, now, crash) => OrderedRegister(s, r, run, m, now, crash);
    case UpdateOp(run, expected, ch, now, crash) =>
      hide Apply, Ordered;
      OrderedUpdate(configured, s, op, r);
    case ProcessOp(run, answer, crash) =>
      ProcessEffect(configured, s, op);
      hide Apply;
    case CompactOp(runs) => OrderedCompacted(s.log, runs, r, Revision(s, r));
  }

  lemma {:induction false} EventsStayOrdered(configured: bool, s: Store, ops: seq<Op>, r: RunId)
    requires Ordered(s.log, r, Revision(s, r)) && s.manifests.Keys == s.states.Keys
    ensures var t := ApplyAll(configured, s, ops);
            Ordered(t.log, r, Revision(t, r)) && t.manifests.Keys == t.states.Keys
    decreases |ops|
  {
    if ops != [] {
      OrderedStep(configured, s, ops[0], r);
      EventsStayOrdered(configured, Apply(configured, s, ops[0]), ops[1..], r);
    }
  }

  // ---------- archiving ----------

  predicate IntentFits(s: Store, r: RunId, intent: Intent) {
    && Known(s, r) && Terminal(intent.status)
    && s.manifests[r].outputPath == Some(intent.path) && s.manifests[r].server == intent.server && s.manifests[r].details == intent.details
  }

  /** A pending intent belongs to its run, and says how the run ended once it has; the archive of a run
      is only complete after the end. */
  predicate RunArchivable(s: Store, r: RunId) {
    PendingFits(s, r) && CompletedFits(s, r) && EndIsFiled(s, r)
  }

  predicate PendingFits(s: Store, r: RunId) {
    r in s.pending ==>
      && IntentFits(s, r, s.pending[r])
      && if Terminal(s.states[r].status) then s.pending[r].status == s.states[r].status
         else s.pending[r].revision <= s.states[r].revision + 1
  }

  predicate CompletedFits(s: Store, r: RunId) {
    r in s.completed ==> IntentFits(s, r, s.completed[r].intent) && s.completed[r].intent.status == s.states[r].status
  }

  predicate EndIsFiled(s: Store, r: RunId) {
    Known(s, r) && Terminal(s.states[r].status) && s.manifests[r].outputPath.Some? ==> r in s.pending || r in s.completed
  }

  ghost predicate Archivable(s: Store) {
    && s.manifests.Keys == s.states.Keys
    && (forall r :: RunArchivable(s, r))
    && (forall r :: r in s.invoked ==> Known(s, r) && Terminal(s.states[r].status))
  }

  lemma ArchivableRegister(s: Store, run: RunId, m: Manifest, now: string, crash: Crash)
    requires Archivable(s)
    ensures Archivable(Register(s, run, m, now, crash).0)
  {
    var t := Register(s, run, m, now, crash).0;
    forall r ensures RunArchivable(t, r) { assert RunArchivable(s, r); }
  }

  lemma ArchivableUpdate(s: Store, op: Op)
    requires op.UpdateOp? && Archivable(s)
    ensures Archivable(Apply(true, s, op))
  {
    var t := Apply(true, s, op);
    forall r ensures RunArchivable(t, r) {
      assert RunArchivable(s, r);
      if r == op.run { UpdateArchives(s, op); } else { UpdateKeepsOthers(s, op, r); }
    }
    UpdateEffect(true, s, op);
    UpdateKeepsInvoked(s, op);
    hide Apply, Advances;
  }

  lemma UpdateArchives(s: Store, op: Op)
    requires op.UpdateOp? && RunArchivable(s, op.run)
    ensures RunArchivable(Apply(true, s, op), op.run)
  {
    UpdateFits(s, op);
    UpdateFiles(s, op);
    UpdateEffect(true, s, op);
    UpdateKeepsInvoked(s, op);
    hide Apply, Advances, PendingFits, EndIsFiled;
  }

  lemma UpdateFits(s: Store, op: Op)
    requires op.UpdateOp? && PendingFits(s, op.run) && CompletedFits(s, op.run)
    ensures PendingFits(Apply(true, s, op), op.run)
  {
    hide TerminalAt, EndIsFiled, Advances;
    UpdateKeepsInvoked(s, op);
  }

  lemma UpdateFiles(s: Store, op: Op)
    requires op.UpdateOp? && EndIsFiled(s, op.run)
    ensures EndIsFiled(Apply(true, s, op), op.run)
  {
  }

  lemma UpdateKeepsOthers(s: Store, op: Op, r: RunId)
    requires op.UpdateOp? && RunArchivable(s, r) && r != op.run
    ensures RunArchivable(Apply(true, s, op), r)
  {
    UpdateTouchesOne(true, s, op, r);
    hide Apply;
  }

  predicate SameFor(s: Store, t: Store, r: RunId) {
    && t.manifests == s.manifests && t.completed == s.completed
    && (r in t.states <==> r in s.states) && (r in s.states ==> t.states[r] == s.states[r])
    && (r in t.pending <==> r in s.pending) && (r in s.pending ==> t.pending[r] == s.pending[r])
  }

  lemma WithIntentTouchesOne(s: Store, run: RunId, intent: Option<Intent>, r: RunId)
    requires r != run
    ensures SameFor(s, WithIntent(s, run, intent), r) && WithIntent(s, run, intent).states == s.states
  {
  }

  lemma StateTouchesOne(s: Store, t: Store, u: Store, run: RunId, next: RunState, r: RunId)
    requires SameFor(s, t, r) && r != run && u.states == t.states[run := next]
    requires u.manifests == t.manifests && u.pending == t.pending && u.completed == t.completed
    ensures SameFor(s, u, r)
  {
  }

  lemma UpdateTouchesOne(configured: bool, s: Store, op: Op, r: RunId)
    requires op.UpdateOp? && r != op.run
    ensures SameFor(s, Apply(configured, s, op), r)
  {
    hide SameFor, WithIntent, IntentFor, Applied, CanTransition, IntentAccepted, NeedsIntent;
    var t := Apply(configured, s, op);
    SameForItself(s, r);
    if op.run in s.manifests && op.run in s.states {
      var next := Applied(s.states[op.run], op.ch, op.now);
      var intent := if NeedsIntent(configured, s.states[op.run], next) then IntentFor(s.manifests[op.run], next) else None;
      var s1 := WithIntent(s, op.run, intent);
      WithIntentTouchesOne(s, op.run, intent, r);
      if t != s && t != s1 { StateTouchesOne(s, s1, t, op.run, next, r); }
    }
  }

  lemma SameForItself(s: Store, r: RunId)
    ensures SameFor(s, s, r)
  {
  }

  lemma UpdateKeepsInvoked(s: Store, op: Op)
    requires op.UpdateOp?
    ensures Apply(true, s, op).invoked == s.invoked && Apply(true, s, op).completed == s.completed
  {
    hide IntentFor, Applied, CanTransition, IntentAccepted, NeedsIntent;
  }

  lemma ProcessArchives(s: Store, op: Op, r: RunId)
    requires op.ProcessOp? && op.run in s.pending && RunArchivable(s, op.run) && RunArchivable(s, r)
    ensures RunArchivable(Apply(true, s, op), r)
  {
    ProcessEffect(true, s, op);
    ProcessMoves(s, op, r);
    hide Apply;
  }

  /** The worker turns a pending intent of an ended run into a completed record of it, or leaves it. */
  lemma ProcessMoves(s: Store, op: Op, r: RunId)
    requires op.ProcessOp? && op.run in s.pending && RunArchivable(s, op.run)
    ensures var t := Apply(true, s, op);
            && (r in t.pending ==> r in s.pending && t.pending[r] == s.pending[r])
            && (r in s.pending && r !in t.pending ==> r in t.completed)
            && (r in s.completed ==> r in t.completed)
            && (r in t.completed ==> (r in s.completed && t.completed[r] == s.completed[r])
                                     || (r == op.run && t.completed[r].intent == s.pending[r] && Terminal(s.states[r].status)))
  {
    hide IntentFits, EndIsFiled, Mismatch, Known;
  }

  lemma ArchivableProcess(s: Store, op: Op)
    requires op.ProcessOp? && Archivable(s)
    ensures Archivable(Apply(true, s, op))
  {
    if op.run in s.pending {
      var t := Apply(true, s, op);
      assert RunArchivable(s, op.run);
      forall r ensures RunArchivable(t, r) {
        assert RunArchivable(s, r);
        ProcessArchives(s, op, r);
      }
      ProcessEffect(true, s, op);
      InvokedOnlyWhenTerminal(s, op);
    }
  }

  lemma InvokedOnlyWhenTerminal(s: Store, op: Op)
    requires op.ProcessOp? && op.run in s.pending
    ensures var t := Apply(true, s, op);
            t.invoked == s.invoked
            || (t.invoked == s.invoked + [op.run] && Known(s, op.run) && Terminal(s.states[op.run].status))
  {
  }

  lemma ArchivableStep(s: Store, op: Op)
    requires Archivable(s)
    ensures Archivable(Apply(true, s, op))
  {
    hide Archivable;
    match op
    case RegisterOp(run, m, now, crash) => ArchivableRegister(s, run, m, now, crash);
    case UpdateOp(_, _, _, _, _) => ArchivableUpdate(s, op);
    case ProcessOp(_, _, _) => ArchivableProcess(s, op);
    case CompactOp(runs) => ArchivableLog(s, Compact(s, runs).0);
  }

  lemma ArchivableLog(s: Store, t: Store)
    requires Archivable(s) && t == s.(log := t.log)
    ensures Archivable(t)
  {
    forall r ensures RunArchivable(t, r) { assert RunArchivable(s, r); }
  }

  lemma {:induction false} ArchivableAll(s: Store, ops: seq<Op>)
    requires Archivable(s)
    ensures Archivable(ApplyAll(true, s, ops))
    decreases |ops|
  {
    if ops != [] {
      hide Archivable;
      ArchivableStep(s, ops[0]);
      ArchivableAll(Apply(true, s, ops[0]), ops[1..]);
    }
  }

  lemma EmptyArchivable()
    ensures Archivable(EMPTY)
  {
  }

  /** Wherever crashes fall, a run that ended with an output path has a pending or a completed archive record. */
  lemma ArchivalIsCrashSafe(ops: seq<Op>, r: RunId)
    ensures var t := ApplyAll(true, EMPTY, ops);
            r in t.states && Terminal(t.states[r].status) && r in t.manifests && t.manifests[r].outputPath.Some?
            ==> r in t.pending || r in t.completed
  {
    EmptyArchivable();
    ArchivableAll(EMPTY, ops);
    assert RunArchivable(ApplyAll(true, EMPTY, ops), r);
  }

  /** The checks that compare an intent with the execution record never object, and the target is only
      invoked for runs that have ended. */
  lemma MismatchesAreUnreachable(ops: seq<Op>, r: RunId, answer: Result<string>, crash: Crash)
    ensures var t := ApplyAll(true, EMPTY, ops);
            r in t.pending ==>
              && Known(t, r)
              && (Terminal(t.states[r].status) ==> Mismatch(t.manifests[r], t.states[r], t.pending[r]) == None)
              && (Process(t, r, t.pending[r], answer, crash).1.Waiting? <==> !Terminal(t.states[r].status))
              && (Process(t, r, t.pending[r], answer, crash).1.Retryable? ==> answer == Err(Process(t, r, t.pending[r], answer, crash).1.reason))
    ensures forall x :: x in ApplyAll(true, EMPTY, ops).invoked ==>
              x in ApplyAll(true, EMPTY, ops).states && Terminal(ApplyAll(true, EMPTY, ops).states[x].status)
  {
    EmptyArchivable();
    ArchivableAll(EMPTY, ops);
    assert RunArchivable(ApplyAll(true, EMPTY, ops), r);
  }

  /** `run_sync_status`: what an operator is told about the archive of a run. */
  datatype SyncStatus = ArchiveCompleted | ArchivePending | ArchiveRetryable | ArchiveWaiting | NotEnqueued

  function RunSyncStatus(s: Store, r: RunId): SyncStatus {
    if r in s.completed then ArchiveCompleted
    else if r !in s.pending then NotEnqueued
    else if r in s.attempts then (if s.attempts[r].waiting then ArchiveWaiting else ArchiveRetryable)
    else ArchivePending
  }

  /** A run is reported as not enqueued only before it ended or when it has no output, and as completed
      only after it ended; a status of completed stays. */
  lemma SyncStatusIsTruthful(ops: seq<Op>, more: seq<Op>, r: RunId)
    ensures var t := ApplyAll(true, EMPTY, ops);
            && (Known(t, r) && RunSyncStatus(t, r).NotEnqueued? ==> !Terminal(t.states[r].status) || t.manifests[r].outputPath.None?)
            && (RunSyncStatus(t, r).ArchiveCompleted? ==> Known(t, r) && Terminal(t.states[r].status)
                                                          && RunSyncStatus(ApplyAll(true, t, more), r).ArchiveCompleted?)
  {
    EmptyArchivable();
    ArchivableAll(EMPTY, ops);
    var t := ApplyAll(true, EMPTY, ops);
    assert RunArchivable(t, r);
    hide ApplyAll;
    if r in t.completed { CompletedForGood(true, t, more, r); }
  }

  lemma CompletedStep(configured: bool, s: Store, op: Op, r: RunId)
    requires r in s.completed
    ensures r in Apply(configured, s, op).completed
  {
  }

  /** A completed archive record is never left. */
  lemma {:induction false} CompletedForGood(configured: bool, s: Store, ops: seq<Op>, r: RunId)
    requires r in s.completed
    ensures r in ApplyAll(configured, s, ops).completed
    decreases |ops|
  {
    if ops != [] {
      CompletedStep(configured, s, ops[0], r);
      CompletedForGood(configured, Apply(configured, s, ops[0]), ops[1..], r);
    }
  }

  // ---------- when a run can no longer be concluded ----------

  /** A crash left an intent that no later update of this run can repeat. */
  predicate LockedOut(s: Store, r: RunId) {
    && Known(s, r) && !Terminal(s.states[r].status) && r !in s.completed && s.manifests[r].outputPath.Some?
    && r in s.pending && s.pending[r].revision != s.states[r].revision + 1
    && s.pending[r].revision <= s.states[r].revision
  }

  lemma LockedOutStep(s: Store, op: Op, r: RunId)
    requires LockedOut(s, r)
    ensures LockedOut(Apply(true, s, op), r)
  {
    ForwardStep(true, s, op, r);
    if op.UpdateOp? {
      if op.run == r { LockedOutUpdate(s, op); } else { UpdateTouchesOne(true, s, op, r); hide Apply; }
    }
  }

  lemma LockedOutUpdate(s: Store, op: Op)
    requires op.UpdateOp? && LockedOut(s, op.run)
    ensures LockedOut(Apply(true, s, op), op.run)
  {
  }

  /** Such a run stays unfinished for ever, and its output is never archived. */
  lemma {:induction false} LockedOutForGood(s: Store, ops: seq<Op>, r: RunId)
    requires LockedOut(s, r)
    ensures LockedOut(ApplyAll(true, s, ops), r)
    decreases |ops|
  {
    if ops != [] {
      LockedOutStep(s, ops[0], r);
      LockedOutForGood(Apply(true, s, ops[0]), ops[1..], r);
    }
  }

  /** How and when a run ended. */
  datatype End = End(status: Status, at: string)

  function EndOf(st: RunState): End {
    End(st.status, TerminalAt(st))
  }

  function IntendedEnd(intent: Intent): End {
    End(intent.status, intent.terminalAt)
  }

  /** The update would take the run from unfinished to ended. */
  predicate WouldEnd(s: Store, op: Op, r: RunId) {
    op.UpdateOp? && op.run == r && Known(s, r) && !Terminal(s.states[r].status)
    && Terminal(Applied(s.states[r], op.ch, op.now).status)
  }

  /** Every update that would end the run would end it as one of `can`. */
  ghost predicate EndsWithin(s: Store, ops: seq<Op>, r: RunId, can: iset<End>)
    decreases |ops|
  {
    ops == [] ||
    ((WouldEnd(s, ops[0], r) ==> EndOf(Applied(s.states[r], ops[0].ch, ops[0].now)) in can)
     && EndsWithin(Apply(true, s, ops[0]), ops[1..], r, can))
  }

  /** Not ended, with this intent on file. */
  predicate Unfinished(s: Store, r: RunId, intent: Intent) {
    && Known(s, r) && !Terminal(s.states[r].status) && r !in s.completed && s.manifests[r].outputPath.Some?
    && r in s.pending && s.pending[r] == intent
  }

  lemma UnfinishedStep(s: Store, op: Op, r: RunId, intent: Intent)
    requires Unfinished(s, r, intent)
    requires WouldEnd(s, op, r) ==>
               var next := Applied(s.states[r], op.ch, op.now); EndOf(next) != IntendedEnd(intent) || next.revision != intent.revision
    ensures Unfinished(Apply(true, s, op), r, intent)
  {
    if op.UpdateOp? {
      if op.run == r { UnfinishedUpdate(s, op, intent); } else { UpdateTouchesOne(true, s, op, r); hide Apply; }
    } else if op.ProcessOp? {
      ProcessEffect(true, s, op);
      UnfinishedProcess(s, op, r, intent);
      hide Apply;
    }
  }

  lemma UnfinishedUpdate(s: Store, op: Op, intent: Intent)
    requires op.UpdateOp? && Unfinished(s, op.run, intent)
    requires WouldEnd(s, op, op.run) ==>
               var next := Applied(s.states[op.run], op.ch, op.now); EndOf(next) != IntendedEnd(intent) || next.revision != intent.revision
    ensures Unfinished(Apply(true, s, op), op.run, intent)
  {
    hide TerminalAt;
  }

  lemma UnfinishedProcess(s: Store, op: Op, r: RunId, intent: Intent)
    requires op.ProcessOp? && Unfinished(s, r, intent)
    ensures var t := Apply(true, s, op); r !in t.completed && r in t.pending && t.pending[r] == intent
  {
    hide Mismatch;
  }

  /** Whatever is done to the records, a run that others would end differently than its intent says never ends. */
  lemma {:induction false} OtherEndsNeverConclude(s: Store, ops: seq<Op>, r: RunId, intent: Intent, can: iset<End>)
    requires Unfinished(s, r, intent) && EndsWithin(s, ops, r, can) && IntendedEnd(intent) !in can
    ensures Unfinished(ApplyAll(true, s, ops), r, intent)
    decreases |ops|
  {
    if ops != [] {
      UnfinishedStep(s, ops[0], r, intent);
      hide Apply, Unfinished, WouldEnd;
      OtherEndsNeverConclude(Apply(true, s, ops[0]), ops[1..], r, intent, can);
    }
  }

  /** The update that ends a run as `e`. */
  function EndingUpdate(s: Store, r: RunId, e: End): Op
    requires Known(s, r)
  {
    UpdateOp(r, s.states[r].revision, Changes(Some(e.status), None, Some(Some(e.at)), None, None), e.at, NoCrash)
  }

  predicate Concludes(s: Store, ops: seq<Op>, r: RunId) {
    Terminal(StatusOf(ApplyAll(true, s, ops), r))
  }

  function StatusOf(s: Store, r: RunId): Status {
    if r in s.states then s.states[r].status else Registered
  }

  /** Exactly: where only the ends `can` can still be reported, a run can be concluded if and only if one of them can be
      reported at all and, when an intent is on file, that intent carries the next revision and its own status and
      time can still be reported. */
  lemma ConcludableExactly(s: Store, r: RunId, can: iset<End>)
    requires Archivable(s) && Known(s, r) && !Terminal(s.states[r].status) && s.manifests[r].outputPath.Some?
    requires forall e :: e in can ==> Terminal(e.status)
    ensures (exists ops :: EndsWithin(s, ops, r, can) && Concludes(s, ops, r))
            <==> (if r in s.pending then s.pending[r].revision == s.states[r].revision + 1 && IntendedEnd(s.pending[r]) in can
                  else exists e :: e in can)
  {
    assert RunArchivable(s, r);
    if r in s.pending {
      if s.pending[r].revision != s.states[r].revision + 1 {
        forall ops ensures !Concludes(s, ops, r) { LockedOutForGood(s, ops, r); }
      } else if IntendedEnd(s.pending[r]) !in can {
        forall ops | EndsWithin(s, ops, r, can) ensures !Concludes(s, ops, r) {
          OtherEndsNeverConclude(s, ops, r, s.pending[r], can);
        }
      } else {
        OneUpdateConcludes(s, r, IntendedEnd(s.pending[r]), can);
      }
    } else if e :| e in can {
      OneUpdateConcludes(s, r, e, can);
    } else {
      forall ops | EndsWithin(s, ops, r, can) ensures !Concludes(s, ops, r) { NoEndNeverConcludes(s, ops, r, can); }
    }
  }

  lemma OneUpdateConcludes(s: Store, r: RunId, e: End, can: iset<End>)
    requires RunArchivable(s, r) && Known(s, r) && !Terminal(s.states[r].status) && e in can && Terminal(e.status)
    requires r in s.pending ==> s.pending[r].revision == s.states[r].revision + 1 && e == IntendedEnd(s.pending[r])
    ensures exists ops :: EndsWithin(s, ops, r, can) && Concludes(s, ops, r)
  {
    LastUpdateConcludes(s, r, e);
    var op := EndingUpdate(s, r, e);
    var ops := [op];
    EndingUpdateEnds(s, r, e);
    hide Apply;
    assert ops[1..] == [] && ApplyAll(true, s, ops) == ApplyAll(true, Apply(true, s, op), []);
    assert EndsWithin(Apply(true, s, op), [], r, can);
    assert EndsWithin(s, ops, r, can) && Concludes(s, ops, r);
  }

  lemma EndingUpdateEnds(s: Store, r: RunId, e: End)
    requires Known(s, r)
    ensures EndOf(Applied(s.states[r], EndingUpdate(s, r, e).ch, e.at)) == e
  {
  }

  lemma LastUpdateConcludes(s: Store, r: RunId, e: End)
    requires RunArchivable(s, r) && Known(s, r) && !Terminal(s.states[r].status) && Terminal(e.status)
    requires r in s.pending ==> s.pending[r].revision == s.states[r].revision + 1 && e == IntendedEnd(s.pending[r])
    ensures Terminal(StatusOf(Apply(true, s, EndingUpdate(s, r, e)), r))
  {
    hide EndIsFiled;
  }

  /** Without a reportable end nothing ends a run. */
  lemma {:induction false} NoEndNeverConcludes(s: Store, ops: seq<Op>, r: RunId, can: iset<End>)
    requires EndsWithin(s, ops, r, can) && (forall e :: e !in can) && !Terminal(StatusOf(s, r))
    ensures !Concludes(s, ops, r)
    decreases |ops|
  {
    if ops != [] {
      StillUnfinished(s, ops[0], r);
      hide Apply, StatusOf;
      NoEndNeverConcludes(Apply(true, s, ops[0]), ops[1..], r, can);
    }
  }

  lemma StillUnfinished(s: Store, op: Op, r: RunId)
    requires !Terminal(StatusOf(s, r)) && !WouldEnd(s, op, r)
    ensures !Terminal(StatusOf(Apply(true, s, op), r))
  {
    if op.UpdateOp? {
      UpdateEffect(true, s, op);
      hide Apply, Advances;
    } else if op.ProcessOp? {
      ProcessEffect(true, s, op);
      hide Apply;
    }
  }

  /** It happens: a stop cut off between its two writes, then an update that does not end the run. */
  lemma CrashThenUpdateLocksOut(s: Store, r: RunId, now: string, later: string, message: string)
    requires Known(s, r) && !Terminal(s.states[r].status) && s.manifests[r].outputPath.Some?
    requires r !in s.pending && r !in s.completed
    ensures var n := s.states[r].revision;
            var stop := UpdateOp(r, n, Changes(Some(Stopped), None, Some(Some(now)), None, None), now, AfterFirstWrite);
            var failedStop := UpdateOp(r, n, Changes(None, None, None, None, Some(Some(message))), later, NoCrash);
            LockedOut(Apply(true, Apply(true, s, stop), failedStop), r)
  {
    hide TerminalAt;
  }

  /** Without crashes no intent is on file for a run that has not ended, so no update is ever refused for one. */
  predicate NoEarlyIntent(s: Store, r: RunId) {
    r in s.pending ==> Known(s, r) && Terminal(s.states[r].status)
  }

  lemma NoEarlyIntentStep(s: Store, op: Op, r: RunId)
    requires NoEarlyIntent(s, r) && Undisturbed(op, r)
    ensures NoEarlyIntent(Apply(true, s, op), r)
  {
    if op.UpdateOp? && op.run != r {
      UpdateTouchesOne(true, s, op, r);
      hide Apply;
    } else if op.ProcessOp? {
      ProcessEffect(true, s, op);
      ProcessAddsNoIntent(s, op, r);
      hide Apply;
    }
  }

  lemma ProcessAddsNoIntent(s: Store, op: Op, r: RunId)
    requires op.ProcessOp?
    ensures r in Apply(true, s, op).pending ==> r in s.pending
  {
  }

  lemma {:induction false} NoEarlyIntentAll(s: Store, ops: seq<Op>, r: RunId)
    requires NoEarlyIntent(s, r) && forall op :: op in ops ==> Undisturbed(op, r)
    ensures NoEarlyIntent(ApplyAll(true, s, ops), r)
    decreases |ops|
  {
    if ops != [] {
      NoEarlyIntentStep(s, ops[0], r);
      NoEarlyIntentAll(Apply(true, s, ops[0]), ops[1..], r);
    }
  }

  lemma WithoutCrashesNoUpdateConflicts(ops: seq<Op>, r: RunId, expected: nat, ch: Changes, now: string, crash: Crash)
    requires forall op :: op in ops ==> Undisturbed(op, r)
    ensures Update(true, ApplyAll(true, EMPTY, ops), r, expected, ch, now, crash).1 != Refused("intent conflict")
  {
    NoEarlyIntentAll(EMPTY, ops, r);
  }
}
