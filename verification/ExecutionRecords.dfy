/** The durable records of a run: a revisioned forward-only state, an append-only event log, and a
    write-ahead intent to archive the output. Every file replacement is one atomic step, and a
    crash may fall between any two. */
module ExecutionRecords {
  import opened Common

  type RunId = string

  datatype Status = Registered | Running | Succeeded | Failed | Stopped

  predicate Terminal(s: Status) {
    s in {Succeeded, Failed, Stopped}
  }

  /** `can_transition`: stay, or move forward. */
  predicate CanTransition(a: Status, b: Status) {
    a == b || (a == Registered && b != Registered) || (a == Running && Terminal(b))
  }

  /** `details` stands for the manifest fields an intent copies without looking at them. */
  datatype Manifest = Manifest(server: string, outputPath: Option<string>, details: string)

  datatype RunState = RunState(revision: nat, status: Status, startedAt: Option<string>, finishedAt: Option<string>,
                               exitCode: Option<int>, error: Option<string>, updatedAt: string)

  /** A field that is absent keeps its value. */
  datatype Changes = Changes(status: Option<Status>, startedAt: Option<Option<string>>, finishedAt: Option<Option<string>>,
                             exitCode: Option<Option<int>>, error: Option<Option<string>>)

  datatype Intent = Intent(server: string, path: string, details: string, status: Status, terminalAt: string, revision: nat)

  datatype Receipt = Receipt(intent: Intent, text: string)

  datatype Attempt = Attempt(waiting: bool, attempts: nat, error: Option<string>)

  datatype Line =
    | RegisteredEvent(run: RunId, revision: nat, status: Status)
    | UpdateEvent(run: RunId, before: nat, after: nat, status: Status)
    | OtherRecord(about: Option<RunId>)
    | Malformed(mentions: set<RunId>)

  datatype Store = Store(manifests: map<RunId, Manifest>, states: map<RunId, RunState>,
                         pending: map<RunId, Intent>, completed: map<RunId, Receipt>, attempts: map<RunId, Attempt>,
                         log: seq<Line>, invoked: seq<RunId>)

  datatype Crash = NoCrash | AfterFirstWrite | AfterSecondWrite

  datatype Outcome = Done | Refused(reason: string) | Crashed

  predicate Known(s: Store, r: RunId) {
    r in s.manifests && r in s.states
  }

  // ---------- registration ----------

  function Fresh(now: string): RunState {
    RunState(0, Registered, None, None, None, None, now)
  }

  /** `register_current_run`: the run directory appears whole or not at all, and never replaces one. */
  function Register(s: Store, run: RunId, m: Manifest, now: string, crash: Crash): (Store, Outcome) {
    if run in s.manifests then (s, Refused("run id already exists"))
    else
      var committed := s.(manifests := s.manifests[run := m], states := s.states[run := Fresh(now)]);
      if crash != NoCrash then (committed, Crashed)
      else (committed.(log := committed.log + [RegisteredEvent(run, 0, Registered)]), Done)
  }

  // ---------- updating the state ----------

  function Keep<T>(change: Option<T>, kept: T): T {
    if change.Some? then change.value else kept
  }

  function Applied(st: RunState, ch: Changes, now: string): RunState {
    RunState(st.revision + 1, Keep(ch.status, st.status), Keep(ch.startedAt, st.startedAt), Keep(ch.finishedAt, st.finishedAt),
             Keep(ch.exitCode, st.exitCode), Keep(ch.error, st.error), now)
  }

  /** When a terminal state says it ended: its finish time, or the time of the update. */
  function TerminalAt(st: RunState): string {
    if st.finishedAt.Some? && st.finishedAt.value != "" then st.finishedAt.value else st.updatedAt
  }

  function IntentFor(m: Manifest, st: RunState): Option<Intent> {
    if m.outputPath.None? then None
    else Some(Intent(m.server, m.outputPath.value, m.details, st.status, TerminalAt(st), st.revision))
  }

  predicate NeedsIntent(configured: bool, before: RunState, after: RunState) {
    configured && !Terminal(before.status) && Terminal(after.status)
  }

  /** An intent already on file must be the same one; a completed archive needs none. */
  predicate IntentAccepted(s: Store, run: RunId, intent: Option<Intent>) {
    intent.Some? && run !in s.completed && run in s.pending ==> s.pending[run] == intent.value
  }

  function WithIntent(s: Store, run: RunId, intent: Option<Intent>): Store {
    if intent.Some? && run !in s.completed && run !in s.pending then s.(pending := s.pending[run := intent.value]) else s
  }

  /** `update_current_state`: checks, then intent, then state, then event. */
  function Update(configured: bool, s: Store, run: RunId, expected: nat, ch: Changes, now: string,
                  crash: Crash): (Store, Outcome) {
    if run !in s.manifests || run !in s.states then (s, Refused("not a current run"))
    else
      var st := s.states[run];
      var next := Applied(st, ch, now);
      if st.revision != expected then (s, Refused("state revision conflict"))
      else if !CanTransition(st.status, next.status) then (s, Refused("illegal state transition"))
      else
        var intent := if NeedsIntent(configured, st, next) then IntentFor(s.manifests[run], next) else None;
        if !IntentAccepted(s, run, intent) then (s, Refused("intent conflict"))
        else
          var s1 := WithIntent(s, run, intent);
          if crash == AfterFirstWrite then (s1, Crashed)
          else
            var s2 := s1.(states := s1.states[run := next]);
            if crash == AfterSecondWrite then (s2, Crashed)
            else (s2.(log := s2.log + [UpdateEvent(run, st.revision, next.revision, next.status)]), Done)
  }

  // ---------- compaction ----------

  /** The JSON lines that name one of the runs. */
  predicate Names(l: Line, runs: set<RunId>) {
    match l
    case RegisteredEvent(run, _, _) => run in runs
    case UpdateEvent(run, _, _, _) => run in runs
    case OtherRecord(about) => about.Some? && about.value in runs
    case Malformed(_) => false
  }

  predicate Unsafe(l: Line, runs: set<RunId>) {
    l.Malformed? && l.mentions * runs != {}
  }

  function Compacted(log: seq<Line>, runs: set<RunId>): seq<Line> {
    Filter((l: Line) => !Names(l, runs), log)
  }

  predicate CanCompact(log: seq<Line>, runs: set<RunId>) {
    forall l :: l in log ==> !Unsafe(l, runs)
  }

  function Compact(s: Store, runs: set<RunId>): (Store, Outcome) {
    if runs == {} then (s, Done)
    else if !CanCompact(s.log, runs) then (s, Refused("cannot safely compact malformed run event"))
    else (s.(log := Compacted(s.log, runs)), Done)
  }

  // ---------- archiving ----------

  datatype Verdict = Archived | Waiting | Retryable(reason: string) | Interrupted

  function Recorded(s: Store, run: RunId, waiting: bool, error: Option<string>): Store {
    var attempts := if run in s.attempts then s.attempts[run].attempts else 0;
    s.(attempts := s.attempts[run := Attempt(waiting, if waiting then attempts else attempts + 1, error)])
  }

  /** `_complete_intent`: the completed record, then the pending one goes, then the attempts. */
  function Complete(s: Store, run: RunId, receipt: Receipt, crash: Crash): (Store, Verdict) {
    var s1 := s.(completed := s.completed[run := receipt]);
    if crash == AfterFirstWrite then (s1, Interrupted)
    else
      var s2 := s1.(pending := s1.pending - {run});
      if crash == AfterSecondWrite then (s2, Interrupted)
      else (s2.(attempts := s2.attempts - {run}), Archived)
  }

  const STATUS_CHANGED := "output-sync execution status changed after enqueue"
  const PATH_CHANGED := "output-sync source path changed after enqueue"
  const SERVER_CHANGED := "output-sync source server changed after enqueue"
  const NOT_CURRENT := "output-sync run is not a current registry record"

  /** What the checks before the transfer object to, if anything. */
  function Mismatch(m: Manifest, st: RunState, intent: Intent): Option<string> {
    if st.status != intent.status then Some(STATUS_CHANGED)
    else if m.outputPath != Some(intent.path) then Some(PATH_CHANGED)
    else if m.server != intent.server then Some(SERVER_CHANGED)
    else None
  }

  /** One pending intent in `process_pending_once`; the target answers with a receipt or an error. */
  function Process(s: Store, run: RunId, intent: Intent, answer: Result<string>, crash: Crash): (Store, Verdict) {
    if run !in s.manifests || run !in s.states then (Recorded(s, run, false, Some(NOT_CURRENT)), Retryable(NOT_CURRENT))
    else
      var st := s.states[run];
      if !Terminal(st.status) then (Recorded(s, run, true, None), Waiting)
      else
        var mismatch := Mismatch(s.manifests[run], st, intent);
        if mismatch.Some? then (Recorded(s, run, false, mismatch), Retryable(mismatch.value))
        else
          var invoked := s.(invoked := s.invoked + [run]);
          match answer
          case Ok(text) => Complete(invoked, run, Receipt(intent, text), crash)
          case Err(reason) => (Recorded(invoked, run, false, Some(reason)), Retryable(reason))
  }

  // ---------- the files, updated in place ----------

  /** The project's run registry and output-sync directory. */
  class Registry {
    const configured: bool
    var manifests: map<RunId, Manifest>
    var states: map<RunId, RunState>
    var pending: map<RunId, Intent>
    var completed: map<RunId, Receipt>
    var attempts: map<RunId, Attempt>
    var log: seq<Line>
    var invoked: seq<RunId>

    function View(): Store
      reads this
    {
      Store(manifests, states, pending, completed, attempts, log, invoked)
    }

    constructor (configured: bool)
      ensures this.configured == configured && View() == Store(map[], map[], map[], map[], map[], [], [])
    {
      this.configured := configured;
      manifests, states, pending, completed, attempts, log, invoked := map[], map[], map[], map[], map[], [], [];
    }

    method RegisterCurrentRun(run: RunId, m: Manifest, now: string, crash: Crash) returns (outcome: Outcome)
      modifies this
      ensures (View(), outcome) == Register(old(View()), run, m, now, crash)
    {
      if run in manifests { return Refused("run id already exists"); }
      manifests, states := manifests[run := m], states[run := Fresh(now)];
      if crash != NoCrash { return Crashed; }
      AppendRunEvent(RegisteredEvent(run, 0, Registered));
      return Done;
    }

    method AppendRunEvent(l: Line)
      modifies this`log
      ensures log == old(log) + [l]
    {
      log := log + [l];
    }

    /** Says whether the intent, if one is due, is on file. */
    method EnqueueTerminalOutput(run: RunId, intent: Option<Intent>) returns (accepted: bool)
      modifies this`pending
      ensures accepted == IntentAccepted(old(View()), run, intent)
      ensures View() == if accepted then WithIntent(old(View()), run, intent) else old(View())
    {
      if intent.None? || run in completed { return true; }
      if run in pending { return pending[run] == intent.value; }
      pending := pending[run := intent.value];
      return true;
    }

    method UpdateCurrentState(run: RunId, expected: nat, ch: Changes, now: string, crash: Crash)
      returns (outcome: Outcome)
      modifies this
      ensures (View(), outcome) == Update(configured, old(View()), run, expected, ch, now, crash)
    {
      if run !in manifests || run !in states { return Refused("not a current run"); }
      var st := states[run];
      if st.revision != expected { return Refused("state revision conflict"); }
      var next := Applied(st, ch, now);
      if !CanTransition(st.status, next.status) { return Refused("illegal state transition"); }
      if NeedsIntent(configured, st, next) {
        var accepted := EnqueueTerminalOutput(run, IntentFor(manifests[run], next));
        if !accepted { return Refused("intent conflict"); }
      }
      if crash == AfterFirstWrite { return Crashed; }
      states := states[run := next];
      if crash == AfterSecondWrite { return Crashed; }
      AppendRunEvent(UpdateEvent(run, st.revision, next.revision, next.status));
      return Done;
    }

    /** One pass over the log; nothing is written unless every line could be judged. */
    method CompactRunEvents(runs: set<RunId>) returns (outcome: Outcome, removed: nat)
      modifies this`log
      ensures (View(), outcome) == Compact(old(View()), runs)
      ensures |log| + removed == |old(log)|
    {
      removed := 0;
      if runs == {} { return Done, 0; }
      var kept: seq<Line> := [];
      for i := 0 to |log|
        invariant removed <= i && |kept| + removed == i && log == old(log)
        invariant kept == Compacted(log[..i], runs) && CanCompact(log[..i], runs)
      {
        var l := log[i];
        CompactedSnoc(log[..i], l, runs);
        assert log[..i + 1] == log[..i] + [l];
        if Unsafe(l, runs) {
          assert l in log;
          return Refused("cannot safely compact malformed run event"), 0;
        }
        if Names(l, runs) { removed := removed + 1; } else { kept := kept + [l]; }
      }
      assert log[..|log|] == log;
      log := kept;
      return Done, removed;
    }

    method RecordAttempt(run: RunId, waiting: bool, error: Option<string>)
      modifies this`attempts
      ensures View() == Recorded(old(View()), run, waiting, error)
    {
      var n := if run in attempts then attempts[run].attempts else 0;
      if !waiting { n := n + 1; }
      attempts := attempts[run := Attempt(waiting, n, error)];
    }

    method CompleteIntent(run: RunId, receipt: Receipt, crash: Crash) returns (verdict: Verdict)
      modifies this`completed, this`pending, this`attempts
      ensures (View(), verdict) == Complete(old(View()), run, receipt, crash)
    {
      completed := completed[run := receipt];
      if crash == AfterFirstWrite { return Interrupted; }
      pending := pending - {run};
      if crash == AfterSecondWrite { return Interrupted; }
      attempts := attempts - {run};
      return Archived;
    }

    method ProcessIntent(run: RunId, intent: Intent, answer: Result<string>, crash: Crash) returns (verdict: Verdict)
      modifies this
      ensures (View(), verdict) == Process(old(View()), run, intent, answer, crash)
    {
      if run !in manifests || run !in states {
        RecordAttempt(run, false, Some(NOT_CURRENT));
        return Retryable(NOT_CURRENT);
      }
      if !Terminal(states[run].status) {
        RecordAttempt(run, true, None);
        return Waiting;
      }
      var mismatch := Mismatch(manifests[run], states[run], intent);
      if mismatch.Some? {
        RecordAttempt(run, false, mismatch);
        return Retryable(mismatch.value);
      }
      invoked := invoked + [run];
      match answer {
        case Ok(text) => verdict := CompleteIntent(run, Receipt(intent, text), crash);
        case Err(reason) =>
          RecordAttempt(run, false, Some(reason));
          verdict := Retryable(reason);
      }
    }

    /** `process_pending_once` over the intents listed under the worker lock, in order. */
    method ProcessPendingOnce(listed: seq<(RunId, Intent)>, answers: RunId -> Result<string>)
      returns (verdicts: seq<Verdict>)
      modifies this
      ensures (View(), verdicts) == ProcessAll(old(View()), listed, answers)
    {
      verdicts := [];
      assert listed[..0] == [];
      for i := 0 to |listed|
        invariant (View(), verdicts) == ProcessAll(old(View()), listed[..i], answers)
      {
        var v := ProcessIntent(listed[i].0, listed[i].1, answers(listed[i].0), NoCrash);
        verdicts := verdicts + [v];
        assert listed[..i + 1][..i] == listed[..i];
      }
      assert listed[..|listed|] == listed;
    }
  }

  function ProcessAll(s: Store, listed: seq<(RunId, Intent)>, answers: RunId -> Result<string>): (Store, seq<Verdict>) {
    if listed == [] then (s, [])
    else
      var last := |listed| - 1;
      var (mid, verdicts) := ProcessAll(s, listed[..last], answers);
      var (t, v) := Process(mid, listed[last].0, listed[last].1, answers(listed[last].0), NoCrash);
      (t, verdicts + [v])
  }

  lemma CompactedSnoc(log: seq<Line>, l: Line, runs: set<RunId>)
    ensures Compacted(log + [l], runs) == Compacted(log, runs) + (if Names(l, runs) then [] else [l])
  {
    FilterAppend((l: Line) => !Names(l, runs), log, [l]);
    assert [l][1..] == [];
  }
}
