/** From what a probe printed to what the monitor writes: reading the remote status record,
    weighing the evidence, and reconciling the stored state with it. */
module Monitoring {
  import opened Common
  import opened ExecutionRecords

  // ---------- the remote status record ----------

  /** JSON values as far as the status record is read; arrays and objects inside it are `Other`. */
  datatype Json = Null | Bool(flag: bool) | Int(n: int) | Text(text: string) | Other

  datatype Decoded = NotJson | NotObject | Object(fields: map<string, Json>)

  datatype RemoteState = RemoteRunning | RemoteEnded(status: Status)

  /** An accepted status record. */
  datatype Remote = Remote(state: RemoteState, exitCode: Option<int>, startedAt: Option<string>, finishedAt: Option<string>)

  const STATUS_PREFIX := "remote_status_json="

  predicate StartsWith(line: string, prefix: string) {
    |prefix| <= |line| && line[..|prefix|] == prefix
  }

  /** The text after the prefix on the last line that carries it. */
  function LastValue(lines: seq<string>, prefix: string): Option<string> {
    if lines == [] then None
    else
      var line := lines[|lines| - 1];
      if StartsWith(line, prefix) then Some(line[|prefix|..]) else LastValue(lines[..|lines| - 1], prefix)
  }

  /** The text after `key=` on the first line that carries it. */
  function ProbeValue(lines: seq<string>, key: string): Option<string> {
    if lines == [] then None
    else if StartsWith(lines[0], key + "=") then Some(lines[0][|key| + 1..])
    else ProbeValue(lines[1..], key)
  }

  function Field(fields: map<string, Json>, name: string): Json {
    if name in fields then fields[name] else Null
  }

  /** Python's `in {1, 2}` takes true for 1. */
  predicate IsSchema(v: Json, n: int) {
    v == Int(n) || (n == 1 && v == Bool(true))
  }

  predicate PositiveInt(v: Json) {
    v.Int? && v.n > 0
  }

  function StateOf(v: Json): Option<RemoteState> {
    if v == Text("running") then Some(RemoteRunning)
    else if v == Text("succeeded") then Some(RemoteEnded(Succeeded))
    else if v == Text("failed") then Some(RemoteEnded(Failed))
    else if v == Text("stopped") then Some(RemoteEnded(Stopped))
    else None
  }

  function TextOf(v: Json): Option<string> {
    if v.Text? then Some(v.text) else None
  }

  /** `parse_remote_status` on a decoded object: the checks in order, with the first objection. */
  function CheckRecord(fields: map<string, Json>, expected: string, requireId: bool): Result<Remote> {
    var schema, run := Field(fields, "schema_version"), Field(fields, "run_id");
    var state, exit := StateOf(Field(fields, "state")), Field(fields, "exit_code");
    var lane := if "workload_class" in fields then fields["workload_class"] else Text("standard");
    if !IsSchema(schema, 1) && !IsSchema(schema, 2) then Err("unsupported schema_version")
    else if IsSchema(schema, 2) && !PositiveInt(Field(fields, "assigned_cores")) then Err("assigned_cores must be a positive integer")
    else if IsSchema(schema, 2) && !PositiveInt(Field(fields, "server_cores")) then Err("server_cores must be a positive integer")
    else if IsSchema(schema, 2) && Field(fields, "assigned_cores").n > Field(fields, "server_cores").n then
      Err("assigned_cores exceeds server_cores")
    else if lane != Text("standard") && lane != Text("test") then Err("unsupported workload_class")
    else if requireId && run != Text(expected) then Err("run_id mismatch")
    else if run != Null && run != Text(expected) then Err("run_id mismatch")
    else if state.None? then Err("invalid remote status state")
    else if exit != Null && !exit.Int? then Err("exit_code must be an integer or null")
    else if state.value == RemoteRunning && exit != Null then Err("running state must have null exit_code")
    else if state.value == RemoteEnded(Succeeded) && exit != Int(0) then Err("succeeded state must have exit_code 0")
    else if state.value == RemoteEnded(Failed) && (exit == Null || exit == Int(0)) then Err("failed state must have a nonzero exit_code")
    else Ok(Remote(state.value, if exit.Int? then Some(exit.n) else None,
                   TextOf(Field(fields, "started_at")), TextOf(Field(fields, "finished_at"))))
  }

  datatype Parsed = Parsed(record: Option<Remote>, error: Option<string>)

  function ParseRemoteStatus(lines: seq<string>, decode: string -> Decoded, expected: string, requireId: bool): Parsed {
    var text := LastValue(lines, STATUS_PREFIX);
    if text.None? then Parsed(None, None)
    else
      match decode(text.value)
      case NotJson => Parsed(None, Some("invalid remote status JSON"))
      case NotObject => Parsed(None, Some("expected an object"))
      case Object(fields) =>
        var checked := CheckRecord(fields, expected, requireId);
        if checked.Ok? then Parsed(Some(checked.value), None) else Parsed(None, Some(checked.reason))
  }

  /** Exit code and state agree. */
  predicate ConsistentExit(remote: Remote) {
    match remote.state
    case RemoteRunning => remote.exitCode == None
    case RemoteEnded(status) =>
      && Terminal(status)
      && (status == Succeeded ==> remote.exitCode == Some(0))
      && (status == Failed ==> remote.exitCode.Some? && remote.exitCode != Some(0))
  }

  /** The record names this very run. */
  predicate RecordOf(fields: map<string, Json>, run: string, remote: Remote) {
    && Field(fields, "run_id") == Text(run) && StateOf(Field(fields, "state")) == Some(remote.state)
    && remote.exitCode == if Field(fields, "exit_code").Int? then Some(Field(fields, "exit_code").n) else None
  }

  // ---------- one probe ----------

  datatype Observation = Saw(status: Status) | SawUnknown

  datatype Probe = Probe(observation: Observation, reachable: bool, tmuxAlive: bool, pgidAlive: bool, remote: Option<Remote>)

  predicate Flag(lines: seq<string>, key: string) {
    ProbeValue(lines, key) == Some("0")
  }

  /** `_probe_from_parts` for a current-format run whose stored status is `stored`. */
  function ProbeFromParts(run: string, stored: Status, lines: seq<string>, decode: string -> Decoded): Probe {
    var tmux, pgid := Flag(lines, "tmux_alive"), Flag(lines, "pgid_alive");
    var remote := ParseRemoteStatus(lines, decode, run, true).record;
    var ended := remote.Some? && remote.value.state.RemoteEnded?;
    var observation :=
      if ended && pgid then Saw(Running)
      else if ended then Saw(remote.value.state.status)
      else if tmux || pgid then Saw(Running)
      else if remote.Some? then SawUnknown
      else if stored == Registered && !Flag(lines, "log_exists") && !Flag(lines, "status_exists") then Saw(Registered)
      else SawUnknown;
    Probe(observation, true, tmux, pgid, remote)
  }

  // ---------- reconciliation ----------

  const RUNTIME_ABSENT := "verified remote runtime is absent while execution authority remains active"

  /** The status the evidence asks for. */
  function Desired(p: Probe): Option<Status> {
    if p.remote.Some? && p.remote.value.state.RemoteEnded? && !p.pgidAlive then Some(p.remote.value.state.status)
    else if p.observation == Saw(Running)
            && (p.tmuxAlive || p.pgidAlive || (p.remote.Some? && p.remote.value.state == RemoteRunning)) then Some(Running)
    else None
  }

  predicate SawEnd(p: Probe) {
    p.observation.Saw? && Terminal(p.observation.status)
  }

  predicate RuntimeAbsent(st: RunState, p: Probe) {
    st.status == Running && p.reachable && !p.tmuxAlive && !p.pgidAlive && !SawEnd(p)
  }

  function OnlyError(error: Option<string>): Changes {
    Changes(None, None, None, None, Some(error))
  }

  function NonEmpty(text: Option<string>, otherwise: string): string {
    if text.Some? && text.value != "" then text.value else otherwise
  }

  function ReconciledChanges(st: RunState, p: Probe, desired: Status, now: string): Changes {
    var started :=
      if p.remote.Some? then (if p.remote.value.startedAt.Some? then Some(p.remote.value.startedAt) else None)
      else if desired == Running then Some(Some(NonEmpty(st.startedAt, now)))
      else None;
    if p.remote.Some? && Terminal(desired) then
      Changes(Some(desired), started, Some(Some(NonEmpty(p.remote.value.finishedAt, now))), Some(p.remote.value.exitCode), Some(None))
    else
      Changes(Some(desired), started, None, None, Some(None))
  }

  /** `reconcile_current`: the update the monitor makes, if any. */
  function Reconcile(st: RunState, p: Probe, now: string): Option<Changes> {
    var desired := Desired(p);
    if Terminal(st.status) then None
    else if RuntimeAbsent(st, p) then (if st.error == Some(RUNTIME_ABSENT) then None else Some(OnlyError(Some(RUNTIME_ABSENT))))
    else if desired.None? then None
    else if st.status == desired.value then (if st.error == Some(RUNTIME_ABSENT) then Some(OnlyError(None)) else None)
    else if !CanTransition(st.status, desired.value) then None
    else Some(ReconciledChanges(st, p, desired.value, now))
  }

  method ReconcileCurrent(registry: Registry, run: RunId, p: Probe, now: string, crash: Crash)
    returns (outcome: Outcome)
    requires Known(registry.View(), run)
    modifies registry
    ensures var st, changes := old(registry.states[run]), Reconcile(old(registry.states[run]), p, now);
            if changes.None? then registry.View() == old(registry.View()) && outcome == Done
            else (registry.View(), outcome) == Update(registry.configured, old(registry.View()), run, st.revision, changes.value, now, crash)
  {
    var st := registry.states[run];
    var changes := Reconcile(st, p, now);
    if changes.None? { return Done; }
    outcome := registry.UpdateCurrentState(run, st.revision, changes.value, now, crash);
  }

  // ---------- what reconciliation guarantees ----------

  lemma AcceptedRecords(fields: map<string, Json>, expected: string, remote: Remote)
    requires CheckRecord(fields, expected, true) == Ok(remote)
    ensures ConsistentExit(remote) && RecordOf(fields, expected, remote)
  {
  }

  /** What an observation means: an end is a terminal record without a live process group; running is a live process
      group, or a live session without a terminal record; registered is nothing at all on the machine. */
  lemma ObservationsMean(run: string, stored: Status, lines: seq<string>, decode: string -> Decoded)
    ensures var p := ProbeFromParts(run, stored, lines, decode);
            var ended := p.remote.Some? && p.remote.value.state.RemoteEnded?;
            && (forall status :: Terminal(status) ==>
                  (p.observation == Saw(status) <==> ended && p.remote.value.state.status == status && !p.pgidAlive))
            && (p.observation == Saw(Running) <==> p.pgidAlive || (p.tmuxAlive && !ended))
            && (p.observation == Saw(Registered) <==>
                  stored == Registered && p.remote.None? && !p.tmuxAlive && !p.pgidAlive
                  && !Flag(lines, "log_exists") && !Flag(lines, "status_exists"))
  {
    var text := LastValue(lines, STATUS_PREFIX);
    if text.Some? && decode(text.value).Object? {
      var checked := CheckRecord(decode(text.value).fields, run, true);
      if checked.Ok? { AcceptedRecords(decode(text.value).fields, run, checked.value); }
    }
    hide CheckRecord, LastValue, ProbeValue;
  }

  /** What one look at the machine printed, the status stored when it was taken, and the time it is applied. */
  datatype Sighting = Sighting(lines: seq<string>, stored: Status, now: string)

  function ProbeOf(run: string, x: Sighting, decode: string -> Decoded): Probe {
    ProbeFromParts(run, x.stored, x.lines, decode)
  }

  /** The ended state `st` is what this look showed: a valid status record of this run with a dead process group,
      an exit code that fits, and the record's own times. */
  predicate ShowsEnd(run: string, x: Sighting, decode: string -> Decoded, st: RunState) {
    var text, p := LastValue(x.lines, STATUS_PREFIX), ProbeOf(run, x, decode);
    && !Flag(x.lines, "pgid_alive")
    && text.Some? && decode(text.value).Object? && p.remote.Some? && RecordOf(decode(text.value).fields, run, p.remote.value)
    && p.remote.value.state == RemoteEnded(st.status) && ConsistentExit(p.remote.value)
    && st.exitCode == p.remote.value.exitCode && st.error == None
    && st.finishedAt == Some(NonEmpty(p.remote.value.finishedAt, x.now))
  }

  /** The state after one pass of the monitor. */
  function AfterSighting(run: string, st: RunState, x: Sighting, decode: string -> Decoded): RunState {
    var changes := Reconcile(st, ProbeOf(run, x, decode), x.now);
    if changes.None? then st else Applied(st, changes.value, x.now)
  }

  /** A terminal status the monitor writes comes from a valid status record of this run, with a dead
      process group and an exit code that fits; and the stored exit code is that of the record. */
  lemma TerminalWritesAreJustified(run: string, x: Sighting, decode: string -> Decoded, st: RunState)
    requires !Terminal(st.status) && Terminal(AfterSighting(run, st, x, decode).status)
    ensures var next, remote := AfterSighting(run, st, x, decode), ProbeOf(run, x, decode).remote;
            && ShowsEnd(run, x, decode, next)
            && next.startedAt == (if remote.value.startedAt.Some? then remote.value.startedAt else st.startedAt)
  {
    hide CheckRecord, LastValue, ProbeValue, CanTransition, RecordOf, StartsWith;
    var text := LastValue(x.lines, STATUS_PREFIX);
    if text.Some? && decode(text.value).Object? {
      var checked := CheckRecord(decode(text.value).fields, run, true);
      if checked.Ok? { AcceptedRecords(decode(text.value).fields, run, checked.value); }
    }
  }

  /** Applying a probe again changes nothing, except in exactly one case: it declares a registered run running
      although it found the machine reachable and neither its session nor its process group alive. */
  lemma RepeatedProbesSettleExactly(st: RunState, p: Probe, now: string, later: string)
    requires Reconcile(st, p, now).Some?
    ensures Reconcile(Applied(st, Reconcile(st, p, now).value, now), p, later) == None
            <==> !(st.status == Registered && Desired(p) == Some(Running) && p.reachable && !p.tmuxAlive && !p.pgidAlive && !SawEnd(p))
  {
  }

  /** That case never arises from a real probe. */
  lemma ProbesSettle(run: string, stored: Status, lines: seq<string>, decode: string -> Decoded, st: RunState,
                     now: string, later: string)
    ensures var p := ProbeFromParts(run, stored, lines, decode);
            Reconcile(st, p, now).Some? ==> Reconcile(Applied(st, Reconcile(st, p, now).value, now), p, later) == None
  {
    var p := ProbeFromParts(run, stored, lines, decode);
    if Reconcile(st, p, now).Some? { RepeatedProbesSettleExactly(st, p, now, later); }
    hide Reconcile, CheckRecord, LastValue, ProbeValue;
  }

  /** The monitor never asks for an illegal transition, so an update at the revision it read is refused only for a
      conflicting archive intent. */
  lemma MonitorUpdatesAreLegal(st: RunState, p: Probe, now: string)
    requires Reconcile(st, p, now).Some?
    ensures CanTransition(st.status, Applied(st, Reconcile(st, p, now).value, now).status)
  {
  }

  /** The state after a sequence of looks at the machine, each taken and applied by one pass of the monitor. */
  function Monitored(run: string, st: RunState, xs: seq<Sighting>, decode: string -> Decoded): RunState {
    if xs == [] then st
    else AfterSighting(run, Monitored(run, st, xs[..|xs| - 1], decode), xs[|xs| - 1], decode)
  }

  lemma EndedStays(run: string, st: RunState, x: Sighting, decode: string -> Decoded)
    requires Terminal(st.status)
    ensures AfterSighting(run, st, x, decode) == st
  {
  }

  /** Whatever the machine printed over time, a run ends only when one look showed its end, and then for good:
      the stored state is what that look showed. */
  lemma {:induction false} MonitoredEndIsJustified(run: string, st: RunState, xs: seq<Sighting>, decode: string -> Decoded)
    requires !Terminal(st.status) && Terminal(Monitored(run, st, xs, decode).status)
    ensures exists i :: 0 <= i < |xs| && ShowsEnd(run, xs[i], decode, Monitored(run, st, xs, decode))
  {
    hide ShowsEnd, AfterSighting;
    var last := |xs| - 1;
    var before := Monitored(run, st, xs[..last], decode);
    if Terminal(before.status) {
      MonitoredEndIsJustified(run, st, xs[..last], decode);
      EndedStays(run, before, xs[last], decode);
      var i :| 0 <= i < last && ShowsEnd(run, xs[..last][i], decode, before);
      assert xs[i] == xs[..last][i];
    } else {
      TerminalWritesAreJustified(run, xs[last], decode, before);
    }
  }
}
