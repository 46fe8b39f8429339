/** Launch and stop as writers of the execution records, each under the run lock. */
module RunWriters {
  import opened Common
  import opened ExecutionRecords
  import opened RecordTheorems

  // ---------- launch ----------

  datatype BootstrapReport = BootstrapReport(ok: Option<bool>, tmuxStarted: Option<bool>, startedAt: Option<string>, message: string)

  datatype Bootstrap = TimedOut | NotSent | Returned(code: int, report: Option<BootstrapReport>, detail: string)

  datatype LaunchVerdict = Confirmed(startedAt: Option<string>) | Rejected(message: string) | OutcomeUnknown(message: string)

  /** `execute_plan`: success and rejection both need the remote program's own word; everything else is unknown. */
  function Classify(b: Bootstrap): LaunchVerdict {
    match b
    case TimedOut => OutcomeUnknown("remote bootstrap timed out")
    case NotSent => OutcomeUnknown("transport error")
    case Returned(code, report, detail) =>
      if code == 0 then
        if report.Some? && report.value.ok == Some(true) && report.value.tmuxStarted == Some(true) then Confirmed(report.value.startedAt)
        else OutcomeUnknown("remote bootstrap returned without a verified tmux-started result")
      else if report.Some? && report.value.ok == Some(false) && report.value.tmuxStarted == Some(false) then Rejected(report.value.message)
      else OutcomeUnknown(detail)
  }

  function LaunchChanges(v: LaunchVerdict, now: string): Changes {
    match v
    case Confirmed(at) => Changes(Some(Running), Some(Some(if at.Some? && at.value != "" then at.value else now)), None, None, Some(None))
    case Rejected(message) => Changes(Some(Registered), None, None, None, Some(Some(message)))
    case OutcomeUnknown(message) => Changes(Some(Registered), None, None, None, Some(Some(message)))
  }

  /** `launch`: only a registered run is launched; whatever came of the bootstrap is recorded. */
  method Launch(registry: Registry, run: RunId, b: Bootstrap, now: string, crash: Crash) returns (outcome: Outcome)
    requires Known(registry.View(), run)
    modifies registry
    ensures if old(registry.states[run]).status != Registered then registry.View() == old(registry.View()) && outcome.Refused?
            else (registry.View(), outcome)
                 == Update(registry.configured, old(registry.View()), run, old(registry.states[run]).revision,
                           LaunchChanges(Classify(b), now), now, crash)
  {
    var st := registry.states[run];
    if st.status != Registered { return Refused("run must be registered before launch"); }
    outcome := registry.UpdateCurrentState(run, st.revision, LaunchChanges(Classify(b), now), now, crash);
  }

  /** A launch that got its outcome always records it: running exactly when the remote side confirmed the
      session, still registered with the reason otherwise. */
  lemma LaunchIsRecorded(configured: bool, s: Store, run: RunId, b: Bootstrap, now: string)
    requires Known(s, run) && s.states[run].status == Registered
    ensures var (t, outcome) := Update(configured, s, run, s.states[run].revision, LaunchChanges(Classify(b), now), now, NoCrash);
            && outcome == Done && t.pending == s.pending
            && t.states[run].revision == s.states[run].revision + 1
            && (if Classify(b).Confirmed? then t.states[run].status == Running && t.states[run].error == None
                else t.states[run].status == Registered && t.states[run].error.Some?)
            && (t.states[run].status == Running <==>
                  b.Returned? && b.code == 0 && b.report.Some? && b.report.value.ok == Some(true) && b.report.value.tmuxStarted == Some(true))
  {
  }

  // ---------- stop ----------

  /** What the remote stop program reported: nothing usable, or the final status record. */
  datatype FinalRecord = FinalRecord(state: Option<Status>, startedAt: Option<string>, finishedAt: Option<string>, exitCode: Option<int>)

  datatype StopReport = StopUnknown(message: string) | StoppedWithout | StoppedWith(final: FinalRecord)

  function ChangesFromStop(final: Option<FinalRecord>, now: string): Changes {
    if final.None? then Changes(Some(Stopped), None, Some(Some(now)), Some(None), Some(None))
    else
      var f := final.value;
      Changes(Some(if f.state.Some? && Terminal(f.state.value) then f.state.value else Stopped), Some(f.startedAt),
              Some(Some(if f.finishedAt.Some? && f.finishedAt.value != "" then f.finishedAt.value else now)), Some(f.exitCode), Some(None))
  }

  function StopChanges(report: StopReport, now: string): Changes {
    match report
    case StopUnknown(message) => Changes(None, None, None, None, Some(Some(message)))
    case StoppedWithout => ChangesFromStop(None, now)
    case StoppedWith(final) => ChangesFromStop(Some(final), now)
  }

  method Stop(registry: Registry, run: RunId, report: StopReport, now: string, crash: Crash) returns (outcome: Outcome)
    requires Known(registry.View(), run)
    modifies registry
    ensures if Terminal(old(registry.states[run]).status) then registry.View() == old(registry.View()) && outcome == Done
            else (registry.View(), outcome)
                 == Update(registry.configured, old(registry.View()), run, old(registry.states[run]).revision,
                           StopChanges(report, now), now, crash)
  {
    var st := registry.states[run];
    if Terminal(st.status) { return Done; }
    outcome := registry.UpdateCurrentState(run, st.revision, StopChanges(report, now), now, crash);
  }

  /** A confirmed stop ends the run for good exactly when no other archive intent is already on file for it. */
  lemma StopEndsTheRunExactly(s: Store, run: RunId, report: StopReport, now: string)
    requires RunArchivable(s, run) && Known(s, run) && !Terminal(s.states[run].status) && !report.StopUnknown?
    ensures var next := Applied(s.states[run], StopChanges(report, now), now);
            var (t, outcome) := Update(true, s, run, s.states[run].revision, StopChanges(report, now), now, NoCrash);
            && Terminal(next.status)
            && (outcome == Done <==> (run in s.pending ==> s.pending[run] == Intent(s.manifests[run].server, s.pending[run].path,
                                        s.manifests[run].details, next.status, TerminalAt(next), next.revision)))
            && (outcome == Done ==> t.states[run] == next)
            && (outcome != Done ==> t == s)
  {
  }
}
