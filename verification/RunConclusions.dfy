/** Whether a run can still be ended by what the program's own writers report: launch, stop, the monitor, and the
    dispatcher after a failed dispatch. */
module RunConclusions {
  import opened Common
  import opened ExecutionRecords
  import opened RecordTheorems
  import RunWriters
  import Monitoring

  /** What a writer acts on: the outcome of a bootstrap, the report of a stop, the error of a failed dispatch, or the
      output of a probe with the status stored when it was taken. */
  datatype Writer =
    | Launching(b: RunWriters.Bootstrap)
    | Stopping(report: RunWriters.StopReport)
    | Failing(error: string)
    | Watching(lines: seq<string>, stored: Status)

  datatype Writing = Writing(run: RunId, how: Writer, now: string, crash: Crash)

  type Decoder = string -> Monitoring.Decoded

  /** `_fail_registered_execution`: the end is stamped with the current clock. */
  function FailureChanges(error: string, now: string): Changes {
    Changes(Some(Failed), None, Some(Some(now)), None, Some(Some(error)))
  }

  /** The update a writer makes of a run in this state, if any. */
  function ChangesBy(st: RunState, w: Writing, decode: Decoder): Option<Changes> {
    match w.how
    case Launching(b) => if st.status == Registered then Some(RunWriters.LaunchChanges(RunWriters.Classify(b), w.now)) else None
    case Stopping(report) => if Terminal(st.status) then None else Some(RunWriters.StopChanges(report, w.now))
    case Failing(error) => if st.status == Registered then Some(FailureChanges(error, w.now)) else None
    case Watching(lines, stored) => Monitoring.Reconcile(st, Monitoring.ProbeFromParts(w.run, stored, lines, decode), w.now)
  }

  function AsOp(s: Store, w: Writing, decode: Decoder): Option<Op> {
    if !Known(s, w.run) then None
    else
      var st := s.states[w.run];
      var changes := ChangesBy(st, w, decode);
      if changes.None? then None else Some(UpdateOp(w.run, st.revision, changes.value, w.now, w.crash))
  }

  function Write(s: Store, w: Writing, decode: Decoder): Store {
    var op := AsOp(s, w, decode);
    if op.None? then s else Apply(true, s, op.value)
  }

  function WriteAll(s: Store, ws: seq<Writing>, decode: Decoder): Store
    decreases |ws|
  {
    if ws == [] then s else WriteAll(Write(s, ws[0], decode), ws[1..], decode)
  }

  // ---------- the ends writers report ----------

  /** The end a writer reports of a run in this state, if it reports one. */
  function EndReported(st: RunState, w: Writing, decode: Decoder): Option<End> {
    var changes := ChangesBy(st, w, decode);
    if changes.Some? && !Terminal(st.status) && Terminal(Applied(st, changes.value, w.now).status)
    then Some(EndOf(Applied(st, changes.value, w.now))) else None
  }

  function NonEmpty(text: Option<string>): Option<string> {
    if text.Some? && text.value != "" then text else None
  }

  /** The finish time of the remote record a writer has read, if there is one. */
  function RecordedTime(w: Writing, decode: Decoder): Option<string> {
    match w.how
    case Stopping(report) => if report.StoppedWith? then NonEmpty(report.final.finishedAt) else None
    case Watching(lines, stored) =>
      var remote := Monitoring.ProbeFromParts(w.run, stored, lines, decode).remote;
      if remote.Some? then NonEmpty(remote.value.finishedAt) else None
    case _ => None
  }

  /** Every end a writer reports bears the finish time of the remote record it read, or else the current clock;
      without a remote record it is a stop or a failed dispatch. */
  lemma ReportedEndsAreStamped(st: RunState, w: Writing, decode: Decoder)
    requires w.now != "" && EndReported(st, w, decode).Some?
    ensures var e := EndReported(st, w, decode).value;
            && Terminal(e.status) && !w.how.Launching?
            && e.at == (if RecordedTime(w, decode).Some? then RecordedTime(w, decode).value else w.now)
            && (w.how.Failing? ==> e.status == Failed)
            && (w.how == Stopping(RunWriters.StoppedWithout) ==> e.status == Stopped)
  {
    hide Monitoring.CheckRecord, Monitoring.LastValue, Monitoring.ProbeValue;
  }

  // ---------- concluding a run with an intent on file ----------

  /** The writing gets the run past the state file with exactly the end its intent names. */
  predicate Repeats(st: RunState, intent: Intent, r: RunId, w: Writing, decode: Decoder) {
    w.run == r && w.crash != AfterFirstWrite && EndReported(st, w, decode) == Some(IntendedEnd(intent))
  }

  /** The records of a run are as they were when its intent was met, or past all repair. */
  predicate StuckWith(s: Store, r: RunId, st: RunState, intent: Intent) {
    (Unfinished(s, r, intent) && s.states[r] == st) || LockedOut(s, r)
  }

  lemma StuckStep(s: Store, r: RunId, st: RunState, intent: Intent, w: Writing, decode: Decoder)
    requires StuckWith(s, r, st, intent) && intent.revision == st.revision + 1 && !Repeats(st, intent, r, w, decode)
    ensures StuckWith(Write(s, w, decode), r, st, intent)
  {
    hide ChangesBy, Apply;
    var op := AsOp(s, w, decode);
    if op.Some? {
      if LockedOut(s, r) {
        LockedOutStep(s, op.value, r);
      } else if w.run != r {
        UpdateTouchesOne(true, s, op.value, r);
      } else {
        OwnWriting(s, st, intent, op.value);
      }
    }
  }

  /** An update of the run itself: it repeats the intent, is refused, or leaves the intent behind. */
  lemma OwnWriting(s: Store, st: RunState, intent: Intent, op: Op)
    requires op.UpdateOp? && Unfinished(s, op.run, intent) && s.states[op.run] == st && op.expected == st.revision
    requires intent.revision == st.revision + 1
    requires var next := Applied(st, op.ch, op.now);
             op.crash == AfterFirstWrite || !Terminal(next.status) || EndOf(next) != IntendedEnd(intent)
    ensures StuckWith(Apply(true, s, op), op.run, st, intent)
  {
    hide TerminalAt;
  }

  lemma {:induction false} StuckForGood(s: Store, r: RunId, st: RunState, intent: Intent, ws: seq<Writing>, decode: Decoder)
    requires StuckWith(s, r, st, intent) && intent.revision == st.revision + 1
    requires forall w :: w in ws ==> !Repeats(st, intent, r, w, decode)
    ensures StuckWith(WriteAll(s, ws, decode), r, st, intent)
    decreases |ws|
  {
    if ws != [] {
      StuckStep(s, r, st, intent, ws[0], decode);
      hide StuckWith, Repeats, Write;
      StuckForGood(Write(s, ws[0], decode), r, st, intent, ws[1..], decode);
    }
  }

  lemma {:induction false} LockedOutOfWriters(s: Store, r: RunId, ws: seq<Writing>, decode: Decoder)
    requires LockedOut(s, r)
    ensures LockedOut(WriteAll(s, ws, decode), r)
    decreases |ws|
  {
    if ws != [] {
      var op := AsOp(s, ws[0], decode);
      if op.Some? { LockedOutStep(s, op.value, r); }
      hide LockedOut, AsOp, Apply;
      LockedOutOfWriters(Write(s, ws[0], decode), r, ws[1..], decode);
    }
  }

  ghost predicate Among(ws: seq<Writing>, can: iset<Writing>) {
    forall w :: w in ws ==> w in can
  }

  predicate Ends(s: Store, ws: seq<Writing>, r: RunId, decode: Decoder) {
    Terminal(StatusOf(WriteAll(s, ws, decode), r))
  }

  /** MAIN: a run with an archive intent on file can be ended by the writings that can still come if and only if the
      intent carries the next revision and one of those writings reports exactly its status and its time. */
  lemma ConcludableByWritersExactly(s: Store, r: RunId, can: iset<Writing>, decode: Decoder)
    requires Archivable(s) && Known(s, r) && !Terminal(s.states[r].status) && r in s.pending
    ensures (exists ws :: Among(ws, can) && Ends(s, ws, r, decode))
            <==> (s.pending[r].revision == s.states[r].revision + 1
                  && exists w :: w in can && Repeats(s.states[r], s.pending[r], r, w, decode))
  {
    var st, intent := s.states[r], s.pending[r];
    assert RunArchivable(s, r);
    hide Repeats, Apply;
    if intent.revision != st.revision + 1 {
      forall ws ensures !Ends(s, ws, r, decode) { LockedOutOfWriters(s, r, ws, decode); }
    } else if w :| w in can && Repeats(st, intent, r, w, decode) {
      RepeatedEndConcludes(s, r, w, decode);
      assert [w][1..] == [] && WriteAll(s, [w], decode) == WriteAll(Write(s, w, decode), [], decode);
      assert Among([w], can) && Ends(s, [w], r, decode);
    } else {
      forall ws | Among(ws, can) ensures !Ends(s, ws, r, decode) { StuckForGood(s, r, st, intent, ws, decode); }
    }
  }

  lemma RepeatedEndConcludes(s: Store, r: RunId, w: Writing, decode: Decoder)
    requires RunArchivable(s, r) && Known(s, r) && !Terminal(s.states[r].status) && r in s.pending
    requires s.pending[r].revision == s.states[r].revision + 1 && Repeats(s.states[r], s.pending[r], r, w, decode)
    ensures Terminal(StatusOf(Write(s, w, decode), r))
  {
    hide ChangesBy, TerminalAt, EndIsFiled;
  }

  /** A run that was never started, and its stop cut off between intent and state: its intent carries the next
      revision, yet the next stop is refused at once, and no stop, failed dispatch or probe without a remote record
      ever ends it, unless the clock shows the old time again. */
  lemma NeverStartedStopLocksOut(s: Store, r: RunId, first: string, second: string, ws: seq<Writing>, decode: Decoder)
    requires Known(s, r) && s.states[r].status == Registered && s.manifests[r].outputPath.Some?
    requires r !in s.pending && r !in s.completed && first != "" && second != "" && first != second
    requires forall w :: w in ws && w.run == r ==> RecordedTime(w, decode) == None && w.now != "" && w.now != first
    ensures var stop := Stopping(RunWriters.StoppedWithout);
            var t := Write(s, Writing(r, stop, first, AfterFirstWrite), decode);
            && r in t.pending && t.pending[r].revision == t.states[r].revision + 1
            && Write(t, Writing(r, stop, second, NoCrash), decode) == t
            && Update(true, t, r, t.states[r].revision, RunWriters.StopChanges(RunWriters.StoppedWithout, second), second, NoCrash).1
               == Refused("intent conflict")
            && !Ends(t, ws, r, decode)
  {
    var cut := Writing(r, Stopping(RunWriters.StoppedWithout), first, AfterFirstWrite);
    var t := Write(s, cut, decode);
    var intent := CutOffStop(s, r, first, decode);
    SecondStopRefused(t, r, intent, second, decode);
    forall w | w in ws ensures !Repeats(t.states[r], intent, r, w, decode) {
      if w.run == r && EndReported(t.states[r], w, decode).Some? { ReportedEndsAreStamped(t.states[r], w, decode); }
    }
    hide Repeats, Write, EndReported;
    StuckForGood(t, r, t.states[r], intent, ws, decode);
  }

  /** What the cut-off stop leaves: the state as it was, and an intent of its end at its time. */
  lemma CutOffStop(s: Store, r: RunId, first: string, decode: Decoder) returns (intent: Intent)
    requires Known(s, r) && s.states[r].status == Registered && s.manifests[r].outputPath.Some?
    requires r !in s.pending && r !in s.completed && first != ""
    ensures var t := Write(s, Writing(r, Stopping(RunWriters.StoppedWithout), first, AfterFirstWrite), decode);
            && Unfinished(t, r, intent) && t.states[r] == s.states[r]
            && intent.revision == t.states[r].revision + 1 && IntendedEnd(intent) == End(Stopped, first)
  {
    intent := Write(s, Writing(r, Stopping(RunWriters.StoppedWithout), first, AfterFirstWrite), decode).pending[r];
  }

  lemma SecondStopRefused(t: Store, r: RunId, intent: Intent, second: string, decode: Decoder)
    requires Unfinished(t, r, intent) && IntendedEnd(intent).at != second && second != ""
    ensures Write(t, Writing(r, Stopping(RunWriters.StoppedWithout), second, NoCrash), decode) == t
    ensures Update(true, t, r, t.states[r].revision, RunWriters.StopChanges(RunWriters.StoppedWithout, second), second, NoCrash).1
         == Refused("intent conflict")
  {
  }
}
