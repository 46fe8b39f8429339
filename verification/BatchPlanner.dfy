/** The batch planner (`_plan_dispatch_batch`): a specification that picks one
    dispatch at a time, and the two loops of the program proved against it. */
module BatchPlanner {
  import opened Common
  import opened Placement

  datatype Planned = Planned(row: Row, selected: Probed, alternatives: seq<Probed>)

  /** How a planning pass ended: everything planned, or blocked with the first blocked head named. */
  datatype Terminal = Idle | Blocked(runId: string)

  /** The two lanes of a queue. */
  datatype Lanes = Lanes(standard: seq<Row>, test: seq<Row>) {
    function Of(lane: WorkloadClass): seq<Row> {
      if lane == Standard then standard else test
    }

    function Without(lane: WorkloadClass, k: nat): Lanes
      requires k < |Of(lane)|
    {
      if lane == Standard then Lanes(standard[..k] + standard[k + 1..], test)
      else Lanes(standard, test[..k] + test[k + 1..])
    }

    function Size(): nat { |standard| + |test| }
  }

  datatype Choice = Choice(lane: WorkloadClass, index: nat, planned: Planned)

  datatype Outcome = Outcome(planned: seq<Planned>, rest: Lanes, reserved: set<string>)

  /** Queue rows are distinct runs with valid jobs. */
  ghost predicate ValidQueue(rows: seq<Row>) {
    && (forall i :: 0 <= i < |rows| ==> ValidJob(rows[i].job))
    && (forall i, j :: 0 <= i < j < |rows| ==> rows[i].job.runId != rows[j].job.runId)
  }

  ghost predicate ValidLanes(lanes: Lanes) {
    ValidQueue(lanes.standard) && ValidQueue(lanes.test)
  }

  function LaneOf(queued: seq<Row>, lane: WorkloadClass): seq<Row> {
    Filter((row: Row) => row.job.workloadClass == lane, queued)
  }

  function SplitLanes(queued: seq<Row>): Lanes {
    Lanes(LaneOf(queued, Standard), LaneOf(queued, Test))
  }

  /** A dispatch on the best candidate, the others kept as alternatives. */
  function Dispatch(row: Row, candidates: seq<Probed>): Planned
    requires candidates != []
  {
    Planned(row, candidates[0], candidates[1..])
  }

  // ---------- one choice ----------

  /** First row at or after `k` with a candidate outside the machines shielded by earlier rows. */
  function LanePick(lane: seq<Row>, k: nat, snap: Snapshot, reserved: set<string>,
                    shielded: set<string>): (r: Option<(nat, Planned)>)
    requires k <= |lane|
    ensures r.Some? ==> k <= r.value.0 < |lane| && r.value.1.row == lane[r.value.0]
    decreases |lane| - k
  {
    if k == |lane| then None
    else
      var candidates := Candidates(lane[k].job, snap, reserved, shielded);
      if candidates != [] then Some((k, Dispatch(lane[k], candidates)))
      else LanePick(lane, k + 1, snap, reserved, shielded + UndrainedMachines(lane[k].job, snap.drained))
  }

  function PickHead(lane: seq<Row>, snap: Snapshot, reserved: set<string>): Option<Planned> {
    if lane == [] then None
    else
      var candidates := Candidates(lane[0].job, snap, reserved, {});
      if candidates == [] then None else Some(Dispatch(lane[0], candidates))
  }

  function PickBackfill(lane: seq<Row>, snap: Snapshot, reserved: set<string>): (r: Option<(nat, Planned)>)
    ensures r.Some? ==> 0 < r.value.0 < |lane| && r.value.1.row == lane[r.value.0]
  {
    if lane == [] then None
    else LanePick(lane, 1, snap, reserved, UndrainedMachines(lane[0].job, snap.drained))
  }

  /** Heads first, standard before test; then backfill, standard before test. */
  function Choose(lanes: Lanes, snap: Snapshot, reserved: set<string>): (r: Option<Choice>)
    ensures r.Some? ==> r.value.index < |lanes.Of(r.value.lane)|
                        && r.value.planned.row == lanes.Of(r.value.lane)[r.value.index]
  {
    if PickHead(lanes.standard, snap, reserved).Some? then
      Some(Choice(Standard, 0, PickHead(lanes.standard, snap, reserved).value))
    else if PickHead(lanes.test, snap, reserved).Some? then
      Some(Choice(Test, 0, PickHead(lanes.test, snap, reserved).value))
    else
      var standard := PickBackfill(lanes.standard, snap, reserved);
      if standard.Some? then Some(Choice(Standard, standard.value.0, standard.value.1))
      else
        var test := PickBackfill(lanes.test, snap, reserved);
        if test.Some? then Some(Choice(Test, test.value.0, test.value.1)) else None
  }

  /** Repeats the choice, reserving the chosen machine, until nothing can be chosen. */
  function PlanFrom(lanes: Lanes, snap: Snapshot, reserved: set<string>): Outcome
    decreases lanes.Size()
  {
    var choice := Choose(lanes, snap, reserved);
    if choice.None? then Outcome([], lanes, reserved)
    else
      var c := choice.value;
      var later := PlanFrom(lanes.Without(c.lane, c.index), snap, reserved + {c.planned.selected.server.machineId});
      later.(planned := [c.planned] + later.planned)
  }

  function Plan(queued: seq<Row>, snap: Snapshot): Outcome {
    PlanFrom(SplitLanes(queued), snap, {})
  }

  /** Idle when both lanes are used up, otherwise the first blocked head. */
  function TerminalOf(rest: Lanes): Terminal {
    if rest.standard != [] then Blocked(rest.standard[0].job.runId)
    else if rest.test != [] then Blocked(rest.test[0].job.runId)
    else Idle
  }

  // ---------- the program's loops ----------

  method PlanBackfillFromLane(lane: seq<Row>, snap: Snapshot, reserved: set<string>) returns (choice: Option<Planned>)
    requires lane != [] && ValidQueue(lane)
    ensures choice.Some? <==> PickBackfill(lane, snap, reserved).Some?
    ensures choice.Some? ==> choice.value == PickBackfill(lane, snap, reserved).value.1
  {
    var protectedMachines := UndrainedMachines(lane[0].job, snap.drained);
    var i := 1;
    while i < |lane|
      invariant 1 <= i <= |lane|
      invariant PickBackfill(lane, snap, reserved) == LanePick(lane, i, snap, reserved, protectedMachines)
    {
      var row := lane[i];
      var eligible := UndrainedByName(row.job, snap.drained);
      var safe := SafeNames(row.job, snap.drained, protectedMachines);
      SafeNamesMeanUnprotectedMachines(row.job, snap, reserved, protectedMachines);
      UndrainedByNameValues(row.job, snap.drained);
      if safe != {} {
        var candidates := SelectFromSnapshot(row.job, snap, reserved, Some(safe));
        if candidates != [] {
          return Some(Planned(row, candidates[0], candidates[1..]));
        }
      }
      protectedMachines := protectedMachines + eligible.Values;
      i := i + 1;
    }
    choice := None;
  }

  /** Removes the first occurrence of `row`. */
  function RemoveRow(lane: seq<Row>, row: Row): seq<Row> {
    if lane == [] then [] else if lane[0] == row then lane[1..] else [lane[0]] + RemoveRow(lane[1..], row)
  }

  lemma {:induction false} RemoveRowAt(lane: seq<Row>, k: nat)
    requires ValidQueue(lane) && k < |lane|
    ensures RemoveRow(lane, lane[k]) == lane[..k] + lane[k + 1..]
  {
    if k == 0 {
      assert lane[..0] + lane[1..] == lane[1..];
    } else {
      RemoveRowAt(lane[1..], k - 1);
      assert lane[1..][k - 1] == lane[k] && lane[1..][k..] == lane[k + 1..];
      assert lane[..k] == [lane[0]] + lane[1..][..k - 1];
      assert lane[0].job.runId != lane[k].job.runId;
    }
  }

  /** The program keeps a list of non-empty lanes. */
  function NonEmpty(lanes: Lanes): seq<seq<Row>> {
    (if lanes.standard == [] then [] else [lanes.standard]) + (if lanes.test == [] then [] else [lanes.test])
  }

  lemma WithoutKeepsValid(lanes: Lanes, lane: WorkloadClass, k: nat)
    requires ValidLanes(lanes) && k < |lanes.Of(lane)|
    ensures ValidLanes(lanes.Without(lane, k))
  {
    hide ValidQueue;
    RestIsValid(lanes.Of(lane), k);
  }

  lemma RestIsValid(rows: seq<Row>, k: nat)
    requires ValidQueue(rows) && k < |rows|
    ensures ValidQueue(rows[..k] + rows[k + 1..])
  {
    hide ValidJob;
    var rest := rows[..k] + rows[k + 1..];
    assert forall i :: 0 <= i < |rest| ==> rest[i] == rows[if i < k then i else i + 1];
  }

  /** First lane at or after `l` whose head can be placed. */
  function FirstHead(lanes: seq<seq<Row>>, l: nat, snap: Snapshot, reserved: set<string>): (r: Option<(nat, Planned)>)
    requires l <= |lanes|
    ensures r.Some? ==> l <= r.value.0 < |lanes|
    decreases |lanes| - l
  {
    if l == |lanes| then None
    else
      var head := PickHead(lanes[l], snap, reserved);
      if head.Some? then Some((l, head.value)) else FirstHead(lanes, l + 1, snap, reserved)
  }

  /** First lane at or after `l` with a backfill. */
  function FirstBackfill(lanes: seq<seq<Row>>, l: nat, snap: Snapshot,
                         reserved: set<string>): (r: Option<(nat, Planned)>)
    requires l <= |lanes|
    ensures r.Some? ==> l <= r.value.0 < |lanes|
    decreases |lanes| - l
  {
    if l == |lanes| then None
    else
      var pick := PickBackfill(lanes[l], snap, reserved);
      if pick.Some? then Some((l, pick.value.1)) else FirstBackfill(lanes, l + 1, snap, reserved)
  }

  /** First pass of the planning loop: the first lane whose head can be placed. */
  method ChooseHead(lanes: seq<seq<Row>>, snap: Snapshot, reserved: set<string>)
    returns (choice: Option<(nat, Planned)>, blocked: seq<string>)
    requires forall m :: 0 <= m < |lanes| ==> lanes[m] != [] && ValidQueue(lanes[m])
    ensures choice == FirstHead(lanes, 0, snap, reserved)
    ensures choice.None? && lanes != [] ==> blocked != [] && blocked[0] == lanes[0][0].job.runId
  {
    hide Candidates, UndrainedMachines, SelectFromSnapshot, SafeNames;
    blocked := [];
    var l := 0;
    while l < |lanes|
      invariant l <= |lanes|
      invariant FirstHead(lanes, 0, snap, reserved) == FirstHead(lanes, l, snap, reserved)
      invariant |blocked| == l && (l > 0 ==> blocked[0] == lanes[0][0].job.runId)
    {
      var row := lanes[l][0];
      SafeNamesMeanUnprotectedMachines(row.job, snap, reserved, {});
      var candidates := SelectFromSnapshot(row.job, snap, reserved, None);
      if candidates != [] {
        return Some((l, Planned(row, candidates[0], candidates[1..]))), blocked;
      }
      blocked := blocked + [row.job.runId];
      l := l + 1;
    }
    choice := None;
  }

  /** Second pass: the first lane with a backfill. */
  method ChooseBackfill(lanes: seq<seq<Row>>, snap: Snapshot, reserved: set<string>)
    returns (choice: Option<(nat, Planned)>)
    requires forall m :: 0 <= m < |lanes| ==> lanes[m] != [] && ValidQueue(lanes[m])
    ensures choice == FirstBackfill(lanes, 0, snap, reserved)
  {
    var l := 0;
    while l < |lanes|
      invariant l <= |lanes|
      invariant FirstBackfill(lanes, 0, snap, reserved) == FirstBackfill(lanes, l, snap, reserved)
    {
      var pick := PlanBackfillFromLane(lanes[l], snap, reserved);
      if pick.Some? { return Some((l, pick.value)); }
      l := l + 1;
    }
    choice := None;
  }

  /** The lane a position in the list of non-empty lanes stands for. */
  function LaneAt(lanes: Lanes, l: nat): WorkloadClass {
    if l == 0 && lanes.standard != [] then Standard else Test
  }

  lemma ChoiceFromTheLaneList(lanes: Lanes, snap: Snapshot, reserved: set<string>)
    ensures var head := FirstHead(NonEmpty(lanes), 0, snap, reserved);
            var backfill := FirstBackfill(NonEmpty(lanes), 0, snap, reserved);
            var pick := if head.Some? then head else backfill;
            var choice := Choose(lanes, snap, reserved);
            && (pick.Some? <==> choice.Some?)
            && (pick.Some? ==> choice.value.planned == pick.value.1 && choice.value.lane == LaneAt(lanes, pick.value.0)
                               && NonEmpty(lanes)[pick.value.0] == lanes.Of(choice.value.lane))
  {
    hide PickHead, PickBackfill;
    var list := NonEmpty(lanes);
    if |list| > 0 {
      var _ := FirstHead(list, 1, snap, reserved);
      var _ := FirstBackfill(list, 1, snap, reserved);
    }
  }

  /** One pass of the outer loop. */
  method ChooseDispatch(state: Lanes, snap: Snapshot, reserved: set<string>)
    returns (choice: Option<(nat, Planned)>, blocked: seq<string>)
    requires ValidLanes(state)
    ensures var spec := Choose(state, snap, reserved);
            && (choice.Some? <==> spec.Some?)
            && (choice.Some? ==> choice.value.0 < |NonEmpty(state)| && spec.value.planned == choice.value.1
                                 && spec.value.lane == LaneAt(state, choice.value.0)
                                 && NonEmpty(state)[choice.value.0] == state.Of(spec.value.lane))
    ensures choice.None? && NonEmpty(state) != [] ==> blocked != [] && Blocked(blocked[0]) == TerminalOf(state)
  {
    hide Choose, FirstHead, FirstBackfill, ValidQueue;
    var lanes := NonEmpty(state);
    ChoiceFromTheLaneList(state, snap, reserved);
    choice, blocked := ChooseHead(lanes, snap, reserved);
    if choice.None? {
      choice := ChooseBackfill(lanes, snap, reserved);
    }
  }

  /** Removing the chosen row from its lane is the step of the specification. */
  function Consume(state: Lanes, l: nat, row: Row): Lanes {
    if LaneAt(state, l) == Standard then state.(standard := RemoveRow(state.standard, row))
    else state.(test := RemoveRow(state.test, row))
  }

  lemma ConsumeIsTheStep(state: Lanes, snap: Snapshot, reserved: set<string>, l: nat)
    requires ValidLanes(state) && Choose(state, snap, reserved).Some?
    requires Choose(state, snap, reserved).value.lane == LaneAt(state, l)
    ensures var spec := Choose(state, snap, reserved).value;
            var next := Consume(state, l, spec.planned.row);
            && ValidLanes(next) && next.Size() < state.Size()
            && PlanFrom(state, snap, reserved).planned
               == [spec.planned] + PlanFrom(next, snap, reserved + {spec.planned.selected.server.machineId}).planned
            && PlanFrom(state, snap, reserved).rest
               == PlanFrom(next, snap, reserved + {spec.planned.selected.server.machineId}).rest
  {
    hide Choose, PlanFrom, ValidLanes;
    var spec := Choose(state, snap, reserved).value;
    ConsumeIsWithout(state, l, spec.lane, spec.index);
    WithoutKeepsValid(state, spec.lane, spec.index);
    PlanUnrolls(state, snap, reserved);
  }

  lemma ConsumeIsWithout(state: Lanes, l: nat, lane: WorkloadClass, k: nat)
    requires ValidLanes(state) && lane == LaneAt(state, l) && k < |state.Of(lane)|
    ensures Consume(state, l, state.Of(lane)[k]) == state.Without(lane, k)
            && state.Without(lane, k).Size() < state.Size()
  {
    RemoveRowAt(state.Of(lane), k);
  }

  lemma PlanUnrolls(state: Lanes, snap: Snapshot, reserved: set<string>)
    requires Choose(state, snap, reserved).Some?
    ensures var c := Choose(state, snap, reserved).value;
            var later := PlanFrom(state.Without(c.lane, c.index), snap, reserved + {c.planned.selected.server.machineId});
            PlanFrom(state, snap, reserved) == later.(planned := [c.planned] + later.planned)
  {
    hide Choose;
  }

  lemma PlanStops(state: Lanes, snap: Snapshot, reserved: set<string>)
    requires NonEmpty(state) == [] || Choose(state, snap, reserved).None?
    ensures PlanFrom(state, snap, reserved) == Outcome([], state, reserved)
  {
  }

  method PlanDispatchBatch(queued: seq<Row>, snap: Snapshot) returns (planned: seq<Planned>, terminal: Terminal)
    requires ValidQueue(queued)
    ensures planned == Plan(queued, snap).planned
    ensures terminal == TerminalOf(Plan(queued, snap).rest)
  {
    hide Choose, SplitLanes, RemoveRow, PlanFrom, ValidQueue, Consume;
    var state := SplitLanes(queued);
    SplitLanesAreValid(queued);
    var reserved: set<string> := {};
    planned := [];
    terminal := Idle;
    while NonEmpty(state) != []
      invariant ValidLanes(state)
      invariant Plan(queued, snap).planned == planned + PlanFrom(state, snap, reserved).planned
      invariant Plan(queued, snap).rest == PlanFrom(state, snap, reserved).rest
      invariant terminal == Idle
      decreases state.Size()
    {
      var choice, blocked := ChooseDispatch(state, snap, reserved);
      if choice.None? {
        PlanStops(state, snap, reserved);
        terminal := Blocked(blocked[0]);
        return;
      }
      var (choiceLane, dispatch) := choice.value;
      ConsumeIsTheStep(state, snap, reserved, choiceLane);
      planned := planned + [dispatch];
      reserved := reserved + {dispatch.selected.server.machineId};
      state := Consume(state, choiceLane, dispatch.row);
    }
    PlanStops(state, snap, reserved);
  }

  lemma {:induction false} FilterKeepsValidQueue(keep: Row -> bool, rows: seq<Row>)
    requires ValidQueue(rows)
    ensures ValidQueue(Filter(keep, rows))
  {
    if rows != [] {
      FilterKeepsValidQueue(keep, rows[1..]);
      var tail := Filter(keep, rows[1..]);
      forall i | 0 <= i < |tail| ensures tail[i].job.runId != rows[0].job.runId {
        assert tail[i] in rows[1..];
      }
    }
  }

  lemma SplitLanesAreValid(queued: seq<Row>)
    requires ValidQueue(queued)
    ensures ValidLanes(SplitLanes(queued))
  {
    FilterKeepsValidQueue((row: Row) => row.job.workloadClass == Standard, queued);
    FilterKeepsValidQueue((row: Row) => row.job.workloadClass == Test, queued);
  }
}
