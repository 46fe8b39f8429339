/** A plan can be carried out as a whole and leaves nothing placeable behind. */
module PlanSoundness {
  import opened Common
  import opened Placement
  import opened BatchPlanner
  import opened PlannerTheorems

  function Machine(p: Planned): string { p.selected.server.machineId }

  /** The machine was open and had room for the job in the snapshot. */
  ghost predicate SelectedFits(p: Planned, snap: Snapshot, reserved: set<string>) {
    && p.selected.server in EligibleServers(p.row.job)
    && Usable(p.row.job, p.selected.server, snap, reserved)
    && p.selected == snap.reachable[Key(p.selected.server)].(server := p.selected.server)
  }

  lemma ChosenFits(lanes: Lanes, snap: Snapshot, reserved: set<string>)
    requires Choose(lanes, snap, reserved).Some?
    ensures SelectedFits(Choose(lanes, snap, reserved).value.planned, snap, reserved)
  {
    ChooseIsFirst(lanes, snap, reserved);
    var c := Choose(lanes, snap, reserved).value;
    var rows := lanes.Of(c.lane);
    hide Choose, Candidates, Shield;
    var shield := Shield(rows[..c.index], snap.drained);
    CandidatesAreUsable(rows[c.index].job, snap, reserved, shield);
    assert c.planned.selected in Candidates(rows[c.index].job, snap, reserved, shield);
  }

  ghost predicate DistinctMachines(planned: seq<Planned>) {
    forall i, j :: 0 <= i < j < |planned| ==> Machine(planned[i]) != Machine(planned[j])
  }

  function Machines(planned: seq<Planned>): set<string> {
    if planned == [] then {} else {Machine(planned[0])} + Machines(planned[1..])
  }

  lemma UsableWithFewerReserved(p: Planned, snap: Snapshot, reserved: set<string>, reserved': set<string>)
    requires SelectedFits(p, snap, reserved') && reserved <= reserved'
    ensures SelectedFits(p, snap, reserved) && Machine(p) !in reserved'
  {
  }

  /** Every dispatch fits, on a machine of its own. */
  ghost predicate AllFit(planned: seq<Planned>, snap: Snapshot, reserved: set<string>) {
    && (forall i :: 0 <= i < |planned| ==> SelectedFits(planned[i], snap, reserved))
    && DistinctMachines(planned)
  }

  lemma OneMoreFits(p: Planned, later: seq<Planned>, snap: Snapshot, reserved: set<string>)
    requires SelectedFits(p, snap, reserved) && AllFit(later, snap, reserved + {Machine(p)})
    ensures AllFit([p] + later, snap, reserved)
  {
    var reserved' := reserved + {Machine(p)};
    forall i | 0 <= i < |later| ensures SelectedFits(later[i], snap, reserved) && Machine(later[i]) !in reserved' {
      UsableWithFewerReserved(later[i], snap, reserved, reserved');
    }
  }

  lemma {:induction false} PlansFit(lanes: Lanes, snap: Snapshot, reserved: set<string>)
    ensures var out := PlanFrom(lanes, snap, reserved);
            AllFit(out.planned, snap, reserved) && out.reserved == reserved + Machines(out.planned)
    decreases lanes.Size()
  {
    var choice := Choose(lanes, snap, reserved);
    if choice.Some? {
      ChosenFits(lanes, snap, reserved);
      hide Choose, SelectedFits, AllFit;
      var c := choice.value;
      var reserved' := reserved + {Machine(c.planned)};
      PlansFit(lanes.Without(c.lane, c.index), snap, reserved');
      var later := PlanFrom(lanes.Without(c.lane, c.index), snap, reserved');
      OneMoreFits(c.planned, later.planned, snap, reserved);
      assert ([c.planned] + later.planned)[1..] == later.planned;
    }
  }

  // ---------- carrying out the whole plan ----------

  /** Cores a plan adds to a machine. */
  function PlannedCores(planned: seq<Planned>, machine: string): nat {
    if planned == [] then 0
    else (if Machine(planned[0]) == machine then RequestedAllocation(planned[0].row.job, planned[0].selected) else 0)
         + PlannedCores(planned[1..], machine)
  }

  /** Runs of a lane that a plan adds to a machine. */
  function PlannedRuns(planned: seq<Planned>, machine: string, lane: WorkloadClass): nat {
    if planned == [] then 0
    else (if Machine(planned[0]) == machine && planned[0].row.job.workloadClass == lane then 1 else 0)
         + PlannedRuns(planned[1..], machine, lane)
  }

  lemma {:induction false} UntouchedMachine(planned: seq<Planned>, machine: string)
    requires forall i :: 0 <= i < |planned| ==> Machine(planned[i]) != machine
    ensures PlannedCores(planned, machine) == 0
    ensures forall lane :: PlannedRuns(planned, machine, lane) == 0
  {
    if planned != [] { UntouchedMachine(planned[1..], machine); }
  }

  lemma {:induction false} OneDispatchPerMachine(planned: seq<Planned>, i: nat)
    requires DistinctMachines(planned) && i < |planned|
    ensures PlannedCores(planned, Machine(planned[i])) == RequestedAllocation(planned[i].row.job, planned[i].selected)
    ensures forall lane :: PlannedRuns(planned, Machine(planned[i]), lane)
                           == if planned[i].row.job.workloadClass == lane then 1 else 0
  {
    if i == 0 {
      forall j | 0 <= j < |planned[1..]| ensures Machine(planned[1..][j]) != Machine(planned[0]) {
        assert planned[1..][j] == planned[j + 1];
      }
      UntouchedMachine(planned[1..], Machine(planned[0]));
    } else {
      forall a, b | 0 <= a < b < |planned[1..]| ensures Machine(planned[1..][a]) != Machine(planned[1..][b]) {
        assert planned[1..][a] == planned[a + 1] && planned[1..][b] == planned[b + 1];
      }
      OneDispatchPerMachine(planned[1..], i - 1);
    }
  }

  /** MAIN: machines are pairwise distinct and undrained; launching the whole plan on the machines
      the snapshot saw keeps each within its cores and the used lane within its slots, and adds
      nothing to the other lane; a job
      without requested cores lands only on a machine with no active run. */
  lemma PlanIsSound(queued: seq<Row>, snap: Snapshot)
    ensures var planned := Plan(queued, snap).planned;
            && DistinctMachines(planned)
            && forall i :: 0 <= i < |planned| ==>
                 var p := planned[i];
                 && Machine(p) !in snap.drained && p.selected.server in EligibleServers(p.row.job)
                 && AssignedCores(p.selected.active) + PlannedCores(planned, Machine(p)) <= p.selected.capacity.configuredCores
                 && LaneCount(p.selected.active, p.row.job.workloadClass)
                    + PlannedRuns(planned, Machine(p), p.row.job.workloadClass) <= Slots(p.selected, p.row.job.workloadClass)
                 && (forall lane :: lane != p.row.job.workloadClass ==> PlannedRuns(planned, Machine(p), lane) == 0)
                 && (p.row.job.requestedCores.None? ==> p.selected.active == [])
  {
    var planned := Plan(queued, snap).planned;
    PlansFit(SplitLanes(queued), snap, {});
    forall i | 0 <= i < |planned|
      ensures var p := planned[i];
              && Machine(p) !in snap.drained && p.selected.server in EligibleServers(p.row.job)
              && AssignedCores(p.selected.active) + PlannedCores(planned, Machine(p)) <= p.selected.capacity.configuredCores
              && LaneCount(p.selected.active, p.row.job.workloadClass)
                 + PlannedRuns(planned, Machine(p), p.row.job.workloadClass) <= Slots(p.selected, p.row.job.workloadClass)
              && (forall lane :: lane != p.row.job.workloadClass ==> PlannedRuns(planned, Machine(p), lane) == 0)
              && (p.row.job.requestedCores.None? ==> p.selected.active == [])
    {
      var p := planned[i];
      assert SelectedFits(p, snap, {});
      OneDispatchPerMachine(planned, i);
      assert HasWorkloadCapacity(p.row.job, snap.reachable[Key(p.selected.server)]);
      assert HasWorkloadCapacity(p.row.job, p.selected);
      if p.row.job.requestedCores.None? { WholeMachineNeedsIdleMachine(p.row.job, p.selected); }
    }
  }

  // ---------- nothing placeable is left ----------

  lemma {:induction false} ShieldMembers(rows: seq<Row>, drained: set<string>, m: string)
    ensures m in Shield(rows, drained) <==>
              exists h, s :: 0 <= h < |rows| && s in EligibleServers(rows[h].job) && s.machineId !in drained && s.machineId == m
  {
    if rows != [] {
      var front := rows[..|rows| - 1];
      ShieldMembers(front, drained, m);
      assert rows == front + [rows[|rows| - 1]];
      if m in Shield(rows, drained) && m !in Shield(front, drained) {
        var s :| s in EligibleServers(rows[|rows| - 1].job) && s.machineId !in drained && s.machineId == m;
        assert rows[|rows| - 1].job == rows[|rows| - 1].job;
      }
      if h, s :| 0 <= h < |rows| && s in EligibleServers(rows[h].job) && s.machineId !in drained && s.machineId == m {
        if h < |front| { assert front[h] == rows[h]; }
      }
    }
  }

  lemma {:induction false} PlanningStopsFrozen(lanes: Lanes, lane: WorkloadClass, snap: Snapshot, reserved: set<string>)
    ensures var out := PlanFrom(lanes, snap, reserved);
            Frozen(out.rest.Of(lane), |out.rest.Of(lane)|, snap, out.reserved)
    decreases lanes.Size()
  {
    hide Frozen, Choose;
    var choice := Choose(lanes, snap, reserved);
    if choice.None? {
      ChooseIsFirst(lanes, snap, reserved);
    } else {
      var c := choice.value;
      PlanningStopsFrozen(lanes.Without(c.lane, c.index), lane, snap, reserved + {Machine(c.planned)});
    }
  }

  /** MAIN: a machine a remaining row could still use is an eligible, undrained machine of an earlier
      remaining row of its lane; the head of a remaining lane can use none. */
  lemma PlanIsMaximal(queued: seq<Row>, snap: Snapshot, lane: WorkloadClass, i: nat, s: Server)
    requires i < |Plan(queued, snap).rest.Of(lane)|
    requires s in EligibleServers(Plan(queued, snap).rest.Of(lane)[i].job)
    requires Usable(Plan(queued, snap).rest.Of(lane)[i].job, s, snap, Machines(Plan(queued, snap).planned))
    ensures exists h, t :: 0 <= h < i && t in EligibleServers(Plan(queued, snap).rest.Of(lane)[h].job)
                           && t.machineId !in snap.drained && t.machineId == s.machineId
  {
    hide Choose, Candidates;
    var out := Plan(queued, snap);
    var rest := out.rest.Of(lane);
    PlansFit(SplitLanes(queued), snap, {});
    assert out.reserved == Machines(out.planned);
    PlanningStopsFrozen(SplitLanes(queued), lane, snap, {});
    var shield := Shield(rest[..i], snap.drained);
    assert Candidates(rest[i].job, snap, out.reserved, shield) == [];
    CandidatesAreUsable(rest[i].job, snap, out.reserved, shield);
    ShieldMembers(rest[..i], snap.drained, s.machineId);
    var h, t :| 0 <= h < |rest[..i]| && t in EligibleServers(rest[..i][h].job) && t.machineId !in snap.drained && t.machineId == s.machineId;
    assert rest[..i][h] == rest[h];
  }

  lemma {:induction false} FilterPartition(queued: seq<Row>)
    ensures multiset(queued) == multiset(LaneOf(queued, Standard)) + multiset(LaneOf(queued, Test))
  {
    if queued != [] {
      assert queued == [queued[0]] + queued[1..];
      FilterPartition(queued[1..]);
      var row := queued[0];
      assert LaneOf(queued, Standard) == (if row.job.workloadClass == Standard then [row] else []) + LaneOf(queued[1..], Standard);
      assert LaneOf(queued, Test) == (if row.job.workloadClass == Test then [row] else []) + LaneOf(queued[1..], Test);
    }
  }

  lemma {:induction false} SplitPlanned(planned: seq<Planned>)
    ensures multiset(Rows(planned)) == multiset(Rows(PlannedIn(planned, Standard))) + multiset(Rows(PlannedIn(planned, Test)))
  {
    if planned != [] {
      SplitPlanned(planned[1..]);
      PlannedInStep(planned, Standard);
      PlannedInStep(planned, Test);
    }
  }

  lemma PlannedInStep(planned: seq<Planned>, lane: WorkloadClass)
    requires planned != []
    ensures multiset(Rows(planned)) == multiset{planned[0].row} + multiset(Rows(planned[1..]))
    ensures multiset(Rows(PlannedIn(planned, lane)))
         == (if planned[0].row.job.workloadClass == lane then multiset{planned[0].row} else multiset{})
            + multiset(Rows(PlannedIn(planned[1..], lane)))
  {
    assert Rows(planned) == [planned[0].row] + Rows(planned[1..]);
    var later := PlannedIn(planned[1..], lane);
    if planned[0].row.job.workloadClass == lane {
      assert PlannedIn(planned, lane) == [planned[0]] + later;
      assert ([planned[0]] + later)[1..] == later;
      assert Rows([planned[0]] + later) == [planned[0].row] + Rows(later);
    } else {
      assert PlannedIn(planned, lane) == later;
    }
  }

  lemma PlannedOrLeft(queued: seq<Row>, snap: Snapshot)
    requires ValidQueue(queued)
    ensures var out := Plan(queued, snap);
            && multiset(queued) == multiset(Rows(out.planned)) + (multiset(out.rest.standard) + multiset(out.rest.test))
            && |Rows(out.planned)| == |out.planned|
  {
    hide Plan, ValidQueue, Rows, PlannedIn, LaneOf, LeftOf, InLaneOrder;
    var out := Plan(queued, snap);
    LaneOrderIsPreserved(queued, snap, Standard);
    LaneOrderIsPreserved(queued, snap, Test);
    FilterPartition(queued);
    SplitPlanned(out.planned);
    TwoLanesAddUp(multiset(LaneOf(queued, Standard)), multiset(LaneOf(queued, Test)),
                  multiset(Rows(PlannedIn(out.planned, Standard))), multiset(Rows(PlannedIn(out.planned, Test))),
                  multiset(out.rest.Of(Standard)), multiset(out.rest.Of(Test)));
    assert out.rest.Of(Standard) == out.rest.standard && out.rest.Of(Test) == out.rest.test;
  }

  lemma TwoLanesAddUp(a: multiset<Row>, b: multiset<Row>, plannedA: multiset<Row>, plannedB: multiset<Row>,
                      leftA: multiset<Row>, leftB: multiset<Row>)
    requires plannedA + leftA == a && plannedB + leftB == b
    ensures a + b == (plannedA + plannedB) + (leftA + leftB)
  {
  }

  /** MAIN: planning ends idle exactly when every queued job is planned; otherwise it names the
      first remaining head. */
  lemma IdleMeansEverythingPlanned(queued: seq<Row>, snap: Snapshot)
    requires ValidQueue(queued)
    ensures TerminalOf(Plan(queued, snap).rest) == Idle <==> multiset(Rows(Plan(queued, snap).planned)) == multiset(queued)
    ensures TerminalOf(Plan(queued, snap).rest) == Idle <==> |Plan(queued, snap).planned| == |queued|
  {
    hide Plan, ValidQueue, Rows;
    var out := Plan(queued, snap);
    PlannedOrLeft(queued, snap);
    var left := multiset(out.rest.standard) + multiset(out.rest.test);
    assert |multiset(queued)| == |queued| && |multiset(Rows(out.planned))| == |out.planned|;
    assert |left| == |out.rest.standard| + |out.rest.test|;
  }

  /** No run is planned twice. */
  lemma PlannedRunsAreDistinct(queued: seq<Row>, snap: Snapshot, i: nat, j: nat)
    requires ValidQueue(queued) && i < j < |Plan(queued, snap).planned|
    ensures Plan(queued, snap).planned[i].row.job.runId != Plan(queued, snap).planned[j].row.job.runId
  {
    var rows := Rows(Plan(queued, snap).planned);
    PlannedRowsAreQueued(queued, snap);
    hide Plan;
    PartOfDistinct(rows, queued, i, j);
  }

  lemma PlannedRowsAreQueued(queued: seq<Row>, snap: Snapshot)
    requires ValidQueue(queued)
    ensures multiset(Rows(Plan(queued, snap).planned)) <= multiset(queued)
  {
    LaneOrderIsPreserved(queued, snap, Standard);
    LaneOrderIsPreserved(queued, snap, Test);
    FilterPartition(queued);
    SplitPlanned(Plan(queued, snap).planned);
  }
}
