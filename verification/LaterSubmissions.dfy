/** What jobs submitted later do to the plan of the jobs already queued: the earlier plan stays a
    prefix of the later one exactly when no later job gets a turn before a dispatch of the
    earlier plan. */
module LaterSubmissions {
  import opened Common
  import opened Placement
  import opened BatchPlanner
  import opened PlannerTheorems

  /** The lanes after more rows were queued behind them. */
  function Behind(lanes: Lanes, extra: Lanes): Lanes {
    Lanes(lanes.standard + extra.standard, lanes.test + extra.test)
  }

  /** Row `j` of a lane has a machine that no row before it in the lane could use. */
  predicate Placeable(rows: seq<Row>, j: nat, snap: Snapshot, reserved: set<string>)
    requires j < |rows|
  {
    Candidates(rows[j].job, snap, reserved, Shield(rows[..j], snap.drained)) != []
  }

  /** Some row queued behind the lanes gets its turn before the choice `lane`, `index`. Heads are
      tried before backfill and the standard lane before the test lane, so a choice is preceded by
      - nothing, when it is the standard head;
      - a later standard row that heads an otherwise empty lane, when it is the test head;
      - a later test row that heads an otherwise empty lane, when it is standard backfill;
      - any later standard row, when it is test backfill. */
  predicate EarlierTurn(lanes: Lanes, extra: Lanes, lane: WorkloadClass, index: nat, snap: Snapshot,
                        reserved: set<string>)
  {
    if lane == Standard then
      index > 0 && lanes.test == [] && extra.test != [] && Placeable(extra.test, 0, snap, reserved)
    else if index == 0 then
      lanes.standard == [] && extra.standard != [] && Placeable(extra.standard, 0, snap, reserved)
    else
      exists j :: |lanes.standard| <= j < |lanes.standard + extra.standard|
                  && Placeable(lanes.standard + extra.standard, j, snap, reserved)
  }

  /** At no step of the plan for `lanes` does a later row get an earlier turn. */
  predicate Undisturbed(lanes: Lanes, extra: Lanes, snap: Snapshot, reserved: set<string>)
    decreases lanes.Size()
  {
    var choice := Choose(lanes, snap, reserved);
    choice.None? ||
    var c := choice.value;
    && !EarlierTurn(lanes, extra, c.lane, c.index, snap, reserved)
    && Undisturbed(lanes.Without(c.lane, c.index), extra, snap, reserved + {c.planned.selected.server.machineId})
  }

  // ---------- one choice with more rows ----------

  lemma {:induction false} LanePickWithMoreRows(lane: seq<Row>, extra: seq<Row>, k: nat, snap: Snapshot,
                                                reserved: set<string>, shielded: set<string>)
    requires k <= |lane| && LanePick(lane, k, snap, reserved, shielded).Some?
    ensures LanePick(lane + extra, k, snap, reserved, shielded) == LanePick(lane, k, snap, reserved, shielded)
    decreases |lane| - k
  {
    hide Candidates, UndrainedMachines;
    if Candidates(lane[k].job, snap, reserved, shielded) == [] {
      LanePickWithMoreRows(lane, extra, k + 1, snap, reserved, shielded + UndrainedMachines(lane[k].job, snap.drained));
    }
  }

  lemma HeadWithMoreRows(rows: seq<Row>, extra: seq<Row>, snap: Snapshot, reserved: set<string>)
    ensures PickHead(rows + extra, snap, reserved)
         == if rows == [] then PickHead(extra, snap, reserved) else PickHead(rows, snap, reserved)
  {
    if rows == [] { assert rows + extra == extra; }
  }

  lemma BackfillWithMoreRows(rows: seq<Row>, extra: seq<Row>, snap: Snapshot, reserved: set<string>)
    requires PickBackfill(rows, snap, reserved).Some?
    ensures PickBackfill(rows + extra, snap, reserved) == PickBackfill(rows, snap, reserved)
  {
    hide LanePick, UndrainedMachines;
    LanePickWithMoreRows(rows, extra, 1, snap, reserved, UndrainedMachines(rows[0].job, snap.drained));
  }

  lemma HeadIsPlaceable(rows: seq<Row>, snap: Snapshot, reserved: set<string>)
    ensures PickHead(rows, snap, reserved).Some? <==> rows != [] && Placeable(rows, 0, snap, reserved)
  {
    hide Candidates;
    assert rows[..0] == [];
  }

  /** A lane offers no head and no backfill exactly when none of its rows is placeable. */
  lemma NoTurnMeansFrozen(rows: seq<Row>, snap: Snapshot, reserved: set<string>)
    ensures PickHead(rows, snap, reserved).None? && PickBackfill(rows, snap, reserved).None?
       <==> forall j :: 0 <= j < |rows| ==> !Placeable(rows, j, snap, reserved)
  {
    hide Candidates, Shield;
    HeadIsFirst(rows, snap, reserved);
    if PickHead(rows, snap, reserved).None? { BackfillIsFirst(rows, snap, reserved); }
    if PickHead(rows, snap, reserved).Some? {
      assert Placeable(rows, 0, snap, reserved);
    } else if PickBackfill(rows, snap, reserved).Some? {
      assert Placeable(rows, PickBackfill(rows, snap, reserved).value.0, snap, reserved);
    }
  }

  /** More rows behind a lane without a turn give it one exactly when one of them is placeable. */
  lemma TurnOfLaterRows(rows: seq<Row>, extra: seq<Row>, snap: Snapshot, reserved: set<string>)
    requires PickHead(rows, snap, reserved).None? && PickBackfill(rows, snap, reserved).None?
    ensures PickHead(rows + extra, snap, reserved).Some? || PickBackfill(rows + extra, snap, reserved).Some?
       <==> exists j :: |rows| <= j < |rows + extra| && Placeable(rows + extra, j, snap, reserved)
  {
    hide Candidates, Shield, PickHead, PickBackfill;
    NoTurnMeansFrozen(rows, snap, reserved);
    NoTurnMeansFrozen(rows + extra, snap, reserved);
    forall j | 0 <= j < |rows| ensures !Placeable(rows + extra, j, snap, reserved) {
      assert !Placeable(rows, j, snap, reserved);
      assert (rows + extra)[..j] == rows[..j];
    }
  }

  /** The choice is the same if no later row gets an earlier turn, and is made in the other lane otherwise. */
  lemma ChoiceWithMoreRows(lanes: Lanes, extra: Lanes, snap: Snapshot, reserved: set<string>)
    requires Choose(lanes, snap, reserved).Some?
    ensures var c := Choose(lanes, snap, reserved).value;
            var more := Choose(Behind(lanes, extra), snap, reserved);
            && (!EarlierTurn(lanes, extra, c.lane, c.index, snap, reserved) ==> more == Some(c))
            && (EarlierTurn(lanes, extra, c.lane, c.index, snap, reserved) ==> more.Some? && more.value.lane != c.lane)
  {
    hide PickHead, PickBackfill, Placeable;
    HeadWithMoreRows(lanes.standard, extra.standard, snap, reserved);
    HeadWithMoreRows(lanes.test, extra.test, snap, reserved);
    HeadIsPlaceable(extra.standard, snap, reserved);
    HeadIsPlaceable(extra.test, snap, reserved);
    if PickBackfill(lanes.standard, snap, reserved).Some? { BackfillWithMoreRows(lanes.standard, extra.standard, snap, reserved); }
    if PickBackfill(lanes.test, snap, reserved).Some? { BackfillWithMoreRows(lanes.test, extra.test, snap, reserved); }
    if PickHead(lanes.standard, snap, reserved).None? && PickBackfill(lanes.standard, snap, reserved).None? {
      TurnOfLaterRows(lanes.standard, extra.standard, snap, reserved);
    }
    NoBackfillWithoutHead(lanes.standard, snap, reserved);
    NoBackfillWithoutHead(lanes.test, snap, reserved);
  }

  lemma NoBackfillWithoutHead(rows: seq<Row>, snap: Snapshot, reserved: set<string>)
    ensures rows == [] ==> PickBackfill(rows, snap, reserved).None? && PickHead(rows, snap, reserved).None?
    ensures PickHead(rows, snap, reserved).Some? ==> PickHead(rows, snap, reserved).value.row == rows[0]
  {
  }

  // ---------- the whole plan with more rows ----------

  lemma WithoutBehind(lanes: Lanes, extra: Lanes, lane: WorkloadClass, k: nat)
    requires k < |lanes.Of(lane)|
    ensures Behind(lanes, extra).Without(lane, k) == Behind(lanes.Without(lane, k), extra)
  {
    var rows, more := lanes.Of(lane), extra.Of(lane);
    assert (rows + more)[..k] + (rows + more)[k + 1..] == rows[..k] + rows[k + 1..] + more;
  }

  lemma PlanStep(lanes: Lanes, snap: Snapshot, reserved: set<string>)
    requires Choose(lanes, snap, reserved).Some?
    ensures var c := Choose(lanes, snap, reserved).value;
            PlanFrom(lanes, snap, reserved).planned
            == [c.planned] + PlanFrom(lanes.Without(c.lane, c.index), snap,
                                      reserved + {c.planned.selected.server.machineId}).planned
  {
    hide Choose;
  }

  lemma TaggedBehind(lanes: Lanes, extra: Lanes)
    requires Tagged(lanes) && Tagged(extra)
    ensures Tagged(Behind(lanes, extra))
  {
  }

  lemma ChosenRowIsTagged(lanes: Lanes, snap: Snapshot, reserved: set<string>)
    requires Tagged(lanes) && Choose(lanes, snap, reserved).Some?
    ensures Choose(lanes, snap, reserved).value.planned.row.job.workloadClass == Choose(lanes, snap, reserved).value.lane
  {
    hide PickHead, PickBackfill;
  }

  /** From any planning state: later rows leave the plan a prefix exactly when they disturb no step of it. */
  lemma {:induction false} PlanWithMoreRows(lanes: Lanes, extra: Lanes, snap: Snapshot, reserved: set<string>)
    requires Tagged(lanes) && Tagged(extra)
    ensures PlanFrom(lanes, snap, reserved).planned <= PlanFrom(Behind(lanes, extra), snap, reserved).planned
       <==> Undisturbed(lanes, extra, snap, reserved)
    decreases lanes.Size()
  {
    hide Choose, PlanFrom, EarlierTurn, Tagged;
    var choice := Choose(lanes, snap, reserved);
    if choice.None? {
      PlanStops(lanes, snap, reserved);
    } else {
      var c := choice.value;
      var more := Behind(lanes, extra);
      ChoiceWithMoreRows(lanes, extra, snap, reserved);
      PlanStep(lanes, snap, reserved);
      PlanStep(more, snap, reserved);
      if EarlierTurn(lanes, extra, c.lane, c.index, snap, reserved) {
        TaggedBehind(lanes, extra);
        ChosenRowIsTagged(lanes, snap, reserved);
        ChosenRowIsTagged(more, snap, reserved);
        assert PlanFrom(lanes, snap, reserved).planned[0] != PlanFrom(more, snap, reserved).planned[0];
      } else {
        var next := lanes.Without(c.lane, c.index);
        var reserved' := reserved + {c.planned.selected.server.machineId};
        WithoutBehind(lanes, extra, c.lane, c.index);
        WithoutKeepsTagged(lanes, c.lane, c.index);
        PlanWithMoreRows(next, extra, snap, reserved');
        PrefixBehindHead(c.planned, PlanFrom(next, snap, reserved').planned, PlanFrom(Behind(next, extra), snap, reserved').planned);
      }
    }
  }

  lemma PrefixBehindHead(p: Planned, xs: seq<Planned>, ys: seq<Planned>)
    ensures [p] + xs <= [p] + ys <==> xs <= ys
  {
    if [p] + xs <= [p] + ys {
      assert xs == ([p] + xs)[1..] && ys == ([p] + ys)[1..];
      assert ([p] + ys)[..|xs| + 1] == [p] + xs;
      assert ys[..|xs|] == ([p] + ys)[..|xs| + 1][1..];
    }
  }

  lemma SplitBehind(queued: seq<Row>, k: nat)
    requires k <= |queued|
    ensures SplitLanes(queued) == Behind(SplitLanes(queued[..k]), SplitLanes(queued[k..]))
  {
    assert queued == queued[..k] + queued[k..];
    FilterAppend((row: Row) => row.job.workloadClass == Standard, queued[..k], queued[k..]);
    FilterAppend((row: Row) => row.job.workloadClass == Test, queued[..k], queued[k..]);
  }

  /** MAIN: whatever is submitted later, what the first `k` jobs were to get stays exactly as it was
      if and only if no later job gets an earlier turn at some step of their plan. */
  lemma PrefixStabilityExactly(queued: seq<Row>, k: nat, snap: Snapshot)
    requires k <= |queued|
    ensures Plan(queued[..k], snap).planned <= Plan(queued, snap).planned
       <==> Undisturbed(SplitLanes(queued[..k]), SplitLanes(queued[k..]), snap, {})
  {
    hide SplitLanes, PlanFrom, Undisturbed;
    SplitBehind(queued, k);
    SplitLanesAreTagged(queued[..k]);
    SplitLanesAreTagged(queued[k..]);
    PlanWithMoreRows(SplitLanes(queued[..k]), SplitLanes(queued[k..]), snap, {});
  }

  function OneLane(lane: WorkloadClass, rows: seq<Row>): Lanes {
    if lane == Standard then Lanes(rows, []) else Lanes([], rows)
  }

  lemma {:induction false} OneClassLanes(queued: seq<Row>, lane: WorkloadClass)
    requires forall r :: r in queued ==> r.job.workloadClass == lane
    ensures SplitLanes(queued) == OneLane(lane, queued)
  {
    if queued != [] {
      OneClassLanes(queued[1..], lane);
      assert queued[0] in queued && queued == [queued[0]] + queued[1..];
    }
  }

  lemma OneLaneStep(lane: WorkloadClass, rows: seq<Row>, extra: seq<Row>, snap: Snapshot, reserved: set<string>)
    requires Choose(OneLane(lane, rows), snap, reserved).Some?
    ensures var c := Choose(OneLane(lane, rows), snap, reserved).value;
            && c.lane == lane && c.index < |rows|
            && OneLane(lane, rows).Without(lane, c.index) == OneLane(lane, rows[..c.index] + rows[c.index + 1..])
            && !EarlierTurn(OneLane(lane, rows), OneLane(lane, extra), lane, c.index, snap, reserved)
  {
    hide Placeable, PickHead, PickBackfill;
    NoBackfillWithoutHead([], snap, reserved);
  }

  lemma {:induction false} OneLaneIsUndisturbed(lane: WorkloadClass, rows: seq<Row>, extra: seq<Row>, snap: Snapshot,
                                                reserved: set<string>)
    ensures Undisturbed(OneLane(lane, rows), OneLane(lane, extra), snap, reserved)
    decreases |rows|
  {
    hide Choose, EarlierTurn, OneLane;
    var choice := Choose(OneLane(lane, rows), snap, reserved);
    if choice.Some? {
      var c := choice.value;
      OneLaneStep(lane, rows, extra, snap, reserved);
      OneLaneIsUndisturbed(lane, rows[..c.index] + rows[c.index + 1..], extra, snap,
                           reserved + {c.planned.selected.server.machineId});
    }
  }

  /** MAIN: on a one-lane queue, later submissions never change what earlier jobs get. */
  lemma PrefixStability(queued: seq<Row>, k: nat, lane: WorkloadClass, snap: Snapshot)
    requires k <= |queued| && forall r :: r in queued ==> r.job.workloadClass == lane
    ensures Plan(queued[..k], snap).planned <= Plan(queued, snap).planned
  {
    hide Plan, Undisturbed;
    OneClassLanes(queued[..k], lane);
    OneClassLanes(queued[k..], lane);
    OneLaneIsUndisturbed(lane, queued[..k], queued[k..], snap, {});
    PrefixStabilityExactly(queued, k, snap);
  }

  /** On a two-lane queue the same is false: a standard job submitted after a test job takes the
      test job's machine, because standard heads are tried first. */
  lemma TwoLanesCanBeDisturbed() returns (queued: seq<Row>, k: nat, snap: Snapshot)
    ensures ValidQueue(queued) && k <= |queued|
    ensures !(Plan(queued[..k], snap).planned <= Plan(queued, snap).planned)
  {
    hide Candidates, SplitLanes, PlanFrom, ValidQueue;
    var server := Server("a", "a", None, 4, 0, "");
    snap := Snapshot(map[Key(server) := ProbeExample(server)], {});
    var test := Row(Job("t", Test, Some(1), [server], []), 0);
    var standard := Row(Job("s", Standard, Some(1), [server], []), 0);
    queued, k := [test, standard], 1;
    ValidExample(test, standard, server);
    OnlyServer(test.job, server, snap);
    OnlyServer(standard.job, server, snap);
    SplitExample(test, standard);
    assert queued[..k] == [test];
    DisturbedExample(test, standard, snap);
  }

  lemma ValidExample(test: Row, standard: Row, server: Server)
    requires test.job == Job("t", Test, Some(1), [server], [])
             && standard.job == Job("s", Standard, Some(1), [server], [])
    ensures ValidQueue([test, standard])
  {
  }

  lemma DisturbedExample(test: Row, standard: Row, snap: Snapshot)
    requires test != standard && SplitLanes([test]) == Lanes([], [test])
             && SplitLanes([test, standard]) == Lanes([standard], [test])
    requires Candidates(test.job, snap, {}, {}) != [] && Candidates(standard.job, snap, {}, {}) != []
    ensures !(Plan([test], snap).planned <= Plan([test, standard], snap).planned)
  {
    hide Candidates, SplitLanes, PlanFrom;
    FirstDispatch(Lanes([], [test]), Test, snap);
    FirstDispatch(Lanes([standard], [test]), Standard, snap);
  }

  lemma SplitExample(test: Row, standard: Row)
    requires test.job.workloadClass == Test && standard.job.workloadClass == Standard
    ensures SplitLanes([test]) == Lanes([], [test]) && SplitLanes([test, standard]) == Lanes([standard], [test])
  {
    assert [test, standard][1..] == [standard];
    assert LaneOf([test, standard], Standard) == [] + LaneOf([standard], Standard);
    assert LaneOf([test, standard], Test) == [test] + LaneOf([standard], Test);
  }

  lemma FirstDispatch(lanes: Lanes, lane: WorkloadClass, snap: Snapshot)
    requires lanes.Of(lane) != [] && (lane == Test ==> lanes.standard == [])
    requires Candidates(lanes.Of(lane)[0].job, snap, {}, {}) != []
    ensures PlanFrom(lanes, snap, {}).planned != [] && PlanFrom(lanes, snap, {}).planned[0].row == lanes.Of(lane)[0]
  {
    hide Candidates;
  }

  function ProbeExample(server: Server): (p: Probed)
    ensures p.server == server && p.active == [] && p.standardSlots == 1 && p.testSlots == 1
            && p.capacity.configuredCores == server.configuredCores
  {
    ProbeServer(server, 1, 1, [], 0.0).value
  }

  lemma OnlyServer(job: Job, server: Server, snap: Snapshot)
    requires job.prepared == [server] && job.eligibleNames == [] && job.requestedCores == Some(1)
    requires snap.drained == {} && snap.reachable == map[Key(server) := ProbeExample(server)]
    ensures Candidates(job, snap, {}, {}) != []
  {
    CandidatesAreUsable(job, snap, {}, {});
    assert server in EligibleServers(job) && Usable(job, server, snap, {});
  }
}
