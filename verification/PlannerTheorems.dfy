/** What every plan satisfies: lane order, no overtaking, soundness, maximality,
    prefix stability. All of it rests on selection being antitone. */
module PlannerTheorems {
  import opened Common
  import opened Placement
  import opened BatchPlanner

  /** Machines shielded by blocked rows: every undrained machine one of them could use. */
  function Shield(rows: seq<Row>, drained: set<string>): set<string> {
    if rows == [] then {}
    else Shield(rows[..|rows| - 1], drained) + UndrainedMachines(rows[|rows| - 1].job, drained)
  }

  /** The first `k` rows of a lane have been passed over and cannot be placed. */
  ghost predicate Frozen(lane: seq<Row>, k: nat, snap: Snapshot, reserved: set<string>) {
    k <= |lane| && forall i :: 0 <= i < k ==>
      Candidates(lane[i].job, snap, reserved, Shield(lane[..i], snap.drained)) == []
  }

  lemma ShieldGrows(rows: seq<Row>, k: nat, drained: set<string>)
    requires k < |rows|
    ensures Shield(rows[..k + 1], drained) == Shield(rows[..k], drained) + UndrainedMachines(rows[k].job, drained)
  {
    assert rows[..k + 1][..k] == rows[..k];
  }

  lemma FrozenStays(lane: seq<Row>, k: nat, snap: Snapshot, reserved: set<string>, reserved': set<string>)
    requires Frozen(lane, k, snap, reserved) && reserved <= reserved'
    ensures Frozen(lane, k, snap, reserved')
  {
    forall i | 0 <= i < k
      ensures Candidates(lane[i].job, snap, reserved', Shield(lane[..i], snap.drained)) == []
    {
      var shield := Shield(lane[..i], snap.drained);
      SelectionIsAntitone(lane[i].job, snap, reserved, reserved', shield, shield);
    }
  }

  /** The lane scan stops at the first row that can be placed behind the shields of those before it. */
  lemma {:induction false} LanePickIsFirst(lane: seq<Row>, k: nat, snap: Snapshot, reserved: set<string>)
    requires Frozen(lane, k, snap, reserved)
    ensures var pick := LanePick(lane, k, snap, reserved, Shield(lane[..k], snap.drained));
            && (pick.None? ==> Frozen(lane, |lane|, snap, reserved))
            && (pick.Some? ==>
                  var i := pick.value.0;
                  var candidates := Candidates(lane[i].job, snap, reserved, Shield(lane[..i], snap.drained));
                  Frozen(lane, i, snap, reserved) && candidates != [] && pick.value.1 == Dispatch(lane[i], candidates))
    decreases |lane| - k
  {
    if k < |lane| && Candidates(lane[k].job, snap, reserved, Shield(lane[..k], snap.drained)) == [] {
      hide Candidates, Shield;
      ShieldGrows(lane, k, snap.drained);
      LanePickIsFirst(lane, k + 1, snap, reserved);
    }
  }

  /** A chosen dispatch: its row, its candidates behind the shield, and nothing placeable before it. */
  ghost predicate IsFirstPlaceable(lane: seq<Row>, k: nat, p: Planned, snap: Snapshot, reserved: set<string>) {
    && k < |lane| && Frozen(lane, k, snap, reserved)
    && var candidates := Candidates(lane[k].job, snap, reserved, Shield(lane[..k], snap.drained));
       candidates != [] && p == Dispatch(lane[k], candidates)
  }

  lemma HeadIsFirst(lane: seq<Row>, snap: Snapshot, reserved: set<string>)
    ensures var head := PickHead(lane, snap, reserved);
            && (head.Some? ==> IsFirstPlaceable(lane, 0, head.value, snap, reserved))
            && (head.None? && lane != [] ==> Frozen(lane, 1, snap, reserved))
  {
    hide Candidates, UndrainedMachines;
    assert lane[..0] == [];
  }

  lemma BackfillIsFirst(lane: seq<Row>, snap: Snapshot, reserved: set<string>)
    requires PickHead(lane, snap, reserved).None?
    ensures var backfill := PickBackfill(lane, snap, reserved);
            && (backfill.Some? ==> IsFirstPlaceable(lane, backfill.value.0, backfill.value.1, snap, reserved))
            && (backfill.None? ==> Frozen(lane, |lane|, snap, reserved))
  {
    hide Candidates, UndrainedMachines;
    if lane != [] {
      HeadIsFirst(lane, snap, reserved);
      ShieldGrows(lane, 0, snap.drained);
      assert Shield(lane[..0], snap.drained) == {};
      assert Shield(lane[..0 + 1], snap.drained) == UndrainedMachines(lane[0].job, snap.drained);
      LanePickIsFirst(lane, 1, snap, reserved);
    }
  }

  lemma ChooseIsFirst(lanes: Lanes, snap: Snapshot, reserved: set<string>)
    ensures var choice := Choose(lanes, snap, reserved);
            && (choice.Some? ==> IsFirstPlaceable(lanes.Of(choice.value.lane), choice.value.index, choice.value.planned, snap, reserved))
            && (choice.None? ==> Frozen(lanes.standard, |lanes.standard|, snap, reserved)
                                 && Frozen(lanes.test, |lanes.test|, snap, reserved))
  {
    hide Frozen, IsFirstPlaceable, PickHead, PickBackfill;
    HeadIsFirst(lanes.standard, snap, reserved);
    HeadIsFirst(lanes.test, snap, reserved);
    if PickHead(lanes.standard, snap, reserved).None? && PickHead(lanes.test, snap, reserved).None? {
      BackfillIsFirst(lanes.standard, snap, reserved);
      BackfillIsFirst(lanes.test, snap, reserved);
    }
  }

  // ---------- lane fairness ----------

  ghost predicate Avoids(p: Planned, machines: set<string>) {
    && p.selected.server.machineId !in machines
    && forall a :: a in p.alternatives ==> a.server.machineId !in machines
  }

  /** `lane` is an order-preserving merge of the planned rows (in plan order) and the
      remaining rows, and every planned row avoids the machines of remaining rows before it. */
  ghost predicate Fair(lane: seq<Row>, planned: seq<Planned>, rest: seq<Row>, shielded: set<string>,
                       drained: set<string>) {
    if lane == [] then planned == [] && rest == []
    else
      || (planned != [] && planned[0].row == lane[0] && Avoids(planned[0], shielded)
          && Fair(lane[1..], planned[1..], rest, shielded, drained))
      || (rest != [] && rest[0] == lane[0]
          && Fair(lane[1..], planned, rest[1..], shielded + UndrainedMachines(lane[0].job, drained), drained))
  }

  lemma {:induction false} FairWhenNothingIsPlanned(lane: seq<Row>, shielded: set<string>, drained: set<string>)
    ensures Fair(lane, [], lane, shielded, drained)
  {
    if lane != [] {
      FairWhenNothingIsPlanned(lane[1..], shielded + UndrainedMachines(lane[0].job, drained), drained);
    }
  }

  /** Rows that stay in front extend a fair merge to the left. */
  lemma {:induction false} FairBehindFrozen(lane: seq<Row>, planned: seq<Planned>, rest: seq<Row>, f: nat, k: nat,
                                            drained: set<string>)
    requires f <= k <= |lane| && k <= |rest| && rest[..k] == lane[..k]
    requires Fair(lane[k..], planned, rest[k..], Shield(lane[..k], drained), drained)
    ensures Fair(lane[f..], planned, rest[f..], Shield(lane[..f], drained), drained)
    decreases k - f
  {
    if f < k {
      FairBehindFrozen(lane, planned, rest, f + 1, k, drained);
      ShieldGrows(lane, f, drained);
      assert lane[f..][1..] == lane[f + 1..] && rest[f..][1..] == rest[f + 1..];
      assert rest[f] == rest[..k][f] == lane[..k][f] == lane[f];
    }
  }

  /** The dispatches of one lane. */
  function PlannedIn(planned: seq<Planned>, lane: WorkloadClass): seq<Planned> {
    if planned == [] then []
    else (if planned[0].row.job.workloadClass == lane then [planned[0]] else []) + PlannedIn(planned[1..], lane)
  }

  /** Rows sit in the lane of their workload class. */
  ghost predicate Tagged(lanes: Lanes) {
    && (forall i :: 0 <= i < |lanes.standard| ==> lanes.standard[i].job.workloadClass == Standard)
    && (forall i :: 0 <= i < |lanes.test| ==> lanes.test[i].job.workloadClass == Test)
  }

  lemma WithoutKeepsTagged(lanes: Lanes, lane: WorkloadClass, k: nat)
    requires Tagged(lanes) && k < |lanes.Of(lane)|
    ensures Tagged(lanes.Without(lane, k))
  {
  }

  lemma FrozenAfterRemoval(lane: seq<Row>, k: nat, snap: Snapshot, reserved: set<string>)
    requires Frozen(lane, k, snap, reserved) && k < |lane|
    ensures Frozen(lane[..k] + lane[k + 1..], k, snap, reserved)
  {
    var shorter := lane[..k] + lane[k + 1..];
    forall i | 0 <= i < k
      ensures Candidates(shorter[i].job, snap, reserved, Shield(shorter[..i], snap.drained)) == []
    {
      assert shorter[..i] == lane[..i];
    }
  }

  lemma CandidatesAvoidTheShield(row: Row, snap: Snapshot, reserved: set<string>, shielded: set<string>)
    requires Candidates(row.job, snap, reserved, shielded) != []
    ensures Avoids(Dispatch(row, Candidates(row.job, snap, reserved, shielded)), shielded)
  {
    var candidates := Candidates(row.job, snap, reserved, shielded);
    CandidatesAreUsable(row.job, snap, reserved, shielded);
    assert candidates[0] in candidates;
    assert forall a :: a in candidates[1..] ==> a in candidates;
  }

  /** What planning leaves of a lane whose first `f` rows were frozen. */
  ghost predicate LaneResult(rows: seq<Row>, f: nat, planned: seq<Planned>, rest: seq<Row>, drained: set<string>) {
    && f <= |rows| && f <= |rest| && rest[..f] == rows[..f]
    && Fair(rows[f..], planned, rest[f..], Shield(rows[..f], drained), drained)
  }

  lemma NothingPlanned(rows: seq<Row>, f: nat, drained: set<string>)
    requires f <= |rows|
    ensures LaneResult(rows, f, [], rows, drained)
  {
    FairWhenNothingIsPlanned(rows[f..], Shield(rows[..f], drained), drained);
  }

  /** Planning row `k` first and the rest of the lane later is one fair plan of the whole lane. */
  lemma PlannedFirst(rows: seq<Row>, f: nat, k: nat, p: Planned, later: seq<Planned>, rest: seq<Row>,
                     drained: set<string>)
    requires f <= k < |rows| && p.row == rows[k] && Avoids(p, Shield(rows[..k], drained))
    requires LaneResult(rows[..k] + rows[k + 1..], k, later, rest, drained)
    ensures LaneResult(rows, f, [p] + later, rest, drained)
  {
    hide Shield;
    var shorter := rows[..k] + rows[k + 1..];
    assert shorter[k..] == rows[k + 1..] && shorter[..k] == rows[..k];
    assert rows[k..][1..] == rows[k + 1..] && ([p] + later)[1..] == later;
    assert Fair(rows[k..], [p] + later, rest[k..], Shield(rows[..k], drained), drained);
    FairBehindFrozen(rows, [p] + later, rest, f, k, drained);
    assert rest[..f] == rest[..k][..f] == rows[..k][..f] == rows[..f];
  }

  /** One lane, from any planning state: its frozen front stays, the rest is merged fairly. */
  lemma {:induction false} LanesArePlannedFairly(lanes: Lanes, lane: WorkloadClass, f: nat, snap: Snapshot,
                                                 reserved: set<string>)
    requires Tagged(lanes) && Frozen(lanes.Of(lane), f, snap, reserved)
    ensures var out := PlanFrom(lanes, snap, reserved);
            LaneResult(lanes.Of(lane), f, PlannedIn(out.planned, lane), out.rest.Of(lane), snap.drained)
    decreases lanes.Size()
  {
    hide LaneResult, Frozen, Choose, Candidates, Shield, Avoids;
    var choice := Choose(lanes, snap, reserved);
    var rows := lanes.Of(lane);
    ChooseIsFirst(lanes, snap, reserved);
    FrozenFits(rows, f, snap, reserved);
    if choice.None? {
      NothingPlanned(rows, f, snap.drained);
    } else {
      var c := choice.value;
      var reserved' := reserved + {c.planned.selected.server.machineId};
      var next := lanes.Without(c.lane, c.index);
      WithoutKeepsTagged(lanes, c.lane, c.index);
      var later := PlanFrom(next, snap, reserved');
      if c.lane == lane {
        StepKeepsFrontFrozen(rows, f, c.index, c.planned, snap, reserved);
        LanesArePlannedFairly(next, lane, c.index, snap, reserved');
        PlannedFirst(rows, f, c.index, c.planned, PlannedIn(later.planned, lane), later.rest.Of(lane), snap.drained);
        assert ([c.planned] + later.planned)[1..] == later.planned;
      } else {
        FrozenStays(rows, f, snap, reserved, reserved');
        LanesArePlannedFairly(next, lane, f, snap, reserved');
        assert ([c.planned] + later.planned)[1..] == later.planned;
        assert [] + PlannedIn(later.planned, lane) == PlannedIn(later.planned, lane);
      }
    }
  }

  lemma FrozenFits(rows: seq<Row>, f: nat, snap: Snapshot, reserved: set<string>)
    requires Frozen(rows, f, snap, reserved)
    ensures f <= |rows|
  {
  }

  lemma StepKeepsFrontFrozen(rows: seq<Row>, f: nat, k: nat, p: Planned, snap: Snapshot, reserved: set<string>)
    requires Frozen(rows, f, snap, reserved) && IsFirstPlaceable(rows, k, p, snap, reserved)
    ensures f <= k < |rows| && p.row == rows[k] && Avoids(p, Shield(rows[..k], snap.drained))
    ensures Frozen(rows[..k] + rows[k + 1..], k, snap, reserved + {p.selected.server.machineId})
  {
    hide Shield;
    CandidatesAvoidTheShield(rows[k], snap, reserved, Shield(rows[..k], snap.drained));
    FrozenAfterRemoval(rows, k, snap, reserved);
    FrozenStays(rows[..k] + rows[k + 1..], k, snap, reserved, reserved + {p.selected.server.machineId});
  }

  // ---------- reading the fair merge ----------

  /** Row `r` is dispatched by `planned`. */
  ghost predicate Dispatched(planned: seq<Planned>, r: Row) {
    exists p :: p in planned && p.row == r
  }

  lemma {:induction false} FairIsAPartition(lane: seq<Row>, planned: seq<Planned>, rest: seq<Row>,
                                            shielded: set<string>, drained: set<string>)
    requires Fair(lane, planned, rest, shielded, drained)
    ensures multiset(Rows(planned)) + multiset(rest) == multiset(lane)
  {
    if lane != [] {
      assert lane == [lane[0]] + lane[1..];
      if planned != [] && planned[0].row == lane[0] && Fair(lane[1..], planned[1..], rest, shielded, drained) {
        FairIsAPartition(lane[1..], planned[1..], rest, shielded, drained);
        assert Rows(planned) == [lane[0]] + Rows(planned[1..]);
      } else {
        assert rest == [rest[0]] + rest[1..];
        FairIsAPartition(lane[1..], planned, rest[1..], shielded + UndrainedMachines(lane[0].job, drained), drained);
      }
    }
  }

  function Rows(planned: seq<Planned>): (r: seq<Row>)
    ensures |r| == |planned| && forall i :: 0 <= i < |r| ==> r[i] == planned[i].row
  {
    if planned == [] then [] else [planned[0].row] + Rows(planned[1..])
  }

  lemma FairMembers(lane: seq<Row>, planned: seq<Planned>, rest: seq<Row>, shielded: set<string>, drained: set<string>)
    requires Fair(lane, planned, rest, shielded, drained)
    ensures forall p :: p in planned ==> p.row in lane
    ensures forall r :: r in rest ==> r in lane
  {
    FairIsAPartition(lane, planned, rest, shielded, drained);
    forall p | p in planned ensures p.row in lane {
      var i :| 0 <= i < |planned| && planned[i] == p;
      assert Rows(planned)[i] == p.row;
      assert p.row in multiset(lane);
    }
    forall r | r in rest ensures r in lane {
      assert r in multiset(lane);
    }
  }

  /** Dispatches of a lane come out in queue order. */
  ghost predicate InLaneOrder(lane: seq<Row>, planned: seq<Planned>) {
    forall a, b, i, j ::
      0 <= a < b < |planned| && 0 <= i < |lane| && 0 <= j < |lane| && lane[i] == planned[a].row && lane[j] == planned[b].row
      ==> i < j
  }

  /** No dispatch goes to a machine that an earlier, undispatched row of its lane could use. */
  ghost predicate NoOvertaking(lane: seq<Row>, planned: seq<Planned>, drained: set<string>) {
    forall i, j, p ::
      0 <= i < j < |lane| && p in planned && p.row == lane[j] && !Dispatched(planned, lane[i])
      ==> Avoids(p, UndrainedMachines(lane[i].job, drained))
  }

  lemma {:induction false} FairIsInOrder(lane: seq<Row>, planned: seq<Planned>, rest: seq<Row>,
                                         shielded: set<string>, drained: set<string>)
    requires ValidQueue(lane) && Fair(lane, planned, rest, shielded, drained)
    ensures InLaneOrder(lane, planned)
  {
    if lane != [] {
      if planned != [] && planned[0].row == lane[0] && Fair(lane[1..], planned[1..], rest, shielded, drained) {
        FairIsInOrder(lane[1..], planned[1..], rest, shielded, drained);
        FairMembers(lane[1..], planned[1..], rest, shielded, drained);
        OrderWithHead(lane, planned);
      } else {
        var shielded' := shielded + UndrainedMachines(lane[0].job, drained);
        FairIsInOrder(lane[1..], planned, rest[1..], shielded', drained);
        FairMembers(lane[1..], planned, rest[1..], shielded', drained);
        OrderWithoutHead(lane, planned);
      }
    }
  }

  lemma OrderWithHead(lane: seq<Row>, planned: seq<Planned>)
    requires ValidQueue(lane) && lane != [] && planned != [] && planned[0].row == lane[0]
    requires InLaneOrder(lane[1..], planned[1..]) && forall p :: p in planned[1..] ==> p.row in lane[1..]
    ensures InLaneOrder(lane, planned)
  {
    hide ValidQueue, InLaneOrder;
    forall a, b, i, j | 0 <= a < b < |planned| && 0 <= i < |lane| && 0 <= j < |lane|
      && lane[i] == planned[a].row && lane[j] == planned[b].row
      ensures i < j
    {
      BehindTheHead(lane, planned[1..], b - 1, j);
      if a > 0 {
        BehindTheHead(lane, planned[1..], a - 1, i);
        OrderOf(lane[1..], planned[1..], a - 1, b - 1, i - 1, j - 1);
      } else if i > 0 {
        SameRowTwice(lane, i);
      }
    }
    AllInOrder(lane, planned);
  }

  lemma OrderWithoutHead(lane: seq<Row>, planned: seq<Planned>)
    requires ValidQueue(lane) && lane != []
    requires InLaneOrder(lane[1..], planned) && forall p :: p in planned ==> p.row in lane[1..]
    ensures InLaneOrder(lane, planned)
  {
    hide ValidQueue, InLaneOrder;
    forall a, b, i, j | 0 <= a < b < |planned| && 0 <= i < |lane| && 0 <= j < |lane|
      && lane[i] == planned[a].row && lane[j] == planned[b].row
      ensures i < j
    {
      BehindTheHead(lane, planned, a, i);
      BehindTheHead(lane, planned, b, j);
      OrderOf(lane[1..], planned, a, b, i - 1, j - 1);
    }
    AllInOrder(lane, planned);
  }

  lemma AllInOrder(lane: seq<Row>, planned: seq<Planned>)
    requires forall a, b, i, j ::
      0 <= a < b < |planned| && 0 <= i < |lane| && 0 <= j < |lane| && lane[i] == planned[a].row && lane[j] == planned[b].row
      ==> i < j
    ensures InLaneOrder(lane, planned)
  {
  }

  lemma OrderOf(lane: seq<Row>, planned: seq<Planned>, a: nat, b: nat, i: nat, j: nat)
    requires InLaneOrder(lane, planned) && a < b < |planned| && i < |lane| && j < |lane|
    requires lane[i] == planned[a].row && lane[j] == planned[b].row
    ensures i < j
  {
  }

  /** A dispatch of the rest of the lane is not the head's. */
  lemma BehindTheHead(lane: seq<Row>, planned: seq<Planned>, a: nat, i: nat)
    requires ValidQueue(lane) && lane != [] && a < |planned| && i < |lane| && lane[i] == planned[a].row
    requires forall p :: p in planned ==> p.row in lane[1..]
    ensures i > 0 && lane[1..][i - 1] == planned[a].row
  {
    hide ValidQueue;
    assert planned[a] in planned;
    NotTheHead(lane, planned[a].row);
  }

  lemma SameRowTwice(lane: seq<Row>, i: nat)
    requires ValidQueue(lane) && 0 < i < |lane|
    ensures lane[i] != lane[0]
  {
  }

  lemma NotTheHead(lane: seq<Row>, r: Row)
    requires ValidQueue(lane) && lane != [] && r in lane[1..]
    ensures r != lane[0]
  {
    var i :| 0 <= i < |lane[1..]| && lane[1..][i] == r;
    assert lane[i + 1] == r;
  }

  lemma AvoidsLess(p: Planned, more: set<string>, less: set<string>)
    requires Avoids(p, more) && less <= more
    ensures Avoids(p, less)
  {
  }

  /** Every dispatch avoids what was shielded on entry. */
  lemma {:induction false} FairAvoidsTheShield(lane: seq<Row>, planned: seq<Planned>, rest: seq<Row>,
                                               shielded: set<string>, drained: set<string>)
    requires Fair(lane, planned, rest, shielded, drained)
    ensures forall p :: p in planned ==> Avoids(p, shielded)
  {
    if lane != [] {
      hide Avoids;
      if planned != [] && planned[0].row == lane[0] && Avoids(planned[0], shielded) && Fair(lane[1..], planned[1..], rest, shielded, drained) {
        FairAvoidsTheShield(lane[1..], planned[1..], rest, shielded, drained);
        assert planned == [planned[0]] + planned[1..];
      } else {
        var shielded' := shielded + UndrainedMachines(lane[0].job, drained);
        FairAvoidsTheShield(lane[1..], planned, rest[1..], shielded', drained);
        forall p | p in planned ensures Avoids(p, shielded) {
          AvoidsLess(p, shielded', shielded);
        }
      }
    }
  }

  lemma {:induction false} FairNeverOvertakes(lane: seq<Row>, planned: seq<Planned>, rest: seq<Row>,
                                              shielded: set<string>, drained: set<string>)
    requires ValidQueue(lane) && Fair(lane, planned, rest, shielded, drained)
    ensures NoOvertaking(lane, planned, drained)
  {
    if lane != [] {
      if planned != [] && planned[0].row == lane[0] && Fair(lane[1..], planned[1..], rest, shielded, drained) {
        FairNeverOvertakes(lane[1..], planned[1..], rest, shielded, drained);
        forall i, j, p | 0 <= i < j < |lane| && p in planned && p.row == lane[j] && !Dispatched(planned, lane[i])
          ensures Avoids(p, UndrainedMachines(lane[i].job, drained))
        {
          assert i > 0 by { assert planned[0] in planned; }
          assert lane[j].job.runId != lane[0].job.runId;
          assert p in planned[1..] && lane[1..][i - 1] == lane[i] && lane[1..][j - 1] == lane[j];
          assert !Dispatched(planned[1..], lane[i]);
        }
      } else {
        var shielded' := shielded + UndrainedMachines(lane[0].job, drained);
        FairNeverOvertakes(lane[1..], planned, rest[1..], shielded', drained);
        FairAvoidsTheShield(lane[1..], planned, rest[1..], shielded', drained);
        forall i, j, p | 0 <= i < j < |lane| && p in planned && p.row == lane[j] && !Dispatched(planned, lane[i])
          ensures Avoids(p, UndrainedMachines(lane[i].job, drained))
        {
          if i == 0 {
            AvoidsLess(p, shielded', UndrainedMachines(lane[0].job, drained));
          } else {
            assert lane[1..][i - 1] == lane[i] && lane[1..][j - 1] == lane[j];
          }
        }
      }
    }
  }

  /** `part` is what is left of `whole` after dropping some rows. */
  ghost predicate LeftOf(part: seq<Row>, whole: seq<Row>) {
    if part == [] then true
    else whole != [] && (LeftOf(part, whole[1..]) || (part[0] == whole[0] && LeftOf(part[1..], whole[1..])))
  }

  lemma {:induction false} FairLeavesInOrder(lane: seq<Row>, planned: seq<Planned>, rest: seq<Row>,
                                             shielded: set<string>, drained: set<string>)
    requires Fair(lane, planned, rest, shielded, drained)
    ensures LeftOf(rest, lane)
  {
    if lane != [] {
      if planned != [] && planned[0].row == lane[0] && Fair(lane[1..], planned[1..], rest, shielded, drained) {
        FairLeavesInOrder(lane[1..], planned[1..], rest, shielded, drained);
      } else {
        FairLeavesInOrder(lane[1..], planned, rest[1..], shielded + UndrainedMachines(lane[0].job, drained), drained);
      }
    }
  }

  lemma SplitLanesAreTagged(queued: seq<Row>)
    ensures Tagged(SplitLanes(queued))
  {
    forall i | 0 <= i < |SplitLanes(queued).standard| ensures SplitLanes(queued).standard[i].job.workloadClass == Standard {
      assert SplitLanes(queued).standard[i] in SplitLanes(queued).standard;
    }
    forall i | 0 <= i < |SplitLanes(queued).test| ensures SplitLanes(queued).test[i].job.workloadClass == Test {
      assert SplitLanes(queued).test[i] in SplitLanes(queued).test;
    }
  }

  lemma PlanIsFair(queued: seq<Row>, snap: Snapshot, lane: WorkloadClass)
    ensures Fair(LaneOf(queued, lane), PlannedIn(Plan(queued, snap).planned, lane), Plan(queued, snap).rest.Of(lane), {}, snap.drained)
  {
    SplitLanesAreTagged(queued);
    var rows := LaneOf(queued, lane);
    assert SplitLanes(queued).Of(lane) == rows;
    LanesArePlannedFairly(SplitLanes(queued), lane, 0, snap, {});
    assert rows[0..] == rows && rows[..0] == [];
    var rest := Plan(queued, snap).rest.Of(lane);
    assert rest[0..] == rest;
  }

  /** MAIN: in each lane the dispatches come out in queue order, so a row passed over once is
      never dispatched later in the batch; every row is dispatched once or remains, and what
      remains is in queue order too. */
  lemma LaneOrderIsPreserved(queued: seq<Row>, snap: Snapshot, lane: WorkloadClass)
    requires ValidQueue(queued)
    ensures InLaneOrder(LaneOf(queued, lane), PlannedIn(Plan(queued, snap).planned, lane))
    ensures multiset(Rows(PlannedIn(Plan(queued, snap).planned, lane))) + multiset(Plan(queued, snap).rest.Of(lane))
         == multiset(LaneOf(queued, lane))
    ensures LeftOf(Plan(queued, snap).rest.Of(lane), LaneOf(queued, lane))
  {
    PlanIsFair(queued, snap, lane);
    SplitLanesAreValid(queued);
    FairLeavesInOrder(LaneOf(queued, lane), PlannedIn(Plan(queued, snap).planned, lane), Plan(queued, snap).rest.Of(lane), {}, snap.drained);
    FairIsInOrder(LaneOf(queued, lane), PlannedIn(Plan(queued, snap).planned, lane), Plan(queued, snap).rest.Of(lane), {}, snap.drained);
    FairIsAPartition(LaneOf(queued, lane), PlannedIn(Plan(queued, snap).planned, lane), Plan(queued, snap).rest.Of(lane), {}, snap.drained);
  }

  /** MAIN: neither the machine of a dispatch nor an alternative is an undrained machine of an
      earlier row of its lane that stays queued. */
  lemma NobodyIsOvertaken(queued: seq<Row>, snap: Snapshot, lane: WorkloadClass)
    requires ValidQueue(queued)
    ensures NoOvertaking(LaneOf(queued, lane), PlannedIn(Plan(queued, snap).planned, lane), snap.drained)
  {
    PlanIsFair(queued, snap, lane);
    SplitLanesAreValid(queued);
    FairNeverOvertakes(LaneOf(queued, lane), PlannedIn(Plan(queued, snap).planned, lane), Plan(queued, snap).rest.Of(lane), {}, snap.drained);
  }
}
