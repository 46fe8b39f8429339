/** One-job dispatch (`dispatch_once`) and the snapshot probe, and the proof that with
    stable probes and free leases both planners pick the same job and machine. */
module SingleDispatch {
  import opened Common
  import opened Placement
  import opened BatchPlanner

  /** What a machine answers to a probe. */
  datatype MachineState = MachineState(active: seq<ActiveRun>, load5: Load, standardSlots: int, testSlots: int)

  /** Machines that answer, machines drained, and machines whose lease is held by someone else. */
  datatype World = World(machines: map<string, MachineState>, drained: set<string>, busy: set<string>)

  function Probe(w: World, s: Server): Result<Probed> {
    if s.machineId !in w.machines then Err("unreachable")
    else
      var m := w.machines[s.machineId];
      ProbeServer(s, m.standardSlots, m.testSlots, m.active, m.load5)
  }

  function ProbeAll(w: World, servers: seq<Server>): seq<Probed> {
    if servers == [] then []
    else
      var p := Probe(w, servers[0]);
      (if p.Ok? then [p.value] else []) + ProbeAll(w, servers[1..])
  }

  // ---------- the capacity snapshot ----------

  /** Two descriptors of one machine differ at most in launch paths and server order. */
  ghost predicate DescriptorsAgree(rows: seq<Row>) {
    forall i, j, s, t :: 0 <= i < |rows| && 0 <= j < |rows| && s in EligibleServers(rows[i].job)
      && t in EligibleServers(rows[j].job) && Key(s) == Key(t)
      ==> s.name == t.name && s.priority == t.priority
  }

  /** An eligible, undrained server of the first `n` rows. */
  ghost predicate Listed(rows: seq<Row>, n: nat, drained: set<string>, s: Server)
    requires n <= |rows|
  {
    s.machineId !in drained && exists i :: 0 <= i < n && s in EligibleServers(rows[i].job)
  }

  /** First pass of `_probe_capacity_snapshot`: one descriptor per machine identity. */
  method UniqueServers(rows: seq<Row>, w: World) returns (unique: map<SnapshotKey, Server>)
    ensures forall k :: k in unique ==> Key(unique[k]) == k && Listed(rows, |rows|, w.drained, unique[k])
    ensures forall s :: Listed(rows, |rows|, w.drained, s) ==> Key(s) in unique
  {
    hide EligibleServers;
    unique := map[];
    var i := 0;
    while i < |rows|
      invariant i <= |rows|
      invariant forall k :: k in unique ==> Key(unique[k]) == k && Listed(rows, i, w.drained, unique[k])
      invariant forall s :: Listed(rows, i, w.drained, s) ==> Key(s) in unique
    {
      var servers := EligibleServers(rows[i].job);
      var j := 0;
      while j < |servers|
        invariant j <= |servers|
        invariant forall k :: k in unique ==> Key(unique[k]) == k && Listed(rows, i + 1, w.drained, unique[k])
        invariant forall s :: Listed(rows, i, w.drained, s) ==> Key(s) in unique
        invariant forall h :: 0 <= h < j && servers[h].machineId !in w.drained ==> Key(servers[h]) in unique
      {
        var s := servers[j];
        if s.machineId !in w.drained && Key(s) !in unique {
          assert s in servers;
          unique := unique[Key(s) := s];
        }
        j := j + 1;
      }
      i := i + 1;
    }
  }

  /** `reachable` holds exactly the reachable listed machines, each as one of its descriptors saw it. */
  ghost predicate IsSnapshot(snap: Snapshot, rows: seq<Row>, w: World) {
    && snap.drained == w.drained
    && (forall k :: k in snap.reachable ==>
          exists s :: Listed(rows, |rows|, w.drained, s) && Key(s) == k && Probe(w, s) == Ok(snap.reachable[k]))
    && (forall s :: Listed(rows, |rows|, w.drained, s) && Key(s) !in snap.reachable ==>
          exists t :: Listed(rows, |rows|, w.drained, t) && Key(t) == Key(s) && Probe(w, t).Err?)
  }

  method ProbeCapacitySnapshot(rows: seq<Row>, w: World) returns (snap: Snapshot)
    ensures IsSnapshot(snap, rows, w)
  {
    var unique := UniqueServers(rows, w);
    var reachable := map k | k in unique && Probe(w, unique[k]).Ok? :: Probe(w, unique[k]).value;
    snap := Snapshot(reachable, w.drained);
    forall s | Listed(rows, |rows|, w.drained, s) && Key(s) !in snap.reachable
      ensures exists t :: Listed(rows, |rows|, w.drained, t) && Key(t) == Key(s) && Probe(w, t).Err?
    {
      assert Probe(w, unique[Key(s)]).Err?;
    }
  }

  // ---------- selecting with live probes and leases ----------

  function NotDrained(w: World, allowed: Option<set<string>>): Server -> bool {
    (s: Server) => s.machineId !in w.drained && (allowed.None? || s.name in allowed.value)
  }

  /** The ranking `_select_server_for_job` works through. */
  function LiveRanking(job: Job, w: World, allowed: Option<set<string>>): seq<Probed> {
    RankForWorkload(job, ProbeAll(w, Filter(NotDrained(w, allowed), EligibleServers(job))))
  }

  /** First candidate whose lease is free and whose second probe still has room. */
  function FirstLeased(job: Job, w: World, ranked: seq<Probed>): Option<Probed> {
    if ranked == [] then None
    else
      var again := Probe(w, ranked[0].server);
      if ranked[0].server.machineId !in w.busy && again.Ok? && HasWorkloadCapacity(job, again.value) then Some(again.value)
      else FirstLeased(job, w, ranked[1..])
  }

  method SelectServerForJob(job: Job, w: World, allowed: Option<set<string>>) returns (selected: Option<Probed>)
    ensures selected == FirstLeased(job, w, LiveRanking(job, w, allowed))
  {
    var ranked := LiveRanking(job, w, allowed);
    var i := 0;
    while i < |ranked|
      invariant i <= |ranked|
      invariant FirstLeased(job, w, ranked) == FirstLeased(job, w, ranked[i..])
    {
      var candidate := ranked[i];
      assert ranked[i..][1..] == ranked[i + 1..];
      if candidate.server.machineId !in w.busy {
        var current := Probe(w, candidate.server);
        if current.Ok? && HasWorkloadCapacity(job, current.value) {
          return Some(current.value);
        }
      }
      i := i + 1;
    }
    assert ranked[|ranked|..] == [];
    selected := None;
  }

  // ---------- with free leases the live ranking and the snapshot agree ----------

  lemma AgreeingProbes(w: World, s: Server, t: Server)
    requires Key(s) == Key(t) && s.name == t.name && s.priority == t.priority
    ensures Probe(w, s).Ok? <==> Probe(w, t).Ok?
    ensures Probe(w, s).Ok? ==> Probe(w, t).value.(server := s) == Probe(w, s).value
  {
  }

  lemma ListedAgree(rows: seq<Row>, drained: set<string>, r: nat, s: Server, t: Server)
    requires DescriptorsAgree(rows) && r < |rows| && s in EligibleServers(rows[r].job)
    requires Listed(rows, |rows|, drained, t) && Key(s) == Key(t)
    ensures s.name == t.name && s.priority == t.priority
  {
    var j :| 0 <= j < |rows| && t in EligibleServers(rows[j].job);
  }

  lemma SnapshotEntry(rows: seq<Row>, w: World, snap: Snapshot, r: nat, s: Server)
    requires IsSnapshot(snap, rows, w) && DescriptorsAgree(rows)
    requires r < |rows| && s in EligibleServers(rows[r].job) && s.machineId !in w.drained
    ensures Key(s) in snap.reachable <==> Probe(w, s).Ok?
    ensures Key(s) in snap.reachable ==> snap.reachable[Key(s)].(server := s) == Probe(w, s).value
  {
    hide Probe, DescriptorsAgree, EligibleServers;
    assert Listed(rows, |rows|, w.drained, s);
    var t: Server;
    if Key(s) in snap.reachable {
      t :| Listed(rows, |rows|, w.drained, t) && Key(t) == Key(s) && Probe(w, t) == Ok(snap.reachable[Key(s)]);
    } else {
      t :| Listed(rows, |rows|, w.drained, t) && Key(t) == Key(s) && Probe(w, t).Err?;
    }
    hide IsSnapshot, Listed;
    ListedAgree(rows, w.drained, r, s, t);
    AgreeingProbes(w, s, t);
  }

  lemma {:induction false} LookupIsProbing(rows: seq<Row>, w: World, snap: Snapshot, r: nat, servers: seq<Server>)
    requires IsSnapshot(snap, rows, w) && DescriptorsAgree(rows) && r < |rows|
    requires forall s :: s in servers ==> s in EligibleServers(rows[r].job) && s.machineId !in w.drained
    ensures Lookup(servers, snap) == ProbeAll(w, servers)
  {
    if servers != [] {
      assert servers[0] in servers;
      SnapshotEntry(rows, w, snap, r, servers[0]);
      hide IsSnapshot, DescriptorsAgree, Probe;
      LookupIsProbing(rows, w, snap, r, servers[1..]);
    }
  }

  /** Same candidates, in the same order. */
  lemma LiveRankingIsSelection(rows: seq<Row>, w: World, snap: Snapshot, r: nat, allowed: Option<set<string>>)
    requires IsSnapshot(snap, rows, w) && DescriptorsAgree(rows) && r < |rows|
    ensures LiveRanking(rows[r].job, w, allowed) == SelectFromSnapshot(rows[r].job, snap, {}, allowed)
  {
    var job := rows[r].job;
    FilterAgrees(NotDrained(w, allowed), OpenAndAllowed(snap, {}, allowed), EligibleServers(job));
    LookupIsProbing(rows, w, snap, r, Filter(NotDrained(w, allowed), EligibleServers(job)));
  }

  lemma ProbeAllAnswers(w: World, servers: seq<Server>)
    ensures forall p :: p in ProbeAll(w, servers) ==> p.server in servers && Probe(w, p.server) == Ok(p)
  {
  }

  /** With free leases the first of the ranking is taken: nothing changed between the probes. */
  lemma FreeLeasesTakeTheFirst(job: Job, w: World, allowed: Option<set<string>>)
    requires w.busy == {}
    ensures var ranked := LiveRanking(job, w, allowed);
            FirstLeased(job, w, ranked) == if ranked == [] then None else Some(ranked[0])
  {
    var ranked := LiveRanking(job, w, allowed);
    var probed := ProbeAll(w, Filter(NotDrained(w, allowed), EligibleServers(job)));
    ProbeAllAnswers(w, Filter(NotDrained(w, allowed), EligibleServers(job)));
    if ranked != [] {
      assert ranked[0] in ranked;
      assert ranked[0] in probed && HasWorkloadCapacity(job, ranked[0]);
    }
  }

  /** The selection `dispatch_once` makes for one job, behind the given shield. */
  function LiveSelect(job: Job, w: World, shielded: set<string>): Option<Probed> {
    FirstLeased(job, w, LiveRanking(job, w, Some(SafeNames(job, w.drained, shielded))))
  }

  lemma LiveSelectIsTheHead(rows: seq<Row>, w: World, snap: Snapshot, r: nat, shielded: set<string>)
    requires IsSnapshot(snap, rows, w) && DescriptorsAgree(rows) && r < |rows| && w.busy == {} && ValidJob(rows[r].job)
    ensures var candidates := Candidates(rows[r].job, snap, {}, shielded);
            LiveSelect(rows[r].job, w, shielded) == if candidates == [] then None else Some(candidates[0])
  {
    hide IsSnapshot, DescriptorsAgree, LiveRanking, FirstLeased, SelectFromSnapshot, Candidates, ValidJob, SafeNames;
    var job := rows[r].job;
    var safe := Some(SafeNames(job, w.drained, shielded));
    assert snap.drained == w.drained by { SnapshotDrains(snap, rows, w); }
    SafeNamesMeanUnprotectedMachines(job, snap, {}, shielded);
    FreeLeasesTakeTheFirst(job, w, safe);
    LiveRankingIsSelection(rows, w, snap, r, safe);
  }

  lemma SnapshotDrains(snap: Snapshot, rows: seq<Row>, w: World)
    requires IsSnapshot(snap, rows, w)
    ensures snap.drained == w.drained
  {
  }

  /** Without a name limit the selection is the one behind an empty shield. */
  lemma UnlimitedSelection(job: Job, w: World)
    requires ValidJob(job)
    ensures FirstLeased(job, w, LiveRanking(job, w, None)) == LiveSelect(job, w, {})
    ensures forall shielded :: SafeNames(job, w.drained, shielded) == {} ==> LiveSelect(job, w, shielded).None?
  {
    EveryNameIsSafe(job, w);
    hide LiveSelect, SafeNames;
    forall shielded | SafeNames(job, w.drained, shielded) == {} ensures LiveSelect(job, w, shielded).None? {
      NoSafeName(job, w, shielded);
    }
  }

  lemma EveryNameIsSafe(job: Job, w: World)
    requires ValidJob(job)
    ensures FirstLeased(job, w, LiveRanking(job, w, None)) == LiveSelect(job, w, {})
  {
    var safe := SafeNames(job, w.drained, {});
    forall s | s in EligibleServers(job) && s.machineId !in w.drained ensures s.name in safe {
      UndrainedByNameIsExact(job, w.drained, s);
    }
    hide SafeNames, EligibleServers, ValidJob;
    FilterAgrees(NotDrained(w, Some(safe)), NotDrained(w, None), EligibleServers(job));
  }

  lemma NoSafeName(job: Job, w: World, shielded: set<string>)
    requires SafeNames(job, w.drained, shielded) == {}
    ensures LiveSelect(job, w, shielded).None?
  {
    hide SafeNames, EligibleServers, RankForWorkload;
    NobodyAllowed(w, EligibleServers(job));
    assert ProbeAll(w, []) == [];
  }

  lemma {:induction false} NobodyAllowed(w: World, servers: seq<Server>)
    ensures Filter(NotDrained(w, Some({})), servers) == []
  {
    if servers != [] { NobodyAllowed(w, servers[1..]); }
  }

  // ---------- dispatch_once ----------

  /** First row at or after `k` that gets a machine outside the shield. */
  function LivePick(lane: seq<Row>, k: nat, w: World, shielded: set<string>): Option<(Row, Probed)>
    requires k <= |lane|
    decreases |lane| - k
  {
    if k == |lane| then None
    else
      var selected := LiveSelect(lane[k].job, w, shielded);
      if selected.Some? then Some((lane[k], selected.value))
      else LivePick(lane, k + 1, w, shielded + UndrainedMachines(lane[k].job, w.drained))
  }

  function LiveHead(lane: seq<Row>, w: World): Option<(Row, Probed)> {
    if lane == [] || LiveSelect(lane[0].job, w, {}).None? then None
    else Some((lane[0], LiveSelect(lane[0].job, w, {}).value))
  }

  function LiveBackfill(lane: seq<Row>, w: World): Option<(Row, Probed)> {
    if lane == [] then None else LivePick(lane, 1, w, UndrainedMachines(lane[0].job, w.drained))
  }

  /** Heads first, then backfill; standard before test. */
  function LiveChoice(lanes: Lanes, w: World): Option<(Row, Probed)> {
    if LiveHead(lanes.standard, w).Some? then LiveHead(lanes.standard, w)
    else if LiveHead(lanes.test, w).Some? then LiveHead(lanes.test, w)
    else if LiveBackfill(lanes.standard, w).Some? then LiveBackfill(lanes.standard, w)
    else LiveBackfill(lanes.test, w)
  }

  method SelectBackfillFromLane(lane: seq<Row>, w: World) returns (selected: Option<(Row, Probed)>)
    requires lane != [] && ValidQueue(lane)
    ensures selected == LiveBackfill(lane, w)
  {
    hide UndrainedMachines, UndrainedByName, SafeNames, FirstLeased, LiveRanking;
    var protectedMachines := UndrainedMachines(lane[0].job, w.drained);
    var i := 1;
    while i < |lane|
      invariant 1 <= i <= |lane|
      invariant LiveBackfill(lane, w) == LivePick(lane, i, w, protectedMachines)
    {
      var row := lane[i];
      var eligible := UndrainedByName(row.job, w.drained);
      var safe := SafeNames(row.job, w.drained, protectedMachines);
      UnlimitedSelection(row.job, w);
      UndrainedByNameValues(row.job, w.drained);
      if safe != {} {
        var candidate := SelectServerForJob(row.job, w, Some(safe));
        if candidate.Some? {
          return Some((row, candidate.value));
        }
      }
      protectedMachines := protectedMachines + eligible.Values;
      i := i + 1;
    }
    selected := None;
  }

  method SelectHead(lane: seq<Row>, w: World) returns (selected: Option<(Row, Probed)>)
    requires lane != [] && ValidQueue(lane)
    ensures selected == LiveHead(lane, w)
  {
    UnlimitedSelection(lane[0].job, w);
    hide FirstLeased, LiveRanking, LiveSelect;
    var candidate := SelectServerForJob(lane[0].job, w, None);
    selected := if candidate.Some? then Some((lane[0], candidate.value)) else None;
  }

  /** The selection part of `dispatch_once`. */
  method DispatchOnceSelect(queued: seq<Row>, w: World) returns (selected: Option<(Row, Probed)>)
    requires ValidQueue(queued)
    ensures selected == LiveChoice(SplitLanes(queued), w)
  {
    var lanes := SplitLanes(queued);
    SplitLanesAreValid(queued);
    hide SplitLanes, ValidQueue, LiveSelect, LivePick;
    selected := None;
    if lanes.standard != [] { selected := SelectHead(lanes.standard, w); }
    if selected.None? && lanes.test != [] { selected := SelectHead(lanes.test, w); }
    if selected.None? && lanes.standard != [] { selected := SelectBackfillFromLane(lanes.standard, w); }
    if selected.None? && lanes.test != [] { selected := SelectBackfillFromLane(lanes.test, w); }
  }

  // ---------- against the planner ----------

  /** The rows of a lane are rows of the queue. */
  ghost predicate Within(lane: seq<Row>, rows: seq<Row>) {
    forall i :: 0 <= i < |lane| ==> lane[i] in rows
  }

  /** Stable probes, free leases, agreeing descriptors. */
  ghost predicate Quiet(rows: seq<Row>, w: World, snap: Snapshot) {
    w.busy == {} && IsSnapshot(snap, rows, w) && DescriptorsAgree(rows) && ValidQueue(rows)
  }

  lemma LiveSelectOfRow(rows: seq<Row>, w: World, snap: Snapshot, row: Row, shielded: set<string>)
    requires Quiet(rows, w, snap) && row in rows
    ensures var candidates := Candidates(row.job, snap, {}, shielded);
            LiveSelect(row.job, w, shielded) == if candidates == [] then None else Some(candidates[0])
    ensures snap.drained == w.drained
  {
    hide IsSnapshot, DescriptorsAgree, Candidates, LiveSelect;
    var r :| 0 <= r < |rows| && rows[r] == row;
    LiveSelectIsTheHead(rows, w, snap, r, shielded);
    SnapshotDrains(snap, rows, w);
  }

  lemma {:induction false} LivePickIsLanePick(rows: seq<Row>, w: World, snap: Snapshot, lane: seq<Row>, k: nat,
                                              shielded: set<string>)
    requires Quiet(rows, w, snap) && Within(lane, rows) && k <= |lane|
    ensures var pick := LanePick(lane, k, snap, {}, shielded);
            LivePick(lane, k, w, shielded) == if pick.None? then None else Some((pick.value.1.row, pick.value.1.selected))
    decreases |lane| - k
  {
    hide Quiet, Candidates, LiveSelect, UndrainedMachines;
    if k < |lane| {
      LiveSelectOfRow(rows, w, snap, lane[k], shielded);
      LivePickIsLanePick(rows, w, snap, lane, k + 1, shielded + UndrainedMachines(lane[k].job, snap.drained));
    }
  }

  lemma LiveLaneAgrees(rows: seq<Row>, w: World, snap: Snapshot, lane: seq<Row>)
    requires Quiet(rows, w, snap) && Within(lane, rows)
    ensures var head := PickHead(lane, snap, {});
            LiveHead(lane, w) == if head.None? then None else Some((head.value.row, head.value.selected))
    ensures var pick := PickBackfill(lane, snap, {});
            LiveBackfill(lane, w) == if pick.None? then None else Some((pick.value.1.row, pick.value.1.selected))
  {
    hide Quiet, Candidates, LiveSelect, UndrainedMachines, LanePick, LivePick;
    if lane != [] {
      LiveSelectOfRow(rows, w, snap, lane[0], {});
      LivePickIsLanePick(rows, w, snap, lane, 1, UndrainedMachines(lane[0].job, snap.drained));
    }
  }

  lemma LanesWithin(queued: seq<Row>)
    ensures Within(SplitLanes(queued).standard, queued) && Within(SplitLanes(queued).test, queued)
  {
    forall i | 0 <= i < |SplitLanes(queued).standard| ensures SplitLanes(queued).standard[i] in queued {
      assert SplitLanes(queued).standard[i] in SplitLanes(queued).standard;
    }
    forall i | 0 <= i < |SplitLanes(queued).test| ensures SplitLanes(queued).test[i] in queued {
      assert SplitLanes(queued).test[i] in SplitLanes(queued).test;
    }
  }

  /** MAIN: with stable probes, free leases and agreeing descriptors, `dispatch_once` selects the
      job and machine of the first dispatch of the batch plan, and nothing when the plan is empty. */
  lemma DispatchOnceRefinesThePlan(queued: seq<Row>, w: World, snap: Snapshot)
    requires Quiet(queued, w, snap)
    ensures var planned := Plan(queued, snap).planned;
            LiveChoice(SplitLanes(queued), w) == if planned == [] then None else Some((planned[0].row, planned[0].selected))
  {
    LanesWithin(queued);
    var lanes := SplitLanes(queued);
    LiveLaneAgrees(queued, w, snap, lanes.standard);
    LiveLaneAgrees(queued, w, snap, lanes.test);
    hide Quiet, Within, LiveHead, LiveBackfill, PickHead, PickBackfill, SplitLanes;
  }
}
