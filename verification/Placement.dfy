/** Jobs, probed machines, capacity tests and candidate selection from one
    capacity snapshot (dispatcher.py, the pure part). */
module Placement {
  import opened Common
  import opened Scheduling

  datatype WorkloadClass = Standard | Test

  /** One prepared server of a job: its identity and the launch paths frozen with it. */
  datatype Server = Server(
    name: string,
    machineId: string,
    fingerprint: Option<string>,
    configuredCores: Positive,
    priority: int,
    launchPaths: string)

  /** A queued job; an empty `eligibleNames` means every prepared server. */
  datatype Job = Job(
    runId: string,
    workloadClass: WorkloadClass,
    requestedCores: Option<Positive>,
    prepared: seq<Server>,
    eligibleNames: seq<string>)

  /** A queue row: the job and the revision of its queue state when it was read. */
  datatype Row = Row(job: Job, revision: nat)

  /** A live run seen on a machine; a run of an old release has no recorded cores. */
  datatype ActiveRun = ActiveRun(runId: string, workloadClass: WorkloadClass, assignedCores: Option<Positive>)

  type Load = r: real | r >= 0.0

  datatype Probed = Probed(
    server: Server,
    standardSlots: int,
    testSlots: int,
    capacity: ValidCandidate,
    active: seq<ActiveRun>)

  datatype SnapshotKey = SnapshotKey(machineId: string, fingerprint: Option<string>, configuredCores: int)

  datatype Snapshot = Snapshot(reachable: map<SnapshotKey, Probed>, drained: set<string>)

  function Key(s: Server): SnapshotKey {
    SnapshotKey(s.machineId, s.fingerprint, s.configuredCores)
  }

  /** Server names are unique inside one job: queue validation refuses duplicates. */
  ghost predicate ValidJob(job: Job) {
    forall i, j :: 0 <= i < j < |job.prepared| ==> job.prepared[i].name != job.prepared[j].name
  }

  function EligibleServers(job: Job): seq<Server> {
    if job.eligibleNames == [] then job.prepared
    else Filter((s: Server) => s.name in job.eligibleNames, job.prepared)
  }

  lemma NamesIdentifyServers(job: Job, a: Server, b: Server)
    requires ValidJob(job) && a in EligibleServers(job) && b in EligibleServers(job) && a.name == b.name
    ensures a == b
  {
    assert a in job.prepared && b in job.prepared;
    var i :| 0 <= i < |job.prepared| && job.prepared[i] == a;
    var j :| 0 <= j < |job.prepared| && job.prepared[j] == b;
    assert !(i < j) && !(j < i);
  }

  // ---------- what a probe reports ----------

  function AssignedCores(active: seq<ActiveRun>): (cores: nat)
    ensures |active| > 0 && !AllocationUnknown(active) ==> cores > 0
  {
    if active == [] then 0
    else (if active[0].assignedCores.Some? then active[0].assignedCores.value else 0) + AssignedCores(active[1..])
  }

  predicate AllocationUnknown(active: seq<ActiveRun>) {
    exists i :: 0 <= i < |active| && active[i].assignedCores.None?
  }

  function LaneCount(active: seq<ActiveRun>, lane: WorkloadClass): nat {
    if active == [] then 0
    else (if active[0].workloadClass == lane then 1 else 0) + LaneCount(active[1..], lane)
  }

  /** `_probe_prepared_server` on the active runs and load a machine reported. */
  function ProbeServer(server: Server, standardSlots: int, testSlots: int,
                       active: seq<ActiveRun>, load5: Load): (r: Result<Probed>)
    ensures r.Err? <==> AssignedCores(active) > server.configuredCores
    ensures r.Ok? ==> r.value.server == server && r.value.capacity.name == server.name
    ensures r.Ok? && r.value.capacity.AvailableCores() > 0.0 ==> !AllocationUnknown(active)
  {
    if AssignedCores(active) > server.configuredCores then
      Err("active core allocations exceed configured inventory")
    else
      Ok(Probed(server, standardSlots, testSlots,
                CapacityCandidate(server.name, server.configuredCores, load5, server.priority,
                                  |active|, AssignedCores(active), AllocationUnknown(active)),
                active))
  }

  // ---------- admission test ----------

  /** The whole machine when the job names no core count. */
  function Allocation(job: Job, configuredCores: Positive): Positive {
    if job.requestedCores.None? then configuredCores else job.requestedCores.value
  }

  function RequestedAllocation(job: Job, p: Probed): Positive {
    Allocation(job, p.capacity.configuredCores)
  }

  function Slots(p: Probed, lane: WorkloadClass): int {
    if lane == Standard then p.standardSlots else p.testSlots
  }

  /** Room for one more run: a free slot in its lane, known allocations, enough cores. */
  predicate Admits(job: Job, active: seq<ActiveRun>, configuredCores: Positive, slots: int) {
    && LaneCount(active, job.workloadClass) < slots
    && !AllocationUnknown(active)
    && AssignedCores(active) + Allocation(job, configuredCores) <= configuredCores
  }

  predicate HasWorkloadCapacity(job: Job, p: Probed) {
    Admits(job, p.active, p.capacity.configuredCores, Slots(p, job.workloadClass))
  }

  /** A job that asks for the whole machine is admitted only on an idle one. */
  lemma WholeMachineNeedsIdleMachine(job: Job, p: Probed)
    requires job.requestedCores.None? && HasWorkloadCapacity(job, p)
    ensures p.active == []
  {
    assert AssignedCores(p.active) == 0;
  }

  /** One more run adds its cores, and one run to its lane. */
  lemma {:induction false} OneMoreRun(active: seq<ActiveRun>, a: ActiveRun, lane: WorkloadClass)
    ensures AssignedCores(active + [a]) == AssignedCores(active) + (if a.assignedCores.Some? then a.assignedCores.value else 0)
    ensures LaneCount(active + [a], lane) == LaneCount(active, lane) + (if a.workloadClass == lane then 1 else 0)
  {
    if active == [] {
      assert active + [a] == [a];
    } else {
      assert (active + [a])[1..] == active[1..] + [a];
      OneMoreRun(active[1..], a, lane);
    }
  }

  /** Admission is exact: a run is admitted exactly when all allocations are known and the machine, with the
      run on it, is still within its cores and the run's lane within its slots. */
  lemma AdmissionIsExact(job: Job, p: Probed)
    ensures var after := p.active + [ActiveRun(job.runId, job.workloadClass, Some(RequestedAllocation(job, p)))];
            HasWorkloadCapacity(job, p) <==>
              && !AllocationUnknown(p.active)
              && AssignedCores(after) <= p.capacity.configuredCores
              && LaneCount(after, job.workloadClass) <= Slots(p, job.workloadClass)
  {
    OneMoreRun(p.active, ActiveRun(job.runId, job.workloadClass, Some(RequestedAllocation(job, p))), job.workloadClass);
  }

  // ---------- ranking the admissible machines ----------

  function Capacities(ps: seq<Probed>): (r: seq<CapacityCandidate>)
    ensures |r| == |ps| && forall i :: 0 <= i < |ps| ==> r[i] == ps[i].capacity
  {
    if ps == [] then [] else [ps[0].capacity] + Capacities(ps[1..])
  }

  /** The dictionary from capacity name to machine: the last entry of a name wins. */
  function ByName(ps: seq<Probed>, name: string): (p: Probed)
    requires exists i :: 0 <= i < |ps| && ps[i].capacity.name == name
    ensures p in ps && p.capacity.name == name
  {
    var last := |ps| - 1;
    if ps[last].capacity.name == name then ps[last] else ByName(ps[..last], name)
  }

  function PickByName(ps: seq<Probed>, ranked: seq<CapacityCandidate>): (r: seq<Probed>)
    requires forall c :: c in ranked ==> c in Capacities(ps)
    ensures |r| == |ranked|
    ensures forall i :: 0 <= i < |r| ==> r[i] in ps && r[i].capacity.name == ranked[i].name
  {
    if ranked == [] then []
    else
      assert ranked[0] in Capacities(ps);
      [ByName(ps, ranked[0].name)] + PickByName(ps, ranked[1..])
  }

  /** `_rank_for_workload`. The key fact for planning: it is empty only when nobody fits. */
  function RankForWorkload(job: Job, candidates: seq<Probed>): (r: seq<Probed>)
    ensures r == [] <==> forall p :: p in candidates ==> !HasWorkloadCapacity(job, p)
    ensures forall p :: p in r ==> p in candidates && HasWorkloadCapacity(job, p)
  {
    var eligible := Filter((p: Probed) => HasWorkloadCapacity(job, p), candidates);
    if eligible == [] then []
    else
      var ranked := SortByRank(Capacities(eligible));
      assert forall c :: c in ranked ==> c in multiset(ranked);
      PickByName(eligible, ranked)
  }

  /** With distinct capacity names the ranked machines are the machines with room, sorted as their capacities are. */
  lemma RankedLikeTheirCapacities(job: Job, candidates: seq<Probed>)
    requires DistinctNames(Capacities(candidates))
    ensures var fitting := Filter((p: Probed) => HasWorkloadCapacity(job, p), candidates);
            Capacities(RankForWorkload(job, candidates)) == SortByRank(Capacities(fitting))
  {
    var fitting := Filter((p: Probed) => HasWorkloadCapacity(job, p), candidates);
    FilteredNamesDiffer(job, candidates);
    if fitting == [] {
      assert SortByRank(Capacities(fitting)) == [];
    } else {
      var ranked := SortByRank(Capacities(fitting));
      SortByRankSorts(Capacities(fitting));
      assert forall c :: c in ranked ==> c in multiset(ranked);
      hide SortByRank, Filter, HasWorkloadCapacity;
      PickedCapacities(fitting, ranked);
    }
  }

  lemma {:induction false} FilteredNamesDiffer(job: Job, candidates: seq<Probed>)
    requires DistinctNames(Capacities(candidates))
    ensures DistinctNames(Capacities(Filter((p: Probed) => HasWorkloadCapacity(job, p), candidates)))
  {
    if candidates != [] {
      var rest := Filter((p: Probed) => HasWorkloadCapacity(job, p), candidates[1..]);
      hide HasWorkloadCapacity;
      assert forall i :: 0 <= i < |candidates| - 1 ==> Capacities(candidates[1..])[i] == Capacities(candidates)[i + 1];
      FilteredNamesDiffer(job, candidates[1..]);
      forall i | 0 <= i < |rest| ensures rest[i].capacity.name != candidates[0].capacity.name {
        assert rest[i] in candidates[1..];
        var k :| 0 <= k < |candidates[1..]| && candidates[1..][k] == rest[i];
        assert Capacities(candidates)[k + 1] == rest[i].capacity && Capacities(candidates)[0] == candidates[0].capacity;
      }
    }
  }

  lemma {:induction false} PickedCapacities(ps: seq<Probed>, ranked: seq<CapacityCandidate>)
    requires DistinctNames(Capacities(ps)) && forall c :: c in ranked ==> c in Capacities(ps)
    ensures Capacities(PickByName(ps, ranked)) == ranked
  {
    var picked := PickByName(ps, ranked);
    hide DistinctNames, PickByName;
    forall i | 0 <= i < |ranked| ensures picked[i].capacity == ranked[i] {
      assert ranked[i] in Capacities(ps) && picked[i] in ps;
      var a :| 0 <= a < |ps| && ps[a] == picked[i];
      var b :| 0 <= b < |ps| && Capacities(ps)[b] == ranked[i];
      SameName(Capacities(ps), a, b);
    }
  }

  lemma SameName(cs: seq<CapacityCandidate>, a: nat, b: nat)
    requires DistinctNames(cs) && a < |cs| && b < |cs| && cs[a].name == cs[b].name
    ensures a == b
  {
  }

  // ---------- selection from a snapshot ----------

  predicate Open(s: Server, snap: Snapshot, reserved: set<string>) {
    s.machineId !in snap.drained && s.machineId !in reserved
  }

  /** `s` could be given to `job` right now. */
  predicate Usable(job: Job, s: Server, snap: Snapshot, reserved: set<string>) {
    Open(s, snap, reserved) && Key(s) in snap.reachable && HasWorkloadCapacity(job, snap.reachable[Key(s)])
  }

  /** Capacity comes from the shared probe; the launch paths stay those of the job's own server. */
  function Lookup(servers: seq<Server>, snap: Snapshot): (r: seq<Probed>)
    ensures forall p :: p in r ==> p.server in servers && Key(p.server) in snap.reachable
                                   && p == snap.reachable[Key(p.server)].(server := p.server)
    ensures forall s :: s in servers && Key(s) in snap.reachable ==> snap.reachable[Key(s)].(server := s) in r
  {
    if servers == [] then []
    else
      var s := servers[0];
      (if Key(s) in snap.reachable then [snap.reachable[Key(s)].(server := s)] else []) + Lookup(servers[1..], snap)
  }

  /** The server filter of a selection: open, and of an allowed name when names are limited. */
  function OpenAndAllowed(snap: Snapshot, reserved: set<string>, allowed: Option<set<string>>): Server -> bool {
    (s: Server) => Open(s, snap, reserved) && (allowed.None? || s.name in allowed.value)
  }

  function OpenAndUnprotected(snap: Snapshot, reserved: set<string>, shielded: set<string>): Server -> bool {
    (s: Server) => Open(s, snap, reserved) && s.machineId !in shielded
  }

  /** `_select_from_snapshot`: ranked candidates, optionally limited to some server names. */
  function SelectFromSnapshot(job: Job, snap: Snapshot, reserved: set<string>,
                              allowed: Option<set<string>>): seq<Probed>
  {
    RankForWorkload(job, Lookup(Filter(OpenAndAllowed(snap, reserved, allowed), EligibleServers(job)), snap))
  }

  /** The same selection, limited by machine instead of by name: nothing on a
      protected machine. The planning results are stated about this form. */
  function Candidates(job: Job, snap: Snapshot, reserved: set<string>, shielded: set<string>): seq<Probed> {
    RankForWorkload(job, Lookup(Filter(OpenAndUnprotected(snap, reserved, shielded), EligibleServers(job)), snap))
  }

  /** A job has a candidate exactly when a usable server of it is unprotected, and every
      candidate is such a server with the capacity the shared probe saw. */
  lemma CandidatesAreUsable(job: Job, snap: Snapshot, reserved: set<string>, shielded: set<string>)
    ensures var r := Candidates(job, snap, reserved, shielded);
            && (r == [] <==> forall s :: s in EligibleServers(job) && Usable(job, s, snap, reserved) ==> s.machineId in shielded)
            && (forall p :: p in r ==>
                  p.server in EligibleServers(job) && Usable(job, p.server, snap, reserved)
                  && p.server.machineId !in shielded
                  && p == snap.reachable[Key(p.server)].(server := p.server))
  {
    var servers := Filter(OpenAndUnprotected(snap, reserved, shielded), EligibleServers(job));
    var probed := Lookup(servers, snap);
    assert forall s :: s in servers && Key(s) in snap.reachable ==>
                         snap.reachable[Key(s)].(server := s) in probed
                         && (HasWorkloadCapacity(job, snap.reachable[Key(s)].(server := s)) <==>
                             HasWorkloadCapacity(job, snap.reachable[Key(s)]));
  }

  /** Machines of `job` that are not drained: what a blocked job protects. */
  function UndrainedMachines(job: Job, drained: set<string>): (r: set<string>)
  {
    set s | s in EligibleServers(job) && s.machineId !in drained :: s.machineId
  }

  /** The name-to-machine dictionary of a backfill candidate. */
  function MachineByName(servers: seq<Server>): (r: map<string, string>)
    ensures forall s :: s in servers ==> s.name in r
    ensures forall n :: n in r ==> exists s :: s in servers && s.name == n && s.machineId == r[n]
  {
    if servers == [] then map[]
    else
      var last := |servers| - 1;
      assert servers == servers[..last] + [servers[last]];
      MachineByName(servers[..last])[servers[last].name := servers[last].machineId]
  }

  function UndrainedByName(job: Job, drained: set<string>): map<string, string> {
    MachineByName(Filter((s: Server) => s.machineId !in drained, EligibleServers(job)))
  }

  function SafeNames(job: Job, drained: set<string>, shielded: set<string>): set<string> {
    var byName := UndrainedByName(job, drained);
    set n | n in byName && byName[n] !in shielded
  }

  lemma UndrainedByNameIsExact(job: Job, drained: set<string>, s: Server)
    requires ValidJob(job) && s in EligibleServers(job) && s.machineId !in drained
    ensures s.name in UndrainedByName(job, drained) && UndrainedByName(job, drained)[s.name] == s.machineId
  {
    var servers := Filter((s: Server) => s.machineId !in drained, EligibleServers(job));
    var byName := UndrainedByName(job, drained);
    assert s in servers && s.name in byName;
    var t :| t in servers && t.name == s.name && t.machineId == byName[s.name];
    NamesIdentifyServers(job, s, t);
  }

  lemma UndrainedByNameValues(job: Job, drained: set<string>)
    requires ValidJob(job)
    ensures UndrainedByName(job, drained).Values == UndrainedMachines(job, drained)
  {
    var byName := UndrainedByName(job, drained);
    var servers := Filter((s: Server) => s.machineId !in drained, EligibleServers(job));
    forall m | m in byName.Values ensures m in UndrainedMachines(job, drained) {
      var n :| n in byName && byName[n] == m;
      var s :| s in servers && s.name == n && s.machineId == byName[n];
    }
    forall m | m in UndrainedMachines(job, drained) ensures m in byName.Values {
      var s :| s in EligibleServers(job) && s.machineId !in drained && s.machineId == m;
      UndrainedByNameIsExact(job, drained, s);
      assert byName[s.name] in byName.Values;
    }
  }

  /** Limiting by safe names and limiting by unprotected machines select the same candidates. */
  lemma SafeNamesMeanUnprotectedMachines(job: Job, snap: Snapshot, reserved: set<string>, shielded: set<string>)
    requires ValidJob(job)
    ensures SelectFromSnapshot(job, snap, reserved, Some(SafeNames(job, snap.drained, shielded)))
         == Candidates(job, snap, reserved, shielded)
    ensures SelectFromSnapshot(job, snap, reserved, None) == Candidates(job, snap, reserved, {})
    ensures SafeNames(job, snap.drained, shielded) == {} ==> Candidates(job, snap, reserved, shielded) == []
  {
    var safe := SafeNames(job, snap.drained, shielded);
    forall s | s in EligibleServers(job) && s.machineId !in snap.drained
      ensures s.name in safe <==> s.machineId !in shielded
    {
      UndrainedByNameIsExact(job, snap.drained, s);
    }
    FilterAgrees(OpenAndAllowed(snap, reserved, Some(safe)), OpenAndUnprotected(snap, reserved, shielded),
                 EligibleServers(job));
    FilterAgrees(OpenAndAllowed(snap, reserved, None), OpenAndUnprotected(snap, reserved, {}), EligibleServers(job));
    if safe == {} {
      CandidatesAreUsable(job, snap, reserved, shielded);
      forall s | s in EligibleServers(job) && Usable(job, s, snap, reserved) ensures s.machineId in shielded {
        assert s.name !in safe;
      }
    }
  }

  /** Selection is antitone: reserving or protecting more machines never makes a blocked job selectable. */
  lemma SelectionIsAntitone(job: Job, snap: Snapshot, reserved: set<string>, reserved': set<string>,
                            shielded: set<string>, shielded': set<string>)
    requires reserved <= reserved' && shielded <= shielded'
    requires Candidates(job, snap, reserved, shielded) == []
    ensures Candidates(job, snap, reserved', shielded') == []
  {
    CandidatesAreUsable(job, snap, reserved, shielded);
    CandidatesAreUsable(job, snap, reserved', shielded');
    forall s | s in EligibleServers(job) && Usable(job, s, snap, reserved') ensures s.machineId in shielded' {
      assert Usable(job, s, snap, reserved);
    }
  }
}
