/** The capacity guarantee depends on one timing condition, and exactly on that one: the lease of every run that
    shares a machine with another must last as long as an acquire may lag behind its record read. */
module DispatchTiming {
  import opened Common
  import opened Placement
  import opened DispatchProtocol
  import opened DispatchSteps
  import opened DispatchSafety

  lemma {:induction false} RunAppend(c: Config, s: State, xs: seq<Step>, mid: State, ys: seq<Step>)
    requires Run(c, s, xs) == Some(mid)
    ensures Run(c, s, xs + ys) == Run(c, mid, ys)
    decreases |xs|
  {
    if xs == [] {
      assert xs + ys == ys;
    } else {
      assert (xs + ys)[1..] == xs[1..] + ys;
      RunAppend(c, Next(c, s, xs[0]).value, xs[1..], mid, ys);
    }
  }

  lemma OneMore(c: Config, s: State, xs: seq<Step>, mid: State, step: Step, t: State)
    requires Run(c, s, xs) == Some(mid) && Next(c, mid, step) == Some(t)
    ensures Run(c, s, xs + [step]) == Some(t)
  {
    RunAppend(c, s, xs, mid, [step]);
    assert Run(c, t, [step][1..]) == Some(t);
  }

  // ---------- one dispatcher at work, undisturbed ----------

  /** `p` can start on queued run `r` on machine `m`: nobody leases it, and its probe would admit the run. */
  predicate CanStart(c: Config, s: State, p: nat, r: RunId, m: MachineId) {
    && p < |s.procs| && s.procs[p].Idle? && c.lag > 0
    && r in c.jobs && r in s.queue && s.queue[r].status == Queued && r !in s.exec
    && m in c.cores && MayUse(c, r, m) && m !in s.leases
    && Admits(c.jobs[r], ActiveOn(s.live, m), c.cores[m], SlotsOf(s, m, c.jobs[r].workloadClass))
  }

  function GrantFor(c: Config, s: State, r: RunId, m: MachineId): Grant
    requires r in c.jobs && r in s.queue && m in c.cores
  {
    Grant(r, s.queue[r].revision + 1, s.now, m, s.nextToken, Allocation(c.jobs[r], c.cores[m]), SlotsOf(s, m, c.jobs[r].workloadClass))
  }

  function AfterOwned(c: Config, s: State, p: nat, r: RunId, m: MachineId): State
    requires CanStart(c, s, p, r, m)
  {
    s.(nextToken := s.nextToken + 1,
       leases := s.leases[m := Lease(r, s.nextToken, s.now + Ttl(c, r))],
       queue := s.queue[r := QueueRecord(InDispatch, s.queue[r].revision + 1, Some((m, s.nextToken)))],
       procs := s.procs[p := Pipe(Owned, GrantFor(c, s, r, m))])
  }

  function AfterAdmitted(c: Config, s: State, p: nat, r: RunId, m: MachineId): State
    requires CanStart(c, s, p, r, m)
  {
    s.(nextToken := s.nextToken + 1,
       leases := s.leases[m := Lease(r, s.nextToken, s.now + Ttl(c, r))],
       procs := s.procs[p := Pipe(Admitted, GrantFor(c, s, r, m).(revision := s.queue[r].revision))])
  }

  lemma ReachesAdmitted(c: Config, s: State, p: nat, r: RunId, m: MachineId) returns (steps: seq<Step>)
    requires CanStart(c, s, p, r, m)
    ensures Run(c, s, steps) == Some(AfterAdmitted(c, s, p, r, m))
  {
    hide Admits, MayUse, Allocation, ActiveOn;
    var rev := s.queue[r].revision;
    var s1 := SetProc(s, p, RowRead(r, rev, s.now));
    OneMore(c, s, [], s, L(p, ReadRow(r)), s1);
    steps := [] + [L(p, ReadRow(r))];
    var s2 := SetProc(Acquire(c, s1, m, r), p, Pipe(Leased, Grant(r, rev, s.now, m, s.nextToken, 1, 0)));
    OneMore(c, s, steps, s1, L(p, AcquireLease(m)), s2);
    steps := steps + [L(p, AcquireLease(m))];
    AdmittedWithRoom(c, s2, p);
    var s3 := Next(c, s2, L(p, ProbeAndAdmit)).value;
    OneMore(c, s, steps, s2, L(p, ProbeAndAdmit), s3);
    steps := steps + [L(p, ProbeAndAdmit)];
    TwiceSet(s.procs, p, s1.procs[p], s2.procs[p]);
    TwiceSet(s.procs, p, s2.procs[p], s3.procs[p]);
  }

  lemma ReachesOwned(c: Config, s: State, p: nat, r: RunId, m: MachineId) returns (steps: seq<Step>)
    requires CanStart(c, s, p, r, m)
    ensures Run(c, s, steps) == Some(AfterOwned(c, s, p, r, m))
  {
    steps := ReachesAdmitted(c, s, p, r, m);
    var mid := AfterAdmitted(c, s, p, r, m);
    OwnedFromAdmitted(c, s, p, r, m, mid);
    hide Run, CanStart, AfterOwned, AfterAdmitted;
    steps := ThenOwned(c, s, steps, mid, p);
  }

  lemma OwnedFromAdmitted(c: Config, s: State, p: nat, r: RunId, m: MachineId, mid: State)
    requires CanStart(c, s, p, r, m) && mid == AfterAdmitted(c, s, p, r, m)
    ensures AtPhase(mid, p, Admitted)
    ensures var g := mid.procs[p].g;
            && QueueAt(mid, g.run, Queued, g.revision) && Holds(mid, g.machine, g.token)
            && SetProc(Renew(c, SetQueue(mid, g.run, InDispatch, Some((g.machine, g.token))), g.machine), p,
                       Pipe(Owned, g.(revision := g.revision + 1))) == AfterOwned(c, s, p, r, m)
  {
    hide SlotsOf, Allocation;
    TwiceSet(s.procs, p, mid.procs[p], Pipe(Owned, GrantFor(c, s, r, m)));
    assert mid.leases[m := Lease(r, s.nextToken, s.now + Ttl(c, r))] == mid.leases;
  }

  lemma TwiceSet(procs: seq<Proc>, p: nat, x: Proc, y: Proc)
    requires p < |procs|
    ensures procs[p := x][p := y] == procs[p := y]
  {
  }

  lemma AdmittedWithRoom(c: Config, s: State, p: nat)
    requires AtPhase(s, p, Leased) && s.procs[p].g.run in c.jobs && s.procs[p].g.machine in c.cores
    requires var g := s.procs[p].g;
             Admits(c.jobs[g.run], ActiveOn(s.live, g.machine), c.cores[g.machine], SlotsOf(s, g.machine, c.jobs[g.run].workloadClass))
    ensures var g := s.procs[p].g;
            var job, cores := c.jobs[g.run], c.cores[g.machine];
            Next(c, s, L(p, ProbeAndAdmit)) == Some(SetProc(s, p, Pipe(Admitted,
              g.(cores := Allocation(job, cores), slots := SlotsOf(s, g.machine, job.workloadClass)))))
  {
  }

  lemma ThenOwned(c: Config, s: State, before: seq<Step>, mid: State, p: nat) returns (steps: seq<Step>)
    requires Run(c, s, before) == Some(mid) && AtPhase(mid, p, Admitted)
    requires var g := mid.procs[p].g; QueueAt(mid, g.run, Queued, g.revision) && Holds(mid, g.machine, g.token)
    ensures var g := mid.procs[p].g;
            Run(c, s, steps) == Some(SetProc(Renew(c, SetQueue(mid, g.run, InDispatch, Some((g.machine, g.token))), g.machine), p,
                                             Pipe(Owned, g.(revision := g.revision + 1))))
  {
    hide Run;
    var g := mid.procs[p].g;
    var g' := g.(revision := g.revision + 1);
    var marked := SetQueue(mid, g.run, InDispatch, Some((g.machine, g.token)));
    OneMore(c, s, before, mid, L(p, MarkDispatching), SetProc(marked, p, Pipe(Marked, g')));
    steps := before + [L(p, MarkDispatching)];
    OwnedNext(c, marked, p, g');
    OneMore(c, s, steps, SetProc(marked, p, Pipe(Marked, g')), L(p, CheckOwned), SetProc(Renew(c, marked, g.machine), p, Pipe(Owned, g')));
    steps := steps + [L(p, CheckOwned)];
  }

  lemma OwnedNext(c: Config, s: State, p: nat, g: Grant)
    requires p < |s.procs| && Holds(s, g.machine, g.token)
    ensures Next(c, SetProc(s, p, Pipe(Marked, g)), L(p, CheckOwned)) == Some(SetProc(Renew(c, s, g.machine), p, Pipe(Owned, g)))
  {
    TwiceSet(s.procs, p, Pipe(Marked, g), Pipe(Owned, g));
  }

  function AfterFence(c: Config, s: State, p: nat): State
    requires AtPhase(s, p, Owned) && Holds(s, s.procs[p].g.machine, s.procs[p].g.token)
  {
    var g := s.procs[p].g;
    s.(exec := s.exec[g.run := ExecRecord(Awaiting, g.machine, g.token)],
       leases := s.leases[g.machine := s.leases[g.machine].(expires := s.now + Ttl(c, s.leases[g.machine].run))],
       windows := s.windows[g.run := Window(g.machine, g.token, s.now, g.revision, g.cores, g.slots, false)],
       procs := s.procs[p := Pipe(Fenced, g)])
  }

  lemma ThenFenced(c: Config, s: State, before: seq<Step>, mid: State, p: nat) returns (steps: seq<Step>)
    requires Run(c, s, before) == Some(mid) && AtPhase(mid, p, Owned)
    requires Holds(mid, mid.procs[p].g.machine, mid.procs[p].g.token) && mid.procs[p].g.run !in mid.exec
    ensures Run(c, s, steps) == Some(AfterFence(c, mid, p))
  {
    hide Run;
    var g := mid.procs[p].g;
    var registered := mid.(exec := mid.exec[g.run := ExecRecord(Awaiting, g.machine, g.token)]);
    OneMore(c, s, before, mid, L(p, Register), SetProc(registered, p, Pipe(Registered, g)));
    FencedNext(c, registered, p, g);
    hide Next;
    OneMore(c, s, before + [L(p, Register)], SetProc(registered, p, Pipe(Registered, g)), L(p, CheckFence), AfterFence(c, mid, p));
    steps := before + [L(p, Register)] + [L(p, CheckFence)];
  }

  lemma FencedNext(c: Config, s: State, p: nat, g: Grant)
    requires p < |s.procs| && Holds(s, g.machine, g.token) && g.run in s.exec && s.exec[g.run].status == Awaiting
    ensures Next(c, SetProc(s, p, Pipe(Registered, g)), L(p, CheckFence))
         == Some(s.(leases := s.leases[g.machine := s.leases[g.machine].(expires := s.now + Ttl(c, s.leases[g.machine].run))],
                    windows := s.windows[g.run := Window(g.machine, g.token, s.now, g.revision, g.cores, g.slots, false)],
                    procs := s.procs[p := Pipe(Fenced, g)]))
  {
    TwiceSet(s.procs, p, Pipe(Registered, g), Pipe(Fenced, g));
  }

  /** The bootstrap is sent and the run appears. */
  lemma ThenLanded(c: Config, s: State, before: seq<Step>, mid: State, p: nat) returns (steps: seq<Step>, t: State)
    requires Run(c, s, before) == Some(mid) && AtPhase(mid, p, Fenced) && !RunLocked(mid, mid.procs[p].g.run)
    requires var r := mid.procs[p].g.run;
             r in c.jobs && r in mid.exec && mid.exec[r].status == Awaiting && r in mid.windows
    ensures Run(c, s, steps) == Some(t)
    ensures var r := mid.procs[p].g.run;
            && t.live == mid.live + [Live(mid.windows[r].machine, ActiveRun(r, c.jobs[r].workloadClass, Some(mid.windows[r].cores)))]
            && t.windows == mid.windows - {r} && t.exec == mid.exec && t.landed == mid.landed + {r}
            && t.queue == mid.queue && t.leases == mid.leases
            && t.procs == mid.procs[p := Pipe(Launching, mid.procs[p].g)]
  {
    var g := mid.procs[p].g;
    var s1 := SetProc(mid.(windows := MarkSent(mid.windows, g.run), sent := mid.sent + [g.run]), p, Pipe(Launching, g));
    OneMore(c, s, before, mid, L(p, SendBootstrap), s1);
    t := Next(c, s1, O(Land(g.run))).value;
    OneMore(c, s, before + [L(p, SendBootstrap)], s1, O(Land(g.run)), t);
    steps := before + [L(p, SendBootstrap)] + [O(Land(g.run))];
  }

  /** The launch is confirmed, the row committed and the lease given back. */
  lemma ThenCommitted(c: Config, s: State, before: seq<Step>, mid: State, p: nat) returns (steps: seq<Step>, t: State)
    requires Run(c, s, before) == Some(mid) && AtPhase(mid, p, Launching)
    requires var g := mid.procs[p].g;
             && g.run in mid.landed && g.run in mid.exec && QueueAt(mid, g.run, InDispatch, g.revision)
             && Holds(mid, g.machine, g.token) && mid.leases[g.machine].run == g.run
    ensures Run(c, s, steps) == Some(t)
    ensures var g := mid.procs[p].g;
            && g.run in t.queue && t.queue[g.run].status == Dispatched && g.run in t.exec && t.exec[g.run].status == Running
            && g.machine !in t.leases && t.live == mid.live && t.procs == mid.procs[p := Idle]
  {
    hide Run;
    var g := mid.procs[p].g;
    var s1 := SetProc(mid.(exec := mid.exec[g.run := mid.exec[g.run].(status := Running)]), p, Pipe(Launched, g));
    OneMore(c, s, before, mid, L(p, BootstrapConfirmed), s1);
    steps := before + [L(p, BootstrapConfirmed)];
    var s2 := SetProc(SetQueue(s1, g.run, Dispatched, None), p, Pipe(Releasing, g));
    OneMore(c, s, steps, s1, L(p, CommitDispatched), s2);
    steps := steps + [L(p, CommitDispatched)];
    t := SetProc(Release(s2, g.machine, g.run, g.token), p, Idle);
    OneMore(c, s, steps, s2, L(p, GiveLeaseBack), t);
    steps := steps + [L(p, GiveLeaseBack)];
    TwiceSet(mid.procs, p, s1.procs[p], s2.procs[p]);
    TwiceSet(mid.procs, p, s2.procs[p], Idle);
  }

  /** A dispatcher that is left alone brings a queued run that fits the machine all the way: the row is dispatched,
      the run is on the machine with its allocation, its record says running, and no lease is left. */
  lemma UndisturbedDispatchCompletes(c: Config, s: State, p: nat, r: RunId, m: MachineId)
    returns (steps: seq<Step>, t: State)
    requires CanStart(c, s, p, r, m) && !RunLocked(s, r)
    ensures Run(c, s, steps) == Some(t)
    ensures r in t.queue && t.queue[r].status == Dispatched && r in t.exec && t.exec[r].status == Running
    ensures t.live == s.live + [Live(m, ActiveRun(r, c.jobs[r].workloadClass, Some(Allocation(c.jobs[r], c.cores[m]))))]
    ensures m !in t.leases && p < |t.procs| && t.procs[p].Idle?
  {
    var owned := ReachesOwned(c, s, p, r, m);
    var s1 := AfterOwned(c, s, p, r, m);
    var fenced := ThenFenced(c, s, owned, s1, p);
    var s2 := AfterFence(c, s1, p);
    FenceReady(c, s, p, r, m);
    hide Run, AfterOwned, AfterFence, CanStart, RunLocked;
    var landed, s3 := ThenLanded(c, s, fenced, s2, p);
    steps, t := ThenCommitted(c, s, landed, s3, p);
  }

  /** What the first half of an undisturbed dispatch leaves for the second. */
  lemma FenceReady(c: Config, s: State, p: nat, r: RunId, m: MachineId)
    requires CanStart(c, s, p, r, m) && !RunLocked(s, r)
    ensures var t := AfterFence(c, AfterOwned(c, s, p, r, m), p);
            var g := GrantFor(c, s, r, m);
            && p < |t.procs| && t.procs[p] == Pipe(Fenced, g) && !RunLocked(t, r) && t.live == s.live
            && r in t.exec && t.exec[r].status == Awaiting && r in t.windows && t.windows[r].machine == m && t.windows[r].cores == g.cores
            && QueueAt(t, r, InDispatch, g.revision) && Holds(t, m, g.token) && t.leases[m].run == r
  {
    hide SlotsOf, Allocation, ActiveOn;
  }

  // ---------- the interleaving that goes wrong ----------

  /** Cores on `m` that leave room for the larger of two runs. */
  function Spare(c: Config, a: RunId, b: RunId, m: MachineId): (n: nat)
    requires Shares(c, a, b, m)
    ensures n + Allocation(c.jobs[a], c.cores[m]) <= c.cores[m] && n + Allocation(c.jobs[b], c.cores[m]) <= c.cores[m]
    ensures n + Allocation(c.jobs[a], c.cores[m]) + Allocation(c.jobs[b], c.cores[m]) > c.cores[m]
  {
    var x, y := Allocation(c.jobs[a], c.cores[m]), Allocation(c.jobs[b], c.cores[m]);
    c.cores[m] - (if x <= y then y else x)
  }

  /** The machine runs work of another project on just so many cores. */
  function OtherWork(c: Config, a: RunId, b: RunId, m: MachineId, name: RunId): (live: seq<Live>)
    requires Shares(c, a, b, m)
    ensures |live| <= 1
  {
    var n := Spare(c, a, b, m);
    if n == 0 then [] else [Live(m, ActiveRun(name, Standard, Some(n)))]
  }

  /** Three dispatchers, no records, and work of another project. */
  function Beginning(live: seq<Live>): State {
    State(0, 0, map[], map[], map[], map[], map[], live, [Idle, Idle, Idle], [], {})
  }

  lemma OtherWorkOn(c: Config, a: RunId, b: RunId, m: MachineId, name: RunId, k: MachineId, lane: WorkloadClass)
    requires Shares(c, a, b, m)
    ensures var active := ActiveOn(OtherWork(c, a, b, m, name), k);
            && AssignedCores(active) == (if k == m then Spare(c, a, b, m) else 0)
            && LaneCount(active, lane) <= 1 && !AllocationUnknown(active)
  {
    var live := OtherWork(c, a, b, m, name);
    if live != [] {
      assert live[1..] == [] && ActiveOn(live[1..], k) == [];
      assert ActiveOn(live, k) == if k == m then [live[0].run] else [];
      assert [live[0].run][1..] == [];
    }
  }

  lemma BeginningIsInitial(c: Config, a: RunId, b: RunId, m: MachineId, name: RunId)
    requires Shares(c, a, b, m) && name !in c.jobs
    ensures Initial(c, Beginning(OtherWork(c, a, b, m, name)))
  {
    forall k | k in c.cores ensures CoresInUse(Beginning(OtherWork(c, a, b, m, name)), k) <= c.cores[k] {
      OtherWorkOn(c, a, b, m, name, k, Standard);
    }
  }

  /** There is always a name outside a finite set of names. */
  lemma {:induction false} NewName(names: set<string>) returns (name: string)
    ensures forall n :: n in names ==> |n| < |name|
    ensures name !in names
  {
    if names == {} {
      name := "x";
    } else {
      var n :| n in names;
      var shorter := NewName(names - {n});
      name := shorter + n + "x";
    }
  }

  function Submissions(c: Config, a: RunId, b: RunId, m: MachineId, live: seq<Live>): State
    requires a in c.jobs && b in c.jobs
  {
    Beginning(live).(slots := map[(m, Standard) := 3, (m, Test) := 3],
                     queue := map[a := QueueRecord(Queued, 0, None), b := QueueRecord(Queued, 0, None)])
  }

  lemma Begins(c: Config, a: RunId, b: RunId, m: MachineId, live: seq<Live>) returns (steps: seq<Step>)
    requires Shares(c, a, b, m)
    ensures Run(c, Beginning(live), steps) == Some(Submissions(c, a, b, m, live))
  {
    hide MayUse;
    var s := Beginning(live);
    var s1 := s.(slots := map[(m, Standard) := 3]);
    var s2 := s.(slots := map[(m, Standard) := 3, (m, Test) := 3]);
    var s3 := s2.(queue := map[a := QueueRecord(Queued, 0, None)]);
    OneMore(c, s, [], s, O(SetSlots(m, Standard, 3)), s1);
    OneMore(c, s, [] + [O(SetSlots(m, Standard, 3))], s1, O(SetSlots(m, Test, 3)), s2);
    OneMore(c, s, [] + [O(SetSlots(m, Standard, 3))] + [O(SetSlots(m, Test, 3))], s2, O(Submit(a)), s3);
    steps := [] + [O(SetSlots(m, Standard, 3))] + [O(SetSlots(m, Test, 3))] + [O(Submit(a))];
    OneMore(c, s, steps, s3, O(Submit(b)), Submissions(c, a, b, m, live));
    steps := steps + [O(Submit(b))];
  }

  /** With that other work and free slots on the machine, either run can be started while neither is there. */
  lemma RoomForEither(c: Config, s: State, p: nat, r: RunId, a: RunId, b: RunId, m: MachineId, name: RunId)
    requires Shares(c, a, b, m) && r in {a, b} && c.lag > 0 && s.live == OtherWork(c, a, b, m, name)
    requires p < |s.procs| && s.procs[p].Idle? && r in s.queue && s.queue[r].status == Queued && r !in s.exec && m !in s.leases
    requires s.slots == map[(m, Standard) := 3, (m, Test) := 3]
    ensures CanStart(c, s, p, r, m)
  {
    hide MayUse;
    OtherWorkOn(c, a, b, m, name, m, c.jobs[r].workloadClass);
  }

  /** A second dispatcher sees the row dispatching, finds no execution record, and lists its one lease. */
  lemma ThenWatched(c: Config, s: State, before: seq<Step>, mid: State, r: RunId, m: MachineId)
    returns (steps: seq<Step>)
    requires Run(c, s, before) == Some(mid) && |mid.procs| > 1 && mid.procs[1].Idle?
    requires r in mid.queue && mid.queue[r].status == InDispatch && r !in mid.exec && m in mid.leases
             && LeasesOf(mid, r) == {m}
    ensures Run(c, s, steps) == Some(SetProc(mid, 1, OneLease(r, mid.queue[r].revision, mid.now, m)))
  {
    var rev := mid.queue[r].revision;
    var s1 := SetProc(mid, 1, SawDispatching(r, rev));
    OneMore(c, s, before, mid, R(1, ReadDispatching(r)), s1);
    steps := before + [R(1, ReadDispatching(r))];
    var s2 := SetProc(mid, 1, NoRecord(r, rev, mid.now));
    TwiceSet(mid.procs, 1, s1.procs[1], s2.procs[1]);
    OneMore(c, s, steps, s1, R(1, CheckRecord), s2);
    steps := steps + [R(1, CheckRecord)];
    var s3 := SetProc(mid, 1, OneLease(r, rev, mid.now, m));
    TwiceSet(mid.procs, 1, s2.procs[1], s3.procs[1]);
    assert LeasesOf(s2, r) == LeasesOf(mid, r);
    OneMore(c, s, steps, s2, R(1, ListLeases), s3);
    steps := steps + [R(1, ListLeases)];
  }

  /** A lease time later it fences the lease of the first dispatcher away, although the launch window is open. */
  lemma ThenFencedAway(c: Config, s: State, before: seq<Step>, mid: State) returns (steps: seq<Step>)
    requires Run(c, s, before) == Some(mid) && |mid.procs| > 1 && mid.procs[1].OneLease? && c.lag > Ttl(c, mid.procs[1].run)
    requires mid.procs[1].readAt == mid.now
    requires var q := mid.procs[1]; q.machine in mid.leases && mid.leases[q.machine].run == q.run
                                    && mid.leases[q.machine].expires <= mid.now + Ttl(c, q.run)
    ensures var q := mid.procs[1];
            Run(c, s, steps) == Some(mid.(now := mid.now + Ttl(c, q.run), nextToken := mid.nextToken + 1,
                                          leases := mid.leases - {q.machine}, procs := mid.procs[1 := Unfenced(q.run, q.revision)]))
  {
    hide Run, Ttl;
    var q := mid.procs[1];
    var s1 := mid.(now := mid.now + Ttl(c, q.run));
    OneMore(c, s, before, mid, O(Tick(Ttl(c, q.run))), s1);
    steps := before + [O(Tick(Ttl(c, q.run)))];
    var s2 := SetProc(Acquire(c, s1, q.machine, q.run), 1, Refenced(q.run, q.revision, q.machine, s1.nextToken));
    OneMore(c, s, steps, s1, R(1, Refence), s2);
    steps := steps + [R(1, Refence)];
    var s3 := mid.(now := mid.now + Ttl(c, q.run), nextToken := mid.nextToken + 1,
                   leases := mid.leases - {q.machine}, procs := mid.procs[1 := Unfenced(q.run, q.revision)]);
    TwiceSet(mid.procs, 1, s2.procs[1], s3.procs[1]);
    assert s2.leases - {q.machine} == mid.leases - {q.machine};
    OneMore(c, s, steps, s2, R(1, ReleaseRefenced), s3);
    steps := steps + [R(1, ReleaseRefenced)];
  }

  /** Halfway: run `a` has its launch window open, but the machine's lease is gone. */
  predicate Halfway(c: Config, t: State, a: RunId, b: RunId, m: MachineId, live: seq<Live>) {
    && |t.procs| == 3 && t.procs[0].Pipe? && t.procs[0].phase == Fenced && t.procs[0].g.run == a
    && t.procs[1].Unfenced? && t.procs[2].Idle?
    && t.leases == map[] && t.live == live && b in t.queue && t.queue[b].status == Queued
    && a in t.exec && t.exec[a].status == Awaiting && b !in t.exec
    && a in t.windows && t.windows[a].machine == m && a in c.jobs && m in c.cores
    && t.windows[a].cores == Allocation(c.jobs[a], c.cores[m])
    && t.slots == map[(m, Standard) := 3, (m, Test) := 3]
  }

  /** Run `a` owned by the first dispatcher, everything else as submitted. */
  lemma FirstOwned(c: Config, a: RunId, b: RunId, m: MachineId, name: RunId) returns (steps: seq<Step>, t: State)
    requires Shares(c, a, b, m) && c.lag > Ttl(c, a)
    ensures var s0 := Submissions(c, a, b, m, OtherWork(c, a, b, m, name));
            && CanStart(c, s0, 0, a, m) && t == AfterOwned(c, s0, 0, a, m)
            && Run(c, Beginning(OtherWork(c, a, b, m, name)), steps) == Some(t)
  {
    hide MayUse, Admits, ActiveOn, OtherWork, Run, AfterOwned, CanStart;
    var live := OtherWork(c, a, b, m, name);
    var s0 := Submissions(c, a, b, m, live);
    RoomForEither(c, s0, 0, a, a, b, m, name);
    var begin := Begins(c, a, b, m, live);
    var start := ReachesOwned(c, s0, 0, a, m);
    RunAppend(c, Beginning(live), begin, s0, start);
    steps, t := begin + start, AfterOwned(c, s0, 0, a, m);
  }

  lemma ReachesHalfway(c: Config, a: RunId, b: RunId, m: MachineId, name: RunId) returns (steps: seq<Step>, t: State)
    requires Shares(c, a, b, m) && c.lag > Ttl(c, a)
    ensures Run(c, Beginning(OtherWork(c, a, b, m, name)), steps) == Some(t) && Halfway(c, t, a, b, m, OtherWork(c, a, b, m, name))
  {
    hide MayUse, Admits, ActiveOn, OtherWork, Run;
    var live := OtherWork(c, a, b, m, name);
    var s := Beginning(live);
    var owned, s1 := FirstOwned(c, a, b, m, name);
    assert LeasesOf(s1, a) == {m};
    var watch := ThenWatched(c, s, owned, s1, a, m);
    var s2 := SetProc(s1, 1, OneLease(a, s1.queue[a].revision, s1.now, m));
    var fence := ThenFenced(c, s, watch, s2, 0);
    var s3 := AfterFence(c, s2, 0);
    steps := ThenFencedAway(c, s, fence, s3);
    t := s3.(now := s3.now + Ttl(c, a), nextToken := s3.nextToken + 1, leases := s3.leases - {m},
             procs := s3.procs[1 := Unfenced(a, s1.queue[a].revision)]);
  }

  /** The other run is launched on the machine; the window of run `a` is still there to be used. */
  predicate OtherRuns(c: Config, t: State, a: RunId, b: RunId, m: MachineId, live: seq<Live>) {
    && |t.procs| > 0 && t.procs[0].Pipe? && t.procs[0].phase == Fenced && t.procs[0].g.run == a && !RunLocked(t, a)
    && a in c.jobs && m in c.cores && a in t.exec && t.exec[a].status == Awaiting
    && a in t.windows && t.windows[a].machine == m && t.windows[a].cores == Allocation(c.jobs[a], c.cores[m])
    && |t.live| == |live| + 1 && t.live[..|live|] == live && Uses(c, t.live[|live|], b, m)
  }

  lemma OtherLaunched(c: Config, h: State, a: RunId, b: RunId, m: MachineId, live: seq<Live>, start: State, first: seq<Step>)
    returns (steps: seq<Step>, t: State)
    requires a != b && Halfway(c, h, a, b, m, live) && Run(c, start, first) == Some(h) && CanStart(c, h, 2, b, m)
    ensures Run(c, start, steps) == Some(t) && OtherRuns(c, t, a, b, m, live)
  {
    hide Admits, MayUse;
    var owned := ReachesOwned(c, h, 2, b, m);
    RunAppend(c, start, first, h, owned);
    var s1 := AfterOwned(c, h, 2, b, m);
    OwnedUndisturbed(c, h, a, b, m, live, s1);
    hide Run, AfterOwned, CanStart;
    var fenced := ThenFenced(c, start, first + owned, s1, 2);
    var s2 := AfterFence(c, s1, 2);
    BothFenced(c, s1, a, b, m, live);
    hide AfterFence, Halfway;
    steps, t := ThenLanded(c, start, fenced, s2, 2);
  }

  /** Dispatcher 2 owns the machine for run `b`; dispatcher 0 still has the window of run `a`. */
  predicate Owning(c: Config, t: State, a: RunId, b: RunId, m: MachineId, live: seq<Live>) {
    && a in c.jobs && b in c.jobs && m in c.cores && a != b && |t.procs| == 3
    && t.procs[0].Pipe? && t.procs[0].phase == Fenced && t.procs[0].g.run == a && t.procs[1].Unfenced?
    && t.procs[2].Pipe? && t.procs[2].phase == Owned && t.procs[2].g.run == b && t.procs[2].g.machine == m
    && t.procs[2].g.cores == Allocation(c.jobs[b], c.cores[m])
    && Holds(t, m, t.procs[2].g.token) && t.live == live
    && a in t.exec && t.exec[a].status == Awaiting && b !in t.exec
    && a in t.windows && t.windows[a].machine == m && t.windows[a].cores == Allocation(c.jobs[a], c.cores[m])
  }

  lemma OwnedUndisturbed(c: Config, h: State, a: RunId, b: RunId, m: MachineId, live: seq<Live>, t: State)
    requires a != b && Halfway(c, h, a, b, m, live) && CanStart(c, h, 2, b, m) && t == AfterOwned(c, h, 2, b, m)
    ensures Owning(c, t, a, b, m, live)
  {
    hide Admits, MayUse;
  }

  lemma BothFenced(c: Config, s: State, a: RunId, b: RunId, m: MachineId, live: seq<Live>)
    requires Owning(c, s, a, b, m, live)
    ensures var t := AfterFence(c, s, 2);
            && |t.procs| == 3 && t.procs[0] == s.procs[0] && t.procs[1] == s.procs[1] && t.procs[2] == Pipe(Fenced, s.procs[2].g)
            && t.live == live && a in t.exec && t.exec[a] == s.exec[a] && b in t.exec && t.exec[b].status == Awaiting
            && a in t.windows && t.windows[a] == s.windows[a]
            && b in t.windows && t.windows[b].machine == m && t.windows[b].cores == s.procs[2].g.cores
            && !RunLocked(t, a) && !RunLocked(t, b)
  {
  }

  predicate Uses(c: Config, x: Live, r: RunId, m: MachineId)
  {
    r in c.jobs && m in c.cores && x.machine == m && x.run.assignedCores == Some(Allocation(c.jobs[r], c.cores[m]))
  }

  /** Two runs that share a machine, the lease of one shorter than the lag: with work of another project on the
      machine that leaves room for either of them, both end up there. */
  lemma Overcommits(c: Config, a: RunId, b: RunId, m: MachineId) returns (start: State, steps: seq<Step>, t: State)
    requires Shares(c, a, b, m) && !Outlasts(c, a)
    ensures Initial(c, start) && Run(c, start, steps) == Some(t) && CoresInUse(t, m) > c.cores[m]
  {
    var name := NewName(c.jobs.Keys);
    var live := OtherWork(c, a, b, m, name);
    start := Beginning(live);
    BeginningIsInitial(c, a, b, m, name);
    hide Run, Halfway, CanStart, OtherWork, MayUse, Initial, OtherRuns;
    var half, h := ReachesHalfway(c, a, b, m, name);
    HalfwayHasRoom(c, h, a, b, m, name);
    var other, o := OtherLaunched(c, h, a, b, m, live, start, half);
    FirstIsReady(c, o, a, b, m, live);
    steps, t := ThenLanded(c, start, other, o, 0);
    BothInUse(c, o, t, a, b, m, name);
  }

  lemma HalfwayHasRoom(c: Config, h: State, a: RunId, b: RunId, m: MachineId, name: RunId)
    requires Shares(c, a, b, m) && c.lag > 0 && Halfway(c, h, a, b, m, OtherWork(c, a, b, m, name))
    ensures CanStart(c, h, 2, b, m)
  {
    hide MayUse, OtherWork;
    RoomForEither(c, h, 2, b, a, b, m, name);
  }

  lemma FirstIsReady(c: Config, o: State, a: RunId, b: RunId, m: MachineId, live: seq<Live>)
    requires OtherRuns(c, o, a, b, m, live)
    ensures AtPhase(o, 0, Fenced) && o.procs[0].g.run == a && !RunLocked(o, a)
    ensures a in c.jobs && a in o.exec && o.exec[a].status == Awaiting && a in o.windows
  {
  }

  /** Both runs beside the other work are more than the machine has. */
  lemma BothInUse(c: Config, o: State, t: State, a: RunId, b: RunId, m: MachineId, name: RunId)
    requires Shares(c, a, b, m) && OtherRuns(c, o, a, b, m, OtherWork(c, a, b, m, name))
    requires t.live == o.live + [Live(o.windows[a].machine, ActiveRun(a, c.jobs[a].workloadClass, Some(o.windows[a].cores)))]
    ensures CoresInUse(t, m) > c.cores[m]
  {
    hide MayUse, RunLocked;
    var live := OtherWork(c, a, b, m, name);
    OtherWorkOn(c, a, b, m, name, m, Standard);
    TwoMoreInUse(live, o.live[|live|], t.live[|live| + 1], m);
    assert t.live == live + [o.live[|live|]] + [t.live[|live| + 1]];
  }

  lemma TwoMoreInUse(live: seq<Live>, x: Live, y: Live, m: MachineId)
    requires x.machine == m && y.machine == m && x.run.assignedCores.Some? && y.run.assignedCores.Some?
    ensures AssignedCores(ActiveOn(live + [x] + [y], m))
         == AssignedCores(ActiveOn(live, m)) + x.run.assignedCores.value + y.run.assignedCores.value
  {
    ActiveAppend(live, x, m);
    ActiveAppend(live + [x], y, m);
    OneMoreRun(ActiveOn(live, m), x.run, Standard);
    OneMoreRun(ActiveOn(live + [x], m), y.run, Standard);
  }

  /** MAIN: for every configuration, no run of the system ever overcommits any machine if and only if the lease of
      every run that shares a machine with another run lasts at least as long as an acquire may lag behind the record
      read it rests on. */
  lemma CapacityIsSafeExactlyWhenSharedLeasesOutlastLag(c: Config)
    ensures (forall t, k :: Reachable(c, t) && k in c.cores ==> CoresInUse(t, k) <= c.cores[k]) <==> SharedLeasesOutlastLag(c)
  {
    if SharedLeasesOutlastLag(c) {
      forall t, k | Reachable(c, t) && k in c.cores ensures CoresInUse(t, k) <= c.cores[k] {
        CapacityIsNeverExceeded(c, t, k);
      }
    } else {
      var r, o, m :| Shares(c, r, o, m) && !Outlasts(c, r);
      var start, steps, t := Overcommits(c, r, o, m);
      assert Reachable(c, t) && m in c.cores;
    }
  }
}
