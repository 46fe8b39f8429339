/** Deleting archived outputs: which runs are eligible, what one pass deletes, and why the output
    of every other run survives. Paths are sequences of components. */
module OutputPrune {
  import opened Common
  import opened ExecutionRecords

  type Path = seq<string>

  // ---------- paths ----------

  predicate Overlaps(a: Path, b: Path) {
    a <= b || b <= a
  }

  /** The place a path leads to once every parent component is followed. */
  function Resolve(p: Path): Path {
    if p == [] then []
    else
      var front, last := Resolve(p[..|p| - 1]), p[|p| - 1];
      if last == ".." then (if front == [] then [] else front[..|front| - 1]) else front + [last]
  }

  lemma {:induction false} ResolvePlain(p: Path)
    requires ".." !in p
    ensures Resolve(p) == p
  {
    if p != [] {
      ResolvePlain(p[..|p| - 1]);
      assert p == p[..|p| - 1] + [p[|p| - 1]];
    }
  }

  /** `resolve_output_path`: a relative path without dot or parent components, below the root. */
  function ResolveOutputPath(root: Option<Path>, rel: Path, absolute: bool): Result<Path> {
    if root.None? then Err("selected server has no configured output_root")
    else if absolute then Err("must be a relative POSIX path")
    else if rel == [] || "." in rel || ".." in rel then Err("cannot contain dot or parent traversal components")
    else Ok(root.value + rel)
  }

  /** A resolved output path leads strictly below where its root leads, even when the root itself goes through parents. */
  lemma {:induction false} OutputsStayBelowTheirRoot(root: Path, rel: Path)
    requires ResolveOutputPath(Some(root), rel, false).Ok?
    ensures Resolve(ResolveOutputPath(Some(root), rel, false).value) == Resolve(root) + rel && rel != []
  {
    if |rel| == 1 {
      assert (root + rel)[..|root + rel| - 1] == root;
    } else {
      var front := rel[..|rel| - 1];
      assert "." !in front && ".." !in front && front != [];
      OutputsStayBelowTheirRoot(root, front);
      assert (root + rel)[..|root + rel| - 1] == root + front;
      assert Resolve(root) + rel == Resolve(root) + front + [rel[|rel| - 1]];
    }
  }

  // ---------- records ----------

  datatype Run = Run(server: string, ssh: string, outputPath: Option<Path>, outputRoot: Option<Path>, revision: Option<string>, status: Status)

  /** A completed archive record; `verified` stands for the receipt's own checks. */
  datatype Record = Record(server: string, path: Path, revision: string, status: Status, verified: bool, deleted: bool)

  datatype Candidate = Candidate(run: RunId, server: string, ssh: string, path: Path)

  /** `_candidate`: the archive record and the execution record must tell the same story. */
  function CandidateOf(id: RunId, rec: Record, run: Run): Result<Candidate> {
    if !rec.verified then Err("source output lacks checksum verification")
    else if ".." in rec.path then Err("source_path must be a normalized absolute POSIX path")
    else if !Terminal(run.status) then Err("run is not authoritatively terminal")
    else if run.status != rec.status then Err("run status differs from synchronized intent")
    else if run.server != rec.server then Err("run source server differs from synchronized intent")
    else if run.outputPath != Some(rec.path) then Err("run output path differs from synchronized intent")
    else if run.revision.Some? && run.revision.value != rec.revision then Err("run source revision differs from synchronized intent")
    else if run.outputRoot.None? then Err("run manifest has no configured output_root")
    else Ok(Candidate(id, rec.server, run.ssh, rec.path))
  }

  /** Only an ended run whose archive was verified, and whose archive record still describes its output, is a candidate. */
  lemma CandidatesAreArchived(id: RunId, rec: Record, run: Run)
    ensures CandidateOf(id, rec, run).Ok? <==>
              && rec.verified && Terminal(run.status) && rec.status == run.status && rec.server == run.server
              && run.outputPath == Some(rec.path) && ".." !in rec.path && run.outputRoot.Some?
              && (run.revision.Some? ==> run.revision.value == rec.revision)
    ensures CandidateOf(id, rec, run).Ok? ==> CandidateOf(id, rec, run).value == Candidate(id, run.server, run.ssh, rec.path)
  {
  }

  predicate SameSource(server: string, ssh: string, run: Run) {
    run.server == server || run.ssh == ssh
  }

  /** A retained run whose output the deletion could touch. */
  predicate Blocks(other: RunId, c: Candidate, current: map<RunId, Run>, pruned: set<RunId>) {
    && other in current && other != c.run && other !in pruned
    && current[other].outputPath.Some? && SameSource(c.server, c.ssh, current[other])
    && Overlaps(c.path, current[other].outputPath.value)
  }

  predicate Blocked(c: Candidate, current: map<RunId, Run>, pruned: set<RunId>) {
    exists other :: other in current && Blocks(other, c, current, pruned)
  }

  /** The records one call is about. */
  predicate Asked(id: RunId, rec: Record, requested: Option<RunId>, servers: set<string>) {
    (requested.None? || id == requested.value) && (servers == {} || rec.server in servers)
  }

  predicate IsCandidate(c: Candidate, completed: map<RunId, Record>, current: map<RunId, Run>,
                        requested: Option<RunId>, servers: set<string>) {
    && c.run in completed && Asked(c.run, completed[c.run], requested, servers) && !completed[c.run].deleted
    && c.run in current && CandidateOf(c.run, completed[c.run], current[c.run]) == Ok(c)
  }

  /** The asked-for runs whose output is gone already: they block nobody. */
  predicate AlreadyPruned(id: RunId, completed: map<RunId, Record>, current: map<RunId, Run>,
                          requested: Option<RunId>, servers: set<string>) {
    && id in completed && Asked(id, completed[id], requested, servers) && completed[id].deleted
    && id in current && CandidateOf(id, completed[id], current[id]).Ok?
  }

  predicate IsEligible(c: Candidate, completed: map<RunId, Record>, current: map<RunId, Run>, requested: Option<RunId>,
                       servers: set<string>, pruned: set<RunId>) {
    IsCandidate(c, completed, current, requested, servers) && !Blocked(c, current, pruned)
  }

  datatype Plan = Plan(eligible: seq<Candidate>, pruned: set<RunId>, blocked: seq<RunId>)

  predicate DistinctIds(cs: seq<Candidate>) {
    forall i, j :: 0 <= i < j < |cs| ==> cs[i].run != cs[j].run
  }

  /** Every completed record asked about is a candidate, pruned already, or blocked for a reason. */
  method Classify(order: seq<RunId>, completed: map<RunId, Record>, current: map<RunId, Run>,
                  requested: Option<RunId>, servers: set<string>)
    returns (result: Result<(seq<Candidate>, set<RunId>)>)
    requires (forall id :: id in order <==> id in completed) && forall i, j :: 0 <= i < j < |order| ==> order[i] != order[j]
    ensures result.Ok? ==> forall id :: id in result.value.1 <==> AlreadyPruned(id, completed, current, requested, servers)
    ensures result.Ok? ==> forall c :: c in result.value.0 <==> IsCandidate(c, completed, current, requested, servers)
    ensures result.Ok? ==> DistinctIds(result.value.0)
    ensures requested.None? ==> result.Ok?
  {
    hide CandidateOf, Asked;
    var candidates: seq<Candidate> := [];
    var pruned: set<RunId> := {};
    for i := 0 to |order|
      invariant forall id :: id in pruned <==> id in order[..i] && AlreadyPruned(id, completed, current, requested, servers)
      invariant forall c :: c in candidates <==> c.run in order[..i] && IsCandidate(c, completed, current, requested, servers)
      invariant DistinctIds(candidates)
    {
      var id := order[i];
      assert order[..i + 1] == order[..i] + [id] && id !in order[..i];
      if !Asked(id, completed[id], requested, servers) { continue; }
      if id in current { CandidatesAreArchived(id, completed[id], current[id]); }
      var checked := if id in current then CandidateOf(id, completed[id], current[id]) else Err("current run record is unavailable");
      if checked.Err? {
        if requested.Some? { return Err(checked.reason); }
      } else if completed[id].deleted {
        pruned := pruned + {id};
      } else {
        candidates := candidates + [checked.value];
      }
    }
    assert order[..|order|] == order;
    return Ok((candidates, pruned));
  }

  /** The first half of `prune_outputs`: classify the completed records, then drop the blocked candidates. */
  method PlanPrune(order: seq<RunId>, completed: map<RunId, Record>, current: map<RunId, Run>,
                   requested: Option<RunId>, servers: set<string>) returns (plan: Result<Plan>)
    requires (forall id :: id in order <==> id in completed) && forall i, j :: 0 <= i < j < |order| ==> order[i] != order[j]
    ensures plan.Ok? ==> forall id :: id in plan.value.pruned <==> AlreadyPruned(id, completed, current, requested, servers)
    ensures plan.Ok? ==> forall c :: (c in plan.value.eligible <==> IsEligible(c, completed, current, requested, servers, plan.value.pruned))
    ensures plan.Ok? ==> DistinctIds(plan.value.eligible)
    ensures requested.None? ==> plan.Ok?
    ensures requested.Some? && requested.value !in completed ==> plan.Err?
  {
    if requested.Some? && requested.value !in completed { return Err("run has no completed output synchronization"); }
    var classified := Classify(order, completed, current, requested, servers);
    if classified.Err? { return Err(classified.reason); }
    var candidates, pruned := classified.value.0, classified.value.1;
    hide IsCandidate, AlreadyPruned, Blocked;
    var eligible: seq<Candidate> := [];
    var blocked: seq<RunId> := [];
    for i := 0 to |candidates|
      invariant forall c :: c in eligible <==> c in candidates[..i] && !Blocked(c, current, pruned)
      invariant DistinctIds(eligible)
    {
      var c := candidates[i];
      assert candidates[..i + 1] == candidates[..i] + [c];
      if Blocked(c, current, pruned) {
        if requested.Some? { return Err("output path overlaps retained runs"); }
        blocked := blocked + [c.run];
      } else {
        forall e | e in eligible ensures e.run != c.run {
          var j :| 0 <= j < i && candidates[..i][j] == e;
          assert candidates[j] == e;
        }
        eligible := eligible + [c];
      }
    }
    assert candidates[..|candidates|] == candidates;
    return Ok(Plan(eligible, pruned, blocked));
  }

  /** A deletion that was sent to the machine, with the registry read just before; `whole` when it was
      confirmed and recorded. */
  datatype Deletion = Deletion(c: Candidate, seen: map<RunId, Run>, whole: bool)

  datatype Answer = LeaseBusy | Leased(seen: map<RunId, Run>, failed: bool)

  /** Both checks hold again for the registry read under the lease. */
  predicate PassesAgain(a: Deletion, completed: map<RunId, Record>, pruned: set<RunId>) {
    && a.c.run in completed && a.c.run in a.seen && CandidateOf(a.c.run, completed[a.c.run], a.seen[a.c.run]).Ok?
    && !Blocked(a.c, a.seen, pruned)
  }

  /** The second half: under a maintenance lease each candidate is checked again against the registry as it is then. */
  method ApplyPrune(eligible: seq<Candidate>, completed: map<RunId, Record>, pruned: set<RunId>, answers: seq<Answer>)
    returns (attempts: seq<Deletion>, failed: set<RunId>)
    requires |answers| == |eligible| && forall c :: c in eligible ==> c.run in completed
    ensures forall a :: a in attempts ==> a.c in eligible && PassesAgain(a, completed, pruned) && (a.whole || a.c.run in failed)
    ensures forall a :: a in attempts ==> exists i :: 0 <= i < |answers| && eligible[i] == a.c && answers[i].Leased? && answers[i].seen == a.seen
    ensures forall c :: c in eligible ==> c.run in failed || exists a :: a in attempts && a.c == c
  {
    attempts, failed := [], {};
    for i := 0 to |eligible|
      invariant forall a :: a in attempts ==> a.c in eligible && PassesAgain(a, completed, pruned) && (a.whole || a.c.run in failed)
      invariant forall a :: a in attempts ==> exists j :: 0 <= j < i && eligible[j] == a.c && answers[j].Leased? && answers[j].seen == a.seen
      invariant forall j :: 0 <= j < i ==> eligible[j].run in failed || exists a :: a in attempts && a.c == eligible[j]
    {
      var c := eligible[i];
      if answers[i].LeaseBusy? {
        failed := failed + {c.run};
        continue;
      }
      var seen := answers[i].seen;
      if c.run !in seen || CandidateOf(c.run, completed[c.run], seen[c.run]).Err? || Blocked(c, seen, pruned) {
        failed := failed + {c.run};
        continue;
      }
      var attempt := Deletion(c, seen, !answers[i].failed);
      attempts := attempts + [attempt];
      assert attempt in attempts && attempt.c == eligible[i];
      if answers[i].failed { failed := failed + {c.run}; }
    }
  }

  // ---------- safety ----------

  /** What one pass deletes is pairwise disjoint on every shared source. */
  lemma DeletionsAreDisjoint(completed: map<RunId, Record>, current: map<RunId, Run>, requested: Option<RunId>,
                             servers: set<string>,
                             pruned: set<RunId>, a: Candidate, b: Candidate)
    requires IsCandidate(a, completed, current, requested, servers) && !Blocked(a, current, pruned)
    requires IsCandidate(b, completed, current, requested, servers) && !Blocked(b, current, pruned)
    requires forall id :: id in pruned ==> AlreadyPruned(id, completed, current, requested, servers)
    requires a.run != b.run && (a.server == b.server || a.ssh == b.ssh)
    ensures !Overlaps(a.path, b.path)
  {
    assert !Blocks(b.run, a, current, pruned);
  }

  type Host = string
  type Place = (Host, Path)

  /** A file system: what is at which resolved place of which host. */
  type Files = map<Place, string>

  predicate Below(place: Place, host: Host, root: Path) {
    place.0 == host && root <= place.1
  }

  /** A deletion, complete or cut short, touches nothing outside the tree it was sent for. */
  ghost predicate Deleted(before: Files, after: Files, host: Host, root: Path) {
    && (forall p :: p in after ==> p in before && before[p] == after[p])
    && (forall p :: p in before && p !in after ==> Below(p, host, Resolve(root)))
  }

  /** The output tree of a path on a host. */
  function Tree(files: Files, host: Host, root: Path): Files {
    map p | p in files && Below(p, host, Resolve(root)) :: files[p]
  }

  /** A deletion spares every path without a parent component that it does not overlap, and all other hosts. */
  lemma DeletionSpares(before: Files, after: Files, root: Path, where: Host, path: Path, host: Host)
    requires Deleted(before, after, where, root) && ".." !in root && ".." !in path
    requires where != host || !Overlaps(root, path)
    ensures Tree(after, host, path) == Tree(before, host, path)
  {
    ResolvePlain(path);
    ResolvePlain(root);
    forall p | p in before && Below(p, host, path) ensures p in after {
      if Below(p, where, root) { PrefixesOverlap(path, root, p.1); }
    }
  }

  /** Where a deletion was sent, by the candidate's server and SSH names. */
  function Target(a: Deletion, hostOf: (string, string) -> Host): Host {
    hostOf(a.c.server, a.c.ssh)
  }

  /** One whole pass: each deletion takes the file system to the next state, and a confirmed one leaves
      nothing of its tree. */
  ghost predicate PassOn(attempts: seq<Deletion>, states: seq<Files>, hostOf: (string, string) -> Host) {
    && |states| == |attempts| + 1
    && forall i :: 0 <= i < |attempts| ==> DeletedBy(states[i], states[i + 1], attempts[i], hostOf)
  }

  ghost predicate DeletedBy(before: Files, after: Files, a: Deletion, hostOf: (string, string) -> Host) {
    && Deleted(before, after, Target(a, hostOf), a.c.path)
    && (a.whole ==> Tree(after, Target(a, hostOf), a.c.path) == map[])
  }

  lemma PassSplits(attempts: seq<Deletion>, states: seq<Files>, hostOf: (string, string) -> Host)
    requires PassOn(attempts, states, hostOf) && attempts != []
    ensures PassOn(attempts[..|attempts| - 1], states[..|states| - 1], hostOf)
            && DeletedBy(states[|states| - 2], states[|states| - 1], attempts[|attempts| - 1], hostOf)
  {
    hide DeletedBy;
  }

  /** A retained run as every read of the pass sees it: its output, on its host, unless it is itself deleted. */
  predicate Retained(other: RunId, path: Path, host: Host, a: Deletion, pruned: set<RunId>, hostOf: (string, string) -> Host) {
    && other in a.seen && other != a.c.run && other !in pruned && a.seen[other].outputPath == Some(path)
    && (SameSource(a.c.server, a.c.ssh, a.seen[other]) || Target(a, hostOf) != host)
  }

  /** MAIN: whatever hosts the server and SSH names lead to, one whole pass over what the two halves let through
      leaves the output tree of every retained run as it was, if its path has no parent component. */
  lemma {:induction false} PassSparesOthers(attempts: seq<Deletion>, states: seq<Files>, hostOf: (string, string) -> Host,
                                            eligible: seq<Candidate>, completed: map<RunId, Record>, current: map<RunId, Run>,
                                            requested: Option<RunId>, servers: set<string>, pruned: set<RunId>,
                                            other: RunId, path: Path, host: Host)
    requires PassOn(attempts, states, hostOf)
    requires forall c :: c in eligible ==> IsEligible(c, completed, current, requested, servers, pruned)
    requires forall a :: a in attempts ==> a.c in eligible && PassesAgain(a, completed, pruned)
    requires forall a :: a in attempts ==> Retained(other, path, host, a, pruned, hostOf)
    requires ".." !in path
    ensures Tree(states[|states| - 1], host, path) == Tree(states[0], host, path)
  {
    if attempts != [] {
      var last := attempts[|attempts| - 1];
      hide IsEligible, PassesAgain, Retained, Deleted, Tree;
      PassSplits(attempts, states, hostOf);
      PassSparesOthers(attempts[..|attempts| - 1], states[..|states| - 1], hostOf, eligible, completed, current,
                       requested, servers, pruned, other, path, host);
      assert last in attempts;
      ApprovedPath(last, completed, current, requested, servers, pruned, other, path, host, hostOf);
      DeletionSpares(states[|states| - 2], states[|states| - 1], last.c.path, Target(last, hostOf), path, host);
    }
  }

  /** What the two checks say of the path of one deletion. */
  lemma ApprovedPath(a: Deletion, completed: map<RunId, Record>, current: map<RunId, Run>,
                     requested: Option<RunId>, servers: set<string>, pruned: set<RunId>,
                     other: RunId, path: Path, host: Host, hostOf: (string, string) -> Host)
    requires IsEligible(a.c, completed, current, requested, servers, pruned) && PassesAgain(a, completed, pruned)
    requires Retained(other, path, host, a, pruned, hostOf)
    ensures ".." !in a.c.path && (Target(a, hostOf) != host || !Overlaps(a.c.path, path))
  {
    hide Overlaps;
    CandidatesAreArchived(a.c.run, completed[a.c.run], current[a.c.run]);
    if Target(a, hostOf) == host { assert !Blocks(other, a.c, a.seen, pruned); }
  }

  /** MAIN: what a pass removes is below the paths it was sent for, what it leaves is unchanged, and nothing is
      left below the path of a confirmed deletion. */
  lemma {:induction false} PassRemovesExactly(attempts: seq<Deletion>, states: seq<Files>, hostOf: (string, string) -> Host)
    requires PassOn(attempts, states, hostOf)
    ensures var before, after := states[0], states[|states| - 1];
            && (forall p :: p in after ==> p in before && before[p] == after[p])
            && (forall p :: p in before && p !in after ==> SentFor(attempts, p, hostOf))
            && (forall a :: a in attempts && a.whole ==> Tree(after, Target(a, hostOf), a.c.path) == map[])
  {
    if attempts != [] {
      var n := |attempts| - 1;
      var front, last := attempts[..n], attempts[n];
      var before, mid, after := states[0], states[n], states[n + 1];
      hide Tree;
      PassSplits(attempts, states, hostOf);
      PassRemovesExactly(front, states[..n + 1], hostOf);
      forall p | p in before && p !in after ensures SentFor(attempts, p, hostOf) {
        if p in mid {
          assert last in attempts && Below(p, Target(last, hostOf), Resolve(last.c.path));
        } else {
          assert SentFor(front, p, hostOf);
        }
      }
      forall a | a in attempts && a.whole ensures Tree(after, Target(a, hostOf), a.c.path) == map[] {
        if a in front { EmptyStaysEmpty(mid, after, Target(a, hostOf), a.c.path); }
      }
    }
  }

  /** The place is below the path of one of the deletions, on its host. */
  ghost predicate SentFor(attempts: seq<Deletion>, p: Place, hostOf: (string, string) -> Host) {
    exists a :: a in attempts && Below(p, Target(a, hostOf), Resolve(a.c.path))
  }

  lemma EmptyStaysEmpty(before: Files, after: Files, host: Host, root: Path)
    requires Tree(before, host, root) == map[] && forall p :: p in after ==> p in before
    ensures Tree(after, host, root) == map[]
  {
    forall p | p in after ensures !Below(p, host, Resolve(root)) {
      assert p in before && p !in Tree(before, host, root);
    }
  }

  lemma PrefixesOverlap(a: Path, b: Path, p: Path)
    requires a <= p && b <= p
    ensures Overlaps(a, b)
  {
  }

  /** The overlap check protects an output path from every candidate exactly when the path has no parent component. */
  lemma CheckProtectsExactly(path: Path, host: Host)
    ensures (forall c, before, after :: ".." !in c && !Overlaps(c, path) && Deleted(before, after, host, c)
                ==> Tree(after, host, path) == Tree(before, host, path))
            <==> ".." !in path
  {
    if ".." !in path {
      forall c, before, after | ".." !in c && !Overlaps(c, path) && Deleted(before, after, host, c)
        ensures Tree(after, host, path) == Tree(before, host, path)
      {
        DeletionSpares(before, after, c, host, path, host);
      }
    } else {
      Unprotected(path, host);
    }
  }

  /** A component that occurs nowhere in `p`, and is not a parent component. */
  function Stranger(p: Path): (s: string)
    ensures s !in p && |s| > 2 && forall q :: q in p ==> |q| < |s|
  {
    if p == [] then "new"
    else
      Stranger(p[1..]) + p[0] + "+"
  }

  lemma {:induction false} ResolvedHasNoParents(p: Path)
    ensures ".." !in Resolve(p)
  {
    if p != [] { ResolvedHasNoParents(p[..|p| - 1]); }
  }

  lemma PrefixMembers(a: Path, b: Path, x: string)
    ensures a <= b && x in a ==> x in b
  {
  }

  lemma Unprotected(path: Path, host: Host)
    requires ".." in path
    ensures exists c, before, after :: ".." !in c && !Overlaps(c, path) && Deleted(before, after, host, c)
              && Tree(after, host, path) != Tree(before, host, path)
  {
    var c := Resolve(path) + [Stranger(path)];
    var place := (host, c);
    var before: Files, after: Files := map[place := "output"], map[];
    ResolvedHasNoParents(path);
    ResolvePlain(c);
    assert c[|c| - 1] == Stranger(path);
    PrefixMembers(c, path, Stranger(path));
    PrefixMembers(path, c, "..");
    assert Below(place, host, Resolve(path));
    assert place in Tree(before, host, path) && place !in Tree(after, host, path);
    assert Deleted(before, after, host, c);
  }
}
