/** Development sessions: a create whose acknowledgement may be lost, and the cleanup that makes up for it
    whether the server serves it before or after the create. */
module DevSessions {
  import opened Common

  type Id = string

  const CANCELLATION_TTL_SECONDS: int := 30 * 24 * 60 * 60
  const MAX_CANCELLATION_INTENTS := 4096

  /** A session directory; `whole` says its ownership marker was written. */
  datatype Session = Session(token: string, createdAt: int, whole: bool)

  datatype Marker = Marker(token: string, createdAt: int)

  /** A project on the development server. */
  datatype Project = Project(sessions: map<Id, Session>, markers: map<Id, Marker>)

  /** How materializing the session goes: to the end, with an error, or killed on the way. */
  datatype Course = Finishes | Fails | Killed

  /** The session's processes as the cleanup finds them. */
  datatype Workload = NoProcess | Unreadable | Ended | Alive(sameStart: bool, stops: bool)

  datatype Action =
    | Create(id: Id, token: string, now: int, staleAfter: int, rsync: bool, course: Course, busy: set<Id>)
    | Clean(id: Id, token: string, cancel: bool, recordIfAbsent: bool, now: int, workload: Workload, removable: bool)

  datatype Reply = Created | Removed | CancellationRecorded | AlreadyAbsent | Failure(why: string) | NoReply

  predicate Succeeded(r: Reply) {
    !r.Failure? && !r.NoReply?
  }

  // ---------- cancellation markers ----------

  predicate Expired(m: Marker, now: int) {
    now - m.createdAt > CANCELLATION_TTL_SECONDS
  }

  function Pruned(markers: map<Id, Marker>, now: int): map<Id, Marker> {
    map id | id in markers && !Expired(markers[id], now) :: markers[id]
  }

  /** The markers once all but `todo` were looked at. */
  function PrunedBut(markers: map<Id, Marker>, todo: set<Id>, now: int): map<Id, Marker> {
    map id | id in markers && (id in todo || !Expired(markers[id], now)) :: markers[id]
  }

  lemma PruneEnds(markers: map<Id, Marker>, now: int)
    ensures PrunedBut(markers, markers.Keys, now) == markers && PrunedBut(markers, {}, now) == Pruned(markers, now)
  {
  }

  lemma PruneOne(markers: map<Id, Marker>, todo: set<Id>, name: Id, now: int)
    requires name in todo && todo <= markers.Keys
    ensures var before, after := PrunedBut(markers, todo, now), PrunedBut(markers, todo - {name}, now);
            && name in before && before[name] == markers[name]
            && after == (if Expired(markers[name], now) then before - {name} else before)
            && |after.Keys - (todo - {name})| == |before.Keys - todo| + (if Expired(markers[name], now) then 0 else 1)
  {
    var before, after := PrunedBut(markers, todo, now), PrunedBut(markers, todo - {name}, now);
    if Expired(markers[name], now) {
      assert after.Keys - (todo - {name}) == before.Keys - todo;
    } else {
      assert after.Keys - (todo - {name}) == (before.Keys - todo) + {name};
    }
  }

  /** `record_cancellation`; expired markers go even when the new one is refused. */
  function Recorded(markers: map<Id, Marker>, id: Id, token: string, now: int): (map<Id, Marker>, Reply) {
    var kept := Pruned(markers, now);
    if id in kept then (kept, if kept[id].token == token then CancellationRecorded else Failure("ownership marker mismatch"))
    else if |kept| >= MAX_CANCELLATION_INTENTS then (kept, Failure("too many active development cancellation intents"))
    else (kept[id := Marker(token, now)], CancellationRecorded)
  }

  // ---------- the actions ----------

  /** Whole, old, and without a live or odd process. */
  predicate Stale(s: Session, id: Id, now: int, staleAfter: int, busy: set<Id>) {
    s.whole && now - s.createdAt > staleAfter && id !in busy
  }

  function Swept(sessions: map<Id, Session>, now: int, staleAfter: int, busy: set<Id>): map<Id, Session> {
    map id | id in sessions && !Stale(sessions[id], id, now, staleAfter, busy) :: sessions[id]
  }

  function Refusal(m: Marker, token: string): string {
    if m.token == token then "session creation was cancelled before materialization" else "ownership marker mismatch"
  }

  function ServeCreate(p: Project, a: Action): (Project, Reply)
    requires a.Create?
  {
    if a.id in p.markers then
      (p, Failure(Refusal(p.markers[a.id], a.token)))
    else if !a.rsync then (p, Failure("rsync is unavailable on the remote server"))
    else
      var swept := p.(sessions := Swept(p.sessions, a.now, a.staleAfter, a.busy));
      if a.id in swept.sessions then (swept, Failure("session directory exists"))
      else
        match a.course
        case Finishes => (swept.(sessions := swept.sessions[a.id := Session(a.token, a.now, true)]), Created)
        case Fails => (swept, Failure("materialization failed"))
        case Killed => (swept.(sessions := swept.sessions[a.id := Session(a.token, a.now, false)]), NoReply)
  }

  /** What the processes of a session allow. */
  function ProcessObjection(w: Workload, cancel: bool): Option<string> {
    match w
    case NoProcess => None
    case Ended => None
    case Unreadable => Some("session process identity is incomplete")
    case Alive(sameStart, stops) =>
      if !sameStart then Some("process group identity does not match this session")
      else if !cancel then Some("session workload is still alive")
      else if !stops then Some("session workload did not stop")
      else None
  }

  function ServeClean(p: Project, a: Action): (Project, Reply)
    requires a.Clean?
  {
    if a.id !in p.sessions then
      if a.recordIfAbsent then
        var (markers, reply) := Recorded(p.markers, a.id, a.token, a.now);
        (p.(markers := markers), reply)
      else (p, AlreadyAbsent)
    else
      var s := p.sessions[a.id];
      if !s.whole || s.token != a.token then (p, Failure("session ownership marker mismatch"))
      else if ProcessObjection(a.workload, a.cancel).Some? then (p, Failure(ProcessObjection(a.workload, a.cancel).value))
      else if !a.removable then (p.(sessions := p.sessions[a.id := s.(whole := false)]), Failure("removal failed"))
      else (p.(sessions := p.sessions - {a.id}), Removed)
  }

  function Serve(p: Project, a: Action): (Project, Reply) {
    if a.Create? then ServeCreate(p, a) else ServeClean(p, a)
  }

  function ServeAll(p: Project, actions: seq<Action>): Project
    decreases |actions|
  {
    if actions == [] then p else ServeAll(Serve(p, actions[0]).0, actions[1..])
  }

  // ---------- the server, in place under the project lock ----------

  class DevServer {
    var sessions: map<Id, Session>
    var markers: map<Id, Marker>

    function View(): Project
      reads this
    {
      Project(sessions, markers)
    }

    constructor ()
      ensures View() == Project(map[], map[])
    {
      sessions, markers := map[], map[];
    }

    /** Removes expired markers one by one and counts the rest. */
    method PruneCancellations(now: int) returns (active: nat)
      modifies this`markers
      ensures markers == Pruned(old(markers), now) && active == |markers|
    {
      hide PrunedBut, Pruned;
      var todo := markers.Keys;
      active := 0;
      PruneEnds(markers, now);
      assert markers.Keys - todo == {};
      while todo != {}
        invariant todo <= old(markers).Keys && markers == PrunedBut(old(markers), todo, now)
        invariant active == |markers.Keys - todo|
        decreases |todo|
      {
        var name :| name in todo;
        PruneOne(old(markers), todo, name, now);
        todo := todo - {name};
        if Expired(markers[name], now) { markers := markers - {name}; } else { active := active + 1; }
      }
      PruneEnds(old(markers), now);
      assert markers.Keys - todo == markers.Keys;
    }

    method RecordCancellation(id: Id, token: string, now: int) returns (reply: Reply)
      modifies this`markers
      ensures (markers, reply) == Recorded(old(markers), id, token, now)
    {
      var active := PruneCancellations(now);
      if id in markers { return if markers[id].token == token then CancellationRecorded else Failure("ownership marker mismatch"); }
      if active >= MAX_CANCELLATION_INTENTS { return Failure("too many active development cancellation intents"); }
      markers := markers[id := Marker(token, now)];
      return CancellationRecorded;
    }

    method CleanupStale(now: int, staleAfter: int, busy: set<Id>)
      modifies this`sessions
      ensures sessions == Swept(old(sessions), now, staleAfter, busy)
    {
      var todo := sessions.Keys;
      ghost var done: set<Id> := {};
      while todo != {}
        invariant todo !! done && todo + done == old(sessions).Keys
        invariant sessions == map id | id in old(sessions)
                  && (id !in done || !Stale(old(sessions)[id], id, now, staleAfter, busy)) :: old(sessions)[id]
        decreases |todo|
      {
        var name :| name in todo;
        todo, done := todo - {name}, done + {name};
        if Stale(sessions[name], name, now, staleAfter, busy) { sessions := sessions - {name}; }
      }
    }

    method ActionCreate(a: Action) returns (reply: Reply)
      requires a.Create?
      modifies this
      ensures (View(), reply) == ServeCreate(old(View()), a)
    {
      if a.id in markers {
        return Failure(Refusal(markers[a.id], a.token));
      }
      if !a.rsync { return Failure("rsync is unavailable on the remote server"); }
      CleanupStale(a.now, a.staleAfter, a.busy);
      if a.id in sessions { return Failure("session directory exists"); }
      ghost var swept := sessions;
      sessions := sessions[a.id := Session(a.token, a.now, false)];
      if a.course == Killed { return NoReply; }
      if a.course == Fails {
        sessions := sessions - {a.id};
        assert sessions == swept;
        return Failure("materialization failed");
      }
      sessions := sessions[a.id := Session(a.token, a.now, true)];
      assert sessions == swept[a.id := Session(a.token, a.now, true)];
      return Created;
    }

    method ActionCleanup(a: Action) returns (reply: Reply)
      requires a.Clean?
      modifies this
      ensures (View(), reply) == ServeClean(old(View()), a)
    {
      if a.id !in sessions {
        if !a.recordIfAbsent { return AlreadyAbsent; }
        reply := RecordCancellation(a.id, a.token, a.now);
        return;
      }
      var s := sessions[a.id];
      if !s.whole || s.token != a.token { return Failure("session ownership marker mismatch"); }
      var objection := ProcessObjection(a.workload, a.cancel);
      if objection.Some? { return Failure(objection.value); }
      if !a.removable {
        sessions := sessions[a.id := s.(whole := false)];
        return Failure("removal failed");
      }
      sessions := sessions - {a.id};
      return Removed;
    }
  }

  // ---------- nothing is left behind ----------

  predicate Creates(actions: seq<Action>, id: Id) {
    exists i :: 0 <= i < |actions| && actions[i].Create? && actions[i].id == id
  }

  /** The session cannot come to exist any more: it is absent and marked as cancelled. */
  predicate CalledOff(p: Project, id: Id) {
    id !in p.sessions && id in p.markers
  }

  lemma AbsentStep(p: Project, a: Action, id: Id)
    requires id !in p.sessions && !(a.Create? && a.id == id)
    ensures id !in Serve(p, a).0.sessions
  {
  }

  lemma {:induction false} StaysAbsent(p: Project, actions: seq<Action>, id: Id)
    requires id !in p.sessions && !Creates(actions, id)
    ensures id !in ServeAll(p, actions).sessions
    decreases |actions|
  {
    if actions != [] {
      assert !(actions[0].Create? && actions[0].id == id);
      assert forall i :: 0 <= i < |actions| - 1 ==> actions[1..][i] == actions[i + 1];
      AbsentStep(p, actions[0], id);
      StaysAbsent(Serve(p, actions[0]).0, actions[1..], id);
    }
  }

  predicate Recording(a: Action) {
    a.Clean? && a.recordIfAbsent
  }

  lemma CalledOffStep(p: Project, a: Action, id: Id)
    requires CalledOff(p, id) && (Recording(a) ==> !Expired(p.markers[id], a.now))
    ensures CalledOff(Serve(p, a).0, id) && Serve(p, a).0.markers[id] == p.markers[id]
  {
  }

  /** What the client asks for when it is done: `run_dev`'s flags. */
  function CleanupRequest(id: Id, token: string, confirmed: bool, started: bool, completed: bool, returncode: int,
                          now: int, workload: Workload, removable: bool): Action {
    Clean(id, token, started && (!completed || returncode == 255), !confirmed, now, workload, removable)
  }

  /** No action before a later create of the session records a cancellation after the marker's lifetime:
      only recordings prune. */
  predicate NotPrunedBeforeCreate(m: Marker, actions: seq<Action>, id: Id) {
    forall i, j ::
      0 <= i < j < |actions| && actions[j].Create? && actions[j].id == id && Recording(actions[i])
      ==> !Expired(m, actions[i].now)
  }

  /** Called off is enough, however late a create comes, as long as no recording prunes the marker before it. */
  lemma {:induction false} NeverMaterializes(p: Project, actions: seq<Action>, id: Id)
    requires CalledOff(p, id) && NotPrunedBeforeCreate(p.markers[id], actions, id)
    ensures id !in ServeAll(p, actions).sessions
    decreases |actions|
  {
    if Creates(actions, id) {
      var j :| 0 <= j < |actions| && actions[j].Create? && actions[j].id == id;
      assert j > 0 && Recording(actions[0]) ==> !Expired(p.markers[id], actions[0].now);
      CalledOffStep(p, actions[0], id);
      assert forall i :: 0 <= i < |actions| - 1 ==> actions[1..][i] == actions[i + 1];
      NeverMaterializes(Serve(p, actions[0]).0, actions[1..], id);
    } else {
      StaysAbsent(p, actions, id);
    }
  }

  /** In whatever order the server serves the one create and the client's cleanup, among any actions of other
      clients: if the cleanup reports success, no directory of the session remains. Before a create served after
      the cleanup nobody may record a cancellation once the marker that the cleanup left has expired. */
  lemma VerifiedCleanupLeavesNothing(p: Project, before: seq<Action>, after: seq<Action>, id: Id, token: string, confirmed: bool,
                                     started: bool, completed: bool, returncode: int, now: int, workload: Workload, removable: bool)
    requires var cleanup := CleanupRequest(id, token, confirmed, started, completed, returncode, now, workload, removable);
             var (mid, reply) := Serve(ServeAll(p, before), cleanup);
             && Succeeded(reply) && id !in p.sessions
             && !(Creates(before, id) && Creates(after, id)) && (confirmed ==> Creates(before, id))
             && (id in mid.markers ==> NotPrunedBeforeCreate(mid.markers[id], after, id))
    ensures var cleanup := CleanupRequest(id, token, confirmed, started, completed, returncode, now, workload, removable);
            id !in ServeAll(Serve(ServeAll(p, before), cleanup).0, after).sessions
  {
    var cleanup := CleanupRequest(id, token, confirmed, started, completed, returncode, now, workload, removable);
    var mid := Serve(ServeAll(p, before), cleanup).0;
    if Creates(after, id) {
      StaysAbsent(p, before, id);
      NeverMaterializes(mid, after, id);
    } else {
      StaysAbsent(mid, after, id);
    }
  }

  // ---------- when a late create goes through ----------

  /** The project after the first `k` actions. */
  function After(p: Project, actions: seq<Action>, k: nat): Project
    requires k <= |actions|
  {
    ServeAll(p, actions[..k])
  }

  lemma {:induction false} ServeOneMore(p: Project, actions: seq<Action>, a: Action)
    ensures ServeAll(p, actions + [a]) == Serve(ServeAll(p, actions), a).0
    decreases |actions|
  {
    if actions == [] {
      assert ([] + [a])[1..] == [];
    } else {
      assert (actions + [a])[1..] == actions[1..] + [a];
      ServeOneMore(Serve(p, actions[0]).0, actions[1..], a);
    }
  }

  lemma AfterOneMore(p: Project, actions: seq<Action>, k: nat)
    requires k < |actions|
    ensures After(p, actions, k + 1) == Serve(After(p, actions, k), actions[k]).0
  {
    assert actions[..k + 1] == actions[..k] + [actions[k]];
    ServeOneMore(p, actions[..k], actions[k]);
  }

  /** A recording of this session's cancellation succeeds, so its marker is there afterwards. */
  predicate LeavesMarker(p: Project, a: Action, id: Id) {
    Recording(a) && a.id == id && id !in p.sessions && Succeeded(Serve(p, a).1)
  }

  /** A recording prunes the session's expired marker and does not leave a new one. */
  predicate DropsMarker(p: Project, a: Action, id: Id) {
    Recording(a) && a.id !in p.sessions && id in p.markers && Expired(p.markers[id], a.now) && !LeavesMarker(p, a, id)
  }

  /** Action `i` drops the marker, and none of the actions `i + 1` to `n - 1` leaves a new one. */
  ghost predicate DroppedForGood(p: Project, actions: seq<Action>, id: Id, i: nat, n: nat)
    requires i < n <= |actions|
  {
    && DropsMarker(After(p, actions, i), actions[i], id)
    && forall k :: i < k < n ==> !LeavesMarker(After(p, actions, k), actions[k], id)
  }

  /** Among the first `n` actions a recording dropped the marker and none after it left a new one. */
  ghost predicate MarkerDropped(p: Project, actions: seq<Action>, id: Id, n: nat)
    requires n <= |actions|
  {
    exists i :: 0 <= i < n && DroppedForGood(p, actions, id, i, n)
  }

  lemma MarkerStep(p: Project, a: Action, id: Id)
    ensures id in p.markers ==> (id !in Serve(p, a).0.markers <==> DropsMarker(p, a, id))
    ensures id !in p.markers ==> (id in Serve(p, a).0.markers <==> LeavesMarker(p, a, id))
    ensures LeavesMarker(p, a, id) ==> id in Serve(p, a).0.markers
    ensures DropsMarker(p, a, id) ==> id in p.markers
  {
  }

  /** Over any actions a marker is gone exactly when a recording dropped it and none after that left a new one. */
  lemma {:induction false} MarkerGoneExactly(p: Project, actions: seq<Action>, id: Id, n: nat)
    requires id in p.markers && n <= |actions|
    ensures id !in After(p, actions, n).markers <==> MarkerDropped(p, actions, id, n)
  {
    hide Serve, DropsMarker, LeavesMarker, ServeAll, DroppedForGood;
    if n == 0 {
      AfterNothing(p, actions);
    } else {
      MarkerGoneExactly(p, actions, id, n - 1);
      AfterOneMore(p, actions, n - 1);
      var last := After(p, actions, n - 1);
      MarkerStep(last, actions[n - 1], id);
      DroppedStep(p, actions, id, n);
    }
  }

  /** What the last action adds to the history of dropped and left markers. */
  lemma DroppedStep(p: Project, actions: seq<Action>, id: Id, n: nat)
    requires 0 < n <= |actions|
    ensures MarkerDropped(p, actions, id, n)
       <==> (DropsMarker(After(p, actions, n - 1), actions[n - 1], id)
             || (MarkerDropped(p, actions, id, n - 1) && !LeavesMarker(After(p, actions, n - 1), actions[n - 1], id)))
  {
    hide DropsMarker, LeavesMarker, After;
    if MarkerDropped(p, actions, id, n) {
      var i :| 0 <= i < n && DroppedForGood(p, actions, id, i, n);
      if i < n - 1 { assert DroppedForGood(p, actions, id, i, n - 1); }
    }
    if MarkerDropped(p, actions, id, n - 1) && !LeavesMarker(After(p, actions, n - 1), actions[n - 1], id) {
      var i :| 0 <= i < n - 1 && DroppedForGood(p, actions, id, i, n - 1);
      assert DroppedForGood(p, actions, id, i, n);
    }
    if DropsMarker(After(p, actions, n - 1), actions[n - 1], id) {
      assert DroppedForGood(p, actions, id, n - 1, n);
    }
  }

  lemma AfterNothing(p: Project, actions: seq<Action>)
    ensures After(p, actions, 0) == p
  {
  }

  lemma CreateOfAbsent(p: Project, a: Action)
    requires a.Create? && a.id !in p.sessions && a.rsync && a.course == Finishes
    ensures a.id in Serve(p, a).0.sessions <==> a.id !in p.markers
  {
  }

  /** MAIN: after a verified cleanup that was not confirmed to follow the create, the create comes late, after
      any actions of anybody. If nothing else is wrong with it, it leaves a directory if and only if one of
      those actions was a recording that dropped the expired marker and none after it left a new one. */
  lemma LateCreateExactly(p: Project, before: seq<Action>, cleanup: Action, between: seq<Action>, create: Action, id: Id)
    requires id !in p.sessions && !Creates(before, id) && !Creates(between, id)
    requires cleanup.Clean? && cleanup.id == id && cleanup.recordIfAbsent && Succeeded(Serve(ServeAll(p, before), cleanup).1)
    requires create.Create? && create.id == id && create.rsync && create.course == Finishes
    ensures var mid := Serve(ServeAll(p, before), cleanup).0;
            id in ServeAll(mid, between + [create]).sessions
            <==> MarkerDropped(mid, between, id, |between|)
  {
    StaysAbsent(p, before, id);
    var mid := Serve(ServeAll(p, before), cleanup).0;
    assert CalledOff(mid, id);
    hide Serve, ServeAll, DroppedForGood;
    MarkerGoneExactly(mid, between, id, |between|);
    StaysAbsent(mid, between, id);
    WholeSequence(mid, between);
    ServeOneMore(mid, between, create);
    CreateOfAbsent(ServeAll(mid, between), create);
  }

  lemma WholeSequence(p: Project, actions: seq<Action>)
    ensures After(p, actions, |actions|) == ServeAll(p, actions)
  {
    assert actions[..|actions|] == actions;
  }

  /** Beyond its lifetime a marker is pruned by any later recording, and a create served after that goes through. */
  lemma LateCreateAfterPruning(p: Project, id: Id, token: string, other: Id, t: int, later: int)
    requires id !in p.sessions && id !in p.markers && other !in p.sessions && other != id
             && |Pruned(p.markers, t)| < MAX_CANCELLATION_INTENTS
    requires later > t + CANCELLATION_TTL_SECONDS
    ensures var cleanup := Clean(id, token, false, true, t, NoProcess, true);
            var elsewhere := Clean(other, token, false, true, later, NoProcess, true);
            var create := Create(id, token, later, 1, true, Finishes, {});
            && Succeeded(Serve(p, cleanup).1)
            && id in ServeAll(p, [cleanup, elsewhere, create]).sessions
  {
    var cleanup := Clean(id, token, false, true, t, NoProcess, true);
    var elsewhere := Clean(other, token, false, true, later, NoProcess, true);
    var create := Create(id, token, later, 1, true, Finishes, {});
    var p1 := Serve(p, cleanup).0;
    var p2 := Serve(p1, elsewhere).0;
    assert id !in Pruned(p1.markers, later);
    assert [cleanup, elsewhere, create][1..] == [elsewhere, create] && [elsewhere, create][1..] == [create] && [create][1..] == [];
    assert ServeAll(p, [cleanup, elsewhere, create]) == ServeAll(p2, [create]) == ServeAll(Serve(p2, create).0, []);
    assert id !in p2.markers && id !in p2.sessions;
    CreateOfAbsent(p2, create);
  }

  // ---------- what is lost, and why ----------

  /** The session goes to a cleanup with its own token that found no live workload or was told to cancel
      it, or to the sweep once it is whole, old and idle. */
  predicate TakenByOwnerOrAge(s: Session, a: Action, id: Id) {
    || (a.Clean? && a.id == id && a.token == s.token && s.whole
        && (a.workload.Alive? ==> a.cancel && a.workload.sameStart && a.workload.stops))
    || (a.Create? && Stale(s, id, a.now, a.staleAfter, a.busy))
  }

  lemma SessionStep(p: Project, a: Action, id: Id)
    requires id in p.sessions && !TakenByOwnerOrAge(p.sessions[id], a, id)
    ensures id in Serve(p, a).0.sessions && Serve(p, a).0.sessions[id] == p.sessions[id]
  {
  }

  /** Over any actions of any clients a session directory is lost or changed only to its owner's cleanup
      or to age, and no create replaces one. */
  lemma {:induction false} SessionsAreLostOnlyToOwnerOrAge(p: Project, actions: seq<Action>, id: Id)
    requires id in p.sessions
    ensures var t := ServeAll(p, actions);
            || (id in t.sessions && t.sessions[id] == p.sessions[id])
            || exists i :: 0 <= i < |actions| && TakenByOwnerOrAge(p.sessions[id], actions[i], id)
    decreases |actions|
  {
    if actions != [] && !TakenByOwnerOrAge(p.sessions[id], actions[0], id) {
      hide Serve, TakenByOwnerOrAge;
      SessionStep(p, actions[0], id);
      SessionsAreLostOnlyToOwnerOrAge(Serve(p, actions[0]).0, actions[1..], id);
      if i :| 0 <= i < |actions[1..]| && TakenByOwnerOrAge(p.sessions[id], actions[1..][i], id) {
        assert TakenByOwnerOrAge(p.sessions[id], actions[i + 1], id);
      }
    }
  }

  lemma MarkerStays(p: Project, a: Action, id: Id)
    requires id in p.markers && !(Recording(a) && Expired(p.markers[id], a.now))
    ensures id in Serve(p, a).0.markers && Serve(p, a).0.markers[id] == p.markers[id]
  {
  }

  /** Over any actions a cancellation marker disappears or changes only when a recording comes after its lifetime. */
  lemma {:induction false} MarkersOnlyExpire(p: Project, actions: seq<Action>, id: Id)
    requires id in p.markers
    ensures var t := ServeAll(p, actions);
            || (id in t.markers && t.markers[id] == p.markers[id])
            || exists i :: 0 <= i < |actions| && Recording(actions[i]) && Expired(p.markers[id], actions[i].now)
    decreases |actions|
  {
    if actions != [] && !(Recording(actions[0]) && Expired(p.markers[id], actions[0].now)) {
      hide Serve;
      MarkerStays(p, actions[0], id);
      MarkersOnlyExpire(Serve(p, actions[0]).0, actions[1..], id);
      if i :| 0 <= i < |actions[1..]| && Recording(actions[1..][i]) && Expired(p.markers[id], actions[1..][i].now) {
        assert Recording(actions[i + 1]) && Expired(p.markers[id], actions[i + 1].now);
      }
    }
  }
}
