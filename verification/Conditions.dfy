/** The workspace conditions every reconcile writes through (internal/controller/conditions_utils.go,
    status_manager.go): one merge, the seven updates, and what every run of updates keeps. */
module Conditions {
  import opened Text

  const AVAILABLE := "Available"
  const PROGRESSING := "Progressing"
  const DEGRADED := "Degraded"
  const STOPPED := "Stopped"
  const DELETING := "Deleting"

  /** The conditions that name the phase a workspace is in. */
  predicate IsPhase(kind: string) { kind == AVAILABLE || kind == PROGRESSING || kind == STOPPED || kind == DELETING }

  /** `at` is the transition time, which the merge never compares. */
  datatype Condition = Condition(kind: string, status: bool, reason: string, message: string, at: int)

  predicate SameContent(a: Condition, b: Condition) {
    a.status == b.status && a.reason == b.reason && a.message == b.message
  }

  /** The first condition of a type. */
  function Find(cs: seq<Condition>, kind: string): (r: Option<Condition>)
    ensures r.Some? ==> r.value in cs && r.value.kind == kind
  {
    if cs == [] then None else if cs[0].kind == kind then Some(cs[0]) else Find(cs[1..], kind)
  }

  ghost predicate Requests(requested: seq<Condition>, kind: string) {
    exists i :: 0 <= i < |requested| && requested[i].kind == kind
  }

  ghost predicate DistinctKinds(cs: seq<Condition>) {
    forall i, j :: 0 <= i < j < |cs| ==> cs[i].kind != cs[j].kind
  }

  ghost predicate AtMostOnePhase(cs: seq<Condition>) {
    forall i, j :: 0 <= i < j < |cs| && IsPhase(cs[i].kind) && IsPhase(cs[j].kind) ==> !(cs[i].status && cs[j].status)
  }

  /** The conditions of types that are not requested, in their order. */
  ghost function Others(cs: seq<Condition>, requested: seq<Condition>): (r: seq<Condition>)
  {
    if cs == [] then []
    else
      var n := |cs| - 1;
      Others(cs[..n], requested) + if Requests(requested, cs[n].kind) then [] else [cs[n]]
  }

  /** The list already says all that is requested. */
  ghost predicate Settled(cs: seq<Condition>, requested: seq<Condition>) {
    forall i :: 0 <= i < |requested| ==> SaysAlready(cs, requested[i])
  }

  predicate SaysAlready(cs: seq<Condition>, c: Condition) {
    var found := Find(cs, c.kind);
    found.Some? && SameContent(found.value, c)
  }

  /** What a merge followed by a write leaves. */
  ghost function Merged(cs: seq<Condition>, requested: seq<Condition>): seq<Condition> {
    if Settled(cs, requested) then cs else Others(cs, requested) + requested
  }

  // ---------------------------------------------------------------- the merge, as loops

  method FindCondition(conditions: seq<Condition>, kind: string) returns (found: Option<Condition>)
    ensures found == Find(conditions, kind)
  {
    for i := 0 to |conditions|
      invariant Find(conditions, kind) == Find(conditions[i..], kind)
    {
      if conditions[i].kind == kind {
        return Some(conditions[i]);
      }
    }
    return None;
  }

  method KindsOf(requested: seq<Condition>) returns (kinds: map<string, bool>)
    ensures forall kind :: kind in kinds <==> Requests(requested, kind)
  {
    kinds := map[];
    for i := 0 to |requested|
      invariant forall kind :: kind in kinds <==> exists j :: 0 <= j < i && requested[j].kind == kind
    {
      kinds := kinds[requested[i].kind := true];
    }
  }

  method KeepOthers(conditions: seq<Condition>, requested: seq<Condition>) returns (kept: seq<Condition>)
    ensures kept == Others(conditions, requested)
  {
    var updateKinds := KindsOf(requested);
    kept := [];
    for i := 0 to |conditions|
      invariant kept == Others(conditions[..i], requested)
    {
      assert conditions[..i + 1][..i] == conditions[..i];
      if conditions[i].kind !in updateKinds {
        kept := kept + [conditions[i]];
      }
    }
    assert conditions[..|conditions|] == conditions;
  }

  /** The merge: an empty list when nothing would change, else the whole new list. */
  method MergeConditionsIfChanged(conditions: seq<Condition>, requested: seq<Condition>) returns (merged: seq<Condition>)
    ensures merged == [] <==> Settled(conditions, requested)
    ensures merged != [] ==> merged == Others(conditions, requested) + requested
  {
    if |requested| == 0 {
      return [];
    }
    var updated := false;
    var conditionsToUpdate := KeepOthers(conditions, requested);
    ghost var kept := conditionsToUpdate;
    for i := 0 to |requested|
      invariant conditionsToUpdate == kept + requested[..i]
      invariant updated <==> exists j :: 0 <= j < i && !SaysAlready(conditions, requested[j])
    {
      var condition := requested[i];
      var existing := FindCondition(conditions, condition.kind);
      if existing.None? {
        updated := true;
        conditionsToUpdate := conditionsToUpdate + [condition];
      } else if SameContent(existing.value, condition) {
        conditionsToUpdate := conditionsToUpdate + [condition];
      } else {
        updated := true;
        conditionsToUpdate := conditionsToUpdate + [condition];
      }
    }
    assert requested[..|requested|] == requested;
    if !updated {
      return [];
    }
    return conditionsToUpdate;
  }

  // ---------------------------------------------------------------- what a merge means

  lemma {:induction false} FindAppend(a: seq<Condition>, b: seq<Condition>, kind: string)
    ensures Find(a + b, kind) == if Find(a, kind).Some? then Find(a, kind) else Find(b, kind)
  {
    if a == [] {
      assert a + b == b;
    } else {
      assert (a + b)[1..] == a[1..] + b;
      FindAppend(a[1..], b, kind);
    }
  }

  lemma {:induction false} OthersMembers(cs: seq<Condition>, requested: seq<Condition>)
    ensures forall c :: c in Others(cs, requested) ==> c in cs && !Requests(requested, c.kind)
  {
    if cs == [] {
    } else {
      hide Requests;
      OthersMembers(cs[..|cs| - 1], requested);
    }
  }

  lemma {:induction false} FindOthers(cs: seq<Condition>, requested: seq<Condition>, kind: string)
    ensures Find(Others(cs, requested), kind) == if Requests(requested, kind) then None else Find(cs, kind)
  {
    hide Requests;
    if Requests(requested, kind) {
      hide Others, Find;
      OthersMembers(cs, requested);
    } else if cs == [] {
    } else {
      hide Find;
      var n := |cs| - 1;
      FindOthers(cs[..n], requested, kind);
      FindLast(cs, kind);
      FindAppend(Others(cs[..n], requested), [cs[n]], kind);
      if Requests(requested, cs[n].kind) {
        assert Others(cs, requested) == Others(cs[..n], requested);
        assert Find([cs[n]], kind).None?;
      }
    }
  }

  lemma {:induction false} FindLast(cs: seq<Condition>, kind: string)
    requires cs != []
    ensures var n := |cs| - 1;
            Find(cs, kind) == if Find(cs[..n], kind).Some? then Find(cs[..n], kind) else Find([cs[n]], kind)
  {
    hide Find;
    var n := |cs| - 1;
    assert cs == cs[..n] + [cs[n]];
    FindAppend(cs[..n], [cs[n]], kind);
  }

  lemma {:induction false} FindDistinct(cs: seq<Condition>, i: nat)
    requires DistinctKinds(cs) && i < |cs|
    ensures Find(cs, cs[i].kind) == Some(cs[i])
  {
    if i > 0 {
      FindDistinct(cs[1..], i - 1);
    }
  }

  /** After merge and write every requested type has the requested status, reason and message, also
      when the merge reports no change. */
  lemma {:induction false} RequestedAreSet(cs: seq<Condition>, requested: seq<Condition>, i: nat)
    requires DistinctKinds(requested) && i < |requested|
    ensures SaysAlready(Merged(cs, requested), requested[i])
  {
    var kind := requested[i].kind;
    if Settled(cs, requested) {
      assert SaysAlready(cs, requested[i]);
    } else {
      hide Settled;
      assert Requests(requested, kind);
      FindOthers(cs, requested, kind);
      FindAppend(Others(cs, requested), requested, kind);
      FindDistinct(requested, i);
    }
  }

  /** Every other type is left alone, transition time included. */
  lemma {:induction false} OthersAreKept(cs: seq<Condition>, requested: seq<Condition>, kind: string)
    requires !Requests(requested, kind)
    ensures Find(Merged(cs, requested), kind) == Find(cs, kind)
  {
    hide Settled;
    FindOthers(cs, requested, kind);
    FindAppend(Others(cs, requested), requested, kind);
  }

  /** Asking again for what was just written changes nothing. */
  lemma {:induction false} MergeAgain(cs: seq<Condition>, requested: seq<Condition>)
    requires DistinctKinds(requested)
    ensures Settled(Merged(cs, requested), requested) && Merged(Merged(cs, requested), requested) == Merged(cs, requested)
  {
    hide Merged, SaysAlready;
    forall i | 0 <= i < |requested|
      ensures SaysAlready(Merged(cs, requested), requested[i])
    {
      RequestedAreSet(cs, requested, i);
    }
    assert Settled(Merged(cs, requested), requested);
    MergedSettled(Merged(cs, requested), requested);
  }

  lemma {:induction false} MergedSettled(cs: seq<Condition>, requested: seq<Condition>)
    requires Settled(cs, requested)
    ensures Merged(cs, requested) == cs
  {
  }

  lemma {:induction false} OthersKeepDistinct(cs: seq<Condition>, requested: seq<Condition>)
    requires DistinctKinds(cs)
    ensures DistinctKinds(Others(cs, requested))
  {
    if cs == [] {
    } else {
      hide Requests;
      var n := |cs| - 1;
      OthersKeepDistinct(cs[..n], requested);
      OthersMembers(cs[..n], requested);
      hide Others;
      OthersLast(cs, requested);
      forall c | c in Others(cs[..n], requested)
        ensures c.kind != cs[n].kind
      {
        var k :| 0 <= k < n && cs[k] == c;
      }
    }
  }

  lemma {:induction false} OthersLast(cs: seq<Condition>, requested: seq<Condition>)
    requires cs != []
    ensures var n := |cs| - 1;
            Others(cs, requested) == Others(cs[..n], requested) + if Requests(requested, cs[n].kind) then [] else [cs[n]]
  {
    hide Requests;
  }

  lemma {:induction false} OthersKeepOnePhase(cs: seq<Condition>, requested: seq<Condition>)
    requires AtMostOnePhase(cs)
    ensures AtMostOnePhase(Others(cs, requested))
  {
    if cs == [] {
    } else {
      hide Requests, IsPhase;
      var n := |cs| - 1;
      OthersKeepOnePhase(cs[..n], requested);
      OthersMembers(cs[..n], requested);
      hide Others;
      OthersLast(cs, requested);
      forall c | c in Others(cs[..n], requested)
        ensures !(IsPhase(c.kind) && IsPhase(cs[n].kind) && c.status && cs[n].status)
      {
        var k :| 0 <= k < n && cs[k] == c;
      }
    }
  }

  lemma {:induction false} MergeKeepsDistinct(cs: seq<Condition>, requested: seq<Condition>)
    requires DistinctKinds(cs) && DistinctKinds(requested)
    ensures DistinctKinds(Merged(cs, requested))
  {
    hide Settled;
    OthersKeepDistinct(cs, requested);
    OthersMembers(cs, requested);
    var others := Others(cs, requested);
    forall i, j | 0 <= i < |others| && 0 <= j < |requested|
      ensures others[i].kind != requested[j].kind
    {
      assert others[i] in others && !Requests(requested, others[i].kind);
    }
  }

  /** A request either covers all four phases, at most one of them true, or names none. */
  ghost predicate CoversPhases(requested: seq<Condition>) {
    && AtMostOnePhase(requested)
    && forall kind :: IsPhase(kind) ==> Requests(requested, kind)
  }

  ghost predicate NamesNoPhase(requested: seq<Condition>) {
    forall c :: c in requested ==> !IsPhase(c.kind)
  }

  lemma {:induction false} MergeKeepsOnePhase(cs: seq<Condition>, requested: seq<Condition>)
    requires AtMostOnePhase(cs) && (CoversPhases(requested) || NamesNoPhase(requested))
    ensures AtMostOnePhase(Merged(cs, requested))
  {
    if !Settled(cs, requested) {
      hide Settled, Requests, IsPhase;
      OthersKeepOnePhase(cs, requested);
      OthersMembers(cs, requested);
      var others := Others(cs, requested);
      forall i, j | 0 <= i < |others| && 0 <= j < |requested|
        ensures !(IsPhase(others[i].kind) && IsPhase(requested[j].kind))
      {
        assert others[i] in others && !Requests(requested, others[i].kind);
        assert requested[j] in requested;
      }
    }
  }

  // ---------------------------------------------------------------- the seven updates

  /** Readiness of compute, service and access, or how far they have stopped. */
  datatype Parts = Parts(compute: bool, service: bool, access: bool) {
    predicate All() { compute && service && access }
  }

  datatype Update =
    | Starting(ready: Parts)
    | Error(reason: string, message: string)
    | PermanentDegraded(degradedReason: string, availableReason: string, message: string)
    | Running
    | Stopping(stopped: Parts)
    | HasStopped(preempted: bool)
    | IsDeleting

  function StartingReason(p: Parts): (string, string) {
    if !p.compute && p.service && p.access then ("ComputeNotReady", "Compute is not ready")
    else if p.compute && p.service && !p.access then ("AccessNotReady", "Access is not ready")
    else if p.compute && !p.service && p.access then ("ServiceNotReady", "Service is not ready")
    else ("ResourcesNotReady", "Workspace is starting")
  }

  function StoppingReason(p: Parts): (string, string) {
    if !p.compute && p.service && p.access then ("ComputeNotStopped", "Compute is still running")
    else if p.compute && p.service && !p.access then ("AccessNotStopped", "Access is still up")
    else if p.compute && !p.service && p.access then ("ServiceNotStopped", "Service is still up")
    else ("ResourcesNotStopped", "Resources are still running")
  }

  /** The calls the updates refuse: nothing is left to wait for. */
  predicate Refused(u: Update) {
    (u.Starting? && u.ready.All()) || (u.Stopping? && u.stopped.All())
  }

  function Requested(u: Update, at: int): seq<Condition> {
    match u
    case Starting(ready) =>
      var r := StartingReason(ready);
      [Condition(AVAILABLE, false, r.0, r.1, at), Condition(PROGRESSING, true, r.0, r.1, at),
       Condition(DEGRADED, false, "NoError", "No errors detected", at),
       Condition(STOPPED, false, "DesiredStateRunning", "Workspace is starting", at),
       Condition(DELETING, false, "DesiredStateRunning", "Workspace is starting", at)]
    case Error(reason, message) => [Condition(DEGRADED, true, reason, message, at)]
    case PermanentDegraded(degradedReason, availableReason, message) =>
      [Condition(AVAILABLE, false, availableReason, message, at), Condition(PROGRESSING, false, degradedReason, message, at),
       Condition(DEGRADED, true, degradedReason, message, at),
       Condition(STOPPED, false, "DesiredStateRunning", "Workspace desired state is Running", at),
       Condition(DELETING, false, "DesiredStateRunning", "Workspace desired state is Running", at)]
    case Running =>
      [Condition(AVAILABLE, true, "ResourcesReady", "Workspace is ready", at),
       Condition(PROGRESSING, false, "ResourcesReady", "Workspace is ready", at),
       Condition(DEGRADED, false, "NoError", "No errors detected", at),
       Condition(STOPPED, false, "DesiredStateRunning", "Workspace is running", at),
       Condition(DELETING, false, "DesiredStateRunning", "Workspace is running", at)]
    case Stopping(stopped) =>
      var r := StoppingReason(stopped);
      [Condition(AVAILABLE, false, "DesiredStateStopped", "Desired status is Stopped", at),
       Condition(PROGRESSING, true, "DesiredStateStopped", r.1, at),
       Condition(DEGRADED, false, "NoError", "No errors detected", at),
       Condition(STOPPED, false, r.0, r.1, at),
       Condition(DELETING, false, "DesiredStateStopped", "Workspace is stopping", at)]
    case HasStopped(preempted) =>
      [if preempted then Condition(AVAILABLE, false, "Preempted", "Workspace preempted due to resource contention", at)
       else Condition(AVAILABLE, false, "DesiredStateStopped", "Workspace is stopped", at),
       Condition(PROGRESSING, false, "DesiredStateStopped", "Workspace is stopped", at),
       Condition(DEGRADED, false, "NoError", "No errors detected", at),
       Condition(STOPPED, true, "AllResourcesStopped", "Workspace is stopped", at),
       Condition(DELETING, false, "DesiredStateStopped", "Workspace is stopped", at)]
    case IsDeleting =>
      [Condition(AVAILABLE, false, "DeletionInProgress", "Workspace is being deleted", at),
       Condition(PROGRESSING, false, "DeletionInProgress", "Workspace is being deleted", at),
       Condition(DEGRADED, false, "NoError", "No errors detected", at),
       Condition(STOPPED, false, "DeletionInProgress", "Workspace is being deleted", at),
       Condition(DELETING, true, "DeletionInProgress", "Workspace resources are being deleted", at)]
  }

  /** The names of the objects a status refers to, and its conditions. */
  datatype Status = Status(conditions: seq<Condition>, deploymentName: string, serviceName: string)

  ghost function Updated(st: Status, u: Update, at: int): Status {
    if Refused(u) then st
    else
      var conditions := Merged(st.conditions, Requested(u, at));
      if u.HasStopped? || u.IsDeleting? then Status(conditions, "", "")
      else st.(conditions := conditions)
  }

  lemma {:induction false} KindsDiffer()
    ensures AVAILABLE != PROGRESSING && AVAILABLE != DEGRADED && AVAILABLE != STOPPED && AVAILABLE != DELETING
    ensures PROGRESSING != DEGRADED && PROGRESSING != STOPPED && PROGRESSING != DELETING
    ensures DEGRADED != STOPPED && DEGRADED != DELETING && STOPPED != DELETING
  {
    assert |AVAILABLE| == 9 && |PROGRESSING| == 11 && |DEGRADED| == 8 && |STOPPED| == 7 && |DELETING| == 8;
    assert DEGRADED[2] != DELETING[2];
  }

  lemma {:induction false} RequestedShape(u: Update, at: int)
    ensures DistinctKinds(Requested(u, at))
    ensures if u.Error? then NamesNoPhase(Requested(u, at)) else CoversPhases(Requested(u, at))
  {
    hide StartingReason, StoppingReason;
    KindsDiffer();
    var r := Requested(u, at);
    if !u.Error? {
      assert r[0].kind == AVAILABLE && r[1].kind == PROGRESSING && r[2].kind == DEGRADED && r[3].kind == STOPPED && r[4].kind == DELETING;
      hide Requested;
    }
  }

  // ---------------------------------------------------------------- the updates, in place

  /** A workspace during a reconcile, with the status the API server holds for it. */
  class Workspace {
    var conditions: seq<Condition>
    var deploymentName: string
    var serviceName: string
    var stored: Status

    ghost function Value(): Status
      reads this
    {
      Status(conditions, deploymentName, serviceName)
    }

    constructor ()
      ensures Value() == stored == Status([], "", "")
    {
      conditions, deploymentName, serviceName, stored := [], "", "", Status([], "", "");
    }

    /** A reconcile starts from what the API server holds. */
    method Load()
      modifies this
      ensures Value() == stored == old(stored)
    {
      conditions, deploymentName, serviceName := stored.conditions, stored.deploymentName, stored.serviceName;
    }

    /** Writes what the merge returned. The write always happens; `accepted` is the API server's answer. */
    method UpdateStatus(conditionsToUpdate: seq<Condition>, accepted: bool) returns (ok: bool)
      modifies this
      ensures Value() == old(Value()).(conditions := if conditionsToUpdate == [] then old(conditions) else conditionsToUpdate)
      ensures stored == if accepted then Value() else old(stored)
      ensures ok == accepted
    {
      if |conditionsToUpdate| > 0 {
        conditions := conditionsToUpdate;
      }
      if !accepted {
        return false;
      }
      stored := Status(conditions, deploymentName, serviceName);
      return true;
    }

    /** The end of an update: new status, stored unless refused or rejected. */
    ghost predicate Wrote(was: Status, wasStored: Status, u: Update, at: int, accepted: bool, ok: bool)
      reads this
    {
      && Value() == Updated(was, u, at)
      && stored == (if accepted && !Refused(u) then Value() else wasStored)
      && ok == (accepted && !Refused(u))
    }

    method UpdateStartingStatus(readiness: Parts, at: int, accepted: bool) returns (ok: bool)
      modifies this
      ensures Wrote(old(Value()), old(stored), Starting(readiness), at, accepted, ok)
      ensures readiness == Parts(true, true, true) ==> !ok && Value() == old(Value()) && stored == old(stored)
      ensures readiness != Parts(true, true, true) ==> ok == accepted
    {
      hide Others, Settled;
      var reason, message := "ResourcesNotReady", "Workspace is starting";
      if readiness.compute && readiness.service && readiness.access {
        return false;
      }
      var waitingForCompute := !readiness.compute && readiness.service && readiness.access;
      var waitingForService := readiness.compute && !readiness.service && readiness.access;
      var waitingForAccess := readiness.compute && readiness.service && !readiness.access;
      if waitingForCompute {
        reason, message := "ComputeNotReady", "Compute is not ready";
      } else if waitingForAccess {
        reason, message := "AccessNotReady", "Access is not ready";
      } else if waitingForService {
        reason, message := "ServiceNotReady", "Service is not ready";
      }
      var available := Condition(AVAILABLE, false, reason, message, at);
      var progressing := Condition(PROGRESSING, true, reason, message, at);
      var degraded := Condition(DEGRADED, false, "NoError", "No errors detected", at);
      var stopped := Condition(STOPPED, false, "DesiredStateRunning", "Workspace is starting", at);
      var deleting := Condition(DELETING, false, "DesiredStateRunning", "Workspace is starting", at);
      var merged := MergeConditionsIfChanged(conditions, [available, progressing, degraded, stopped, deleting]);
      ok := UpdateStatus(merged, accepted);
    }

    method UpdateErrorStatus(reason: string, message: string, at: int, accepted: bool) returns (ok: bool)
      modifies this
      ensures Wrote(old(Value()), old(stored), Error(reason, message), at, accepted, ok)
    {
      hide Others, Settled;
      var merged := MergeConditionsIfChanged(conditions, [Condition(DEGRADED, true, reason, message, at)]);
      ok := UpdateStatus(merged, accepted);
    }

    method UpdatePermanentDegradedRunningStatus(degradedReason: string, availableReason: string, message: string, at: int, accepted: bool)
      returns (ok: bool)
      modifies this
      ensures Wrote(old(Value()), old(stored), PermanentDegraded(degradedReason, availableReason, message), at, accepted, ok)
    {
      hide Others, Settled;
      var merged := MergeConditionsIfChanged(conditions,
        [Condition(AVAILABLE, false, availableReason, message, at),
         Condition(PROGRESSING, false, degradedReason, message, at),
         Condition(DEGRADED, true, degradedReason, message, at),
         Condition(STOPPED, false, "DesiredStateRunning", "Workspace desired state is Running", at),
         Condition(DELETING, false, "DesiredStateRunning", "Workspace desired state is Running", at)]);
      ok := UpdateStatus(merged, accepted);
    }

    method UpdateRunningStatus(at: int, accepted: bool) returns (ok: bool)
      modifies this
      ensures Wrote(old(Value()), old(stored), Running, at, accepted, ok)
    {
      hide Others, Settled;
      var available := Condition(AVAILABLE, true, "ResourcesReady", "Workspace is ready", at);
      var progressing := Condition(PROGRESSING, false, "ResourcesReady", "Workspace is ready", at);
      var degraded := Condition(DEGRADED, false, "NoError", "No errors detected", at);
      var stopped := Condition(STOPPED, false, "DesiredStateRunning", "Workspace is running", at);
      var deleting := Condition(DELETING, false, "DesiredStateRunning", "Workspace is running", at);
      var merged := MergeConditionsIfChanged(conditions, [available, progressing, degraded, stopped, deleting]);
      ok := UpdateStatus(merged, accepted);
    }

    method UpdateStoppingStatus(readiness: Parts, at: int, accepted: bool) returns (ok: bool)
      modifies this
      ensures Wrote(old(Value()), old(stored), Stopping(readiness), at, accepted, ok)
      ensures readiness == Parts(true, true, true) ==> !ok && Value() == old(Value()) && stored == old(stored)
      ensures readiness != Parts(true, true, true) ==> ok == accepted
    {
      hide Others, Settled;
      var reason, message := "ResourcesNotStopped", "Resources are still running";
      if readiness.compute && readiness.service && readiness.access {
        return false;
      }
      var waitingForCompute := !readiness.compute && readiness.service && readiness.access;
      var waitingForService := readiness.compute && !readiness.service && readiness.access;
      var waitingForAccess := readiness.compute && readiness.service && !readiness.access;
      if waitingForCompute {
        reason, message := "ComputeNotStopped", "Compute is still running";
      } else if waitingForAccess {
        reason, message := "AccessNotStopped", "Access is still up";
      } else if waitingForService {
        reason, message := "ServiceNotStopped", "Service is still up";
      }
      var available := Condition(AVAILABLE, false, "DesiredStateStopped", "Desired status is Stopped", at);
      var progressing := Condition(PROGRESSING, true, "DesiredStateStopped", message, at);
      var degraded := Condition(DEGRADED, false, "NoError", "No errors detected", at);
      var stopped := Condition(STOPPED, false, reason, message, at);
      var deleting := Condition(DELETING, false, "DesiredStateStopped", "Workspace is stopping", at);
      var merged := MergeConditionsIfChanged(conditions, [available, progressing, degraded, stopped, deleting]);
      ok := UpdateStatus(merged, accepted);
    }

    method UpdateStoppedStatus(preempted: bool, at: int, accepted: bool) returns (ok: bool)
      modifies this
      ensures Wrote(old(Value()), old(stored), HasStopped(preempted), at, accepted, ok)
    {
      hide Others, Settled;
      var available;
      if preempted {
        available := Condition(AVAILABLE, false, "Preempted", "Workspace preempted due to resource contention", at);
      } else {
        available := Condition(AVAILABLE, false, "DesiredStateStopped", "Workspace is stopped", at);
      }
      var progressing := Condition(PROGRESSING, false, "DesiredStateStopped", "Workspace is stopped", at);
      var degraded := Condition(DEGRADED, false, "NoError", "No errors detected", at);
      var stopped := Condition(STOPPED, true, "AllResourcesStopped", "Workspace is stopped", at);
      var deleting := Condition(DELETING, false, "DesiredStateStopped", "Workspace is stopped", at);
      var merged := MergeConditionsIfChanged(conditions, [available, progressing, degraded, stopped, deleting]);
      deploymentName := "";
      serviceName := "";
      ok := UpdateStatus(merged, accepted);
    }

    method UpdateDeletingStatus(at: int, accepted: bool) returns (ok: bool)
      modifies this
      ensures Wrote(old(Value()), old(stored), IsDeleting, at, accepted, ok)
    {
      hide Others, Settled;
      var merged := MergeConditionsIfChanged(conditions,
        [Condition(AVAILABLE, false, "DeletionInProgress", "Workspace is being deleted", at),
         Condition(PROGRESSING, false, "DeletionInProgress", "Workspace is being deleted", at),
         Condition(DEGRADED, false, "NoError", "No errors detected", at),
         Condition(STOPPED, false, "DeletionInProgress", "Workspace is being deleted", at),
         Condition(DELETING, true, "DeletionInProgress", "Workspace resources are being deleted", at)]);
      deploymentName := "";
      serviceName := "";
      ok := UpdateStatus(merged, accepted);
    }
  }

  // ---------------------------------------------------------------- runs

  /** An update inside a reconcile, or the start of the next reconcile. The two names are the only other
      status fields modelled, and reconciles set them freely. */
  datatype Event = Write(u: Update, at: int, accepted: bool) | NextReconcile | Name(deployment: string, service: string)

  /** In memory, and at the API server. */
  datatype Copies = Copies(memory: Status, stored: Status)

  ghost function After(c: Copies, e: Event): Copies {
    match e
    case NextReconcile => Copies(c.stored, c.stored)
    case Name(deployment, service) => c.(memory := c.memory.(deploymentName := deployment, serviceName := service))
    case Write(u, at, accepted) =>
      var memory := Updated(c.memory, u, at);
      Copies(memory, if accepted && !Refused(u) then memory else c.stored)
  }

  ghost function AfterAll(events: seq<Event>): Copies {
    if events == [] then Copies(Status([], "", ""), Status([], "", ""))
    else After(AfterAll(events[..|events| - 1]), events[|events| - 1])
  }

  ghost predicate Good(cs: seq<Condition>) { DistinctKinds(cs) && AtMostOnePhase(cs) }

  lemma {:induction false} UpdateKeepsGood(st: Status, u: Update, at: int)
    requires Good(st.conditions)
    ensures Good(Updated(st, u, at).conditions)
  {
    hide Requested, Merged, CoversPhases, NamesNoPhase, DistinctKinds, AtMostOnePhase;
    RequestedShape(u, at);
    MergeKeepsDistinct(st.conditions, Requested(u, at));
    MergeKeepsOnePhase(st.conditions, Requested(u, at));
  }

  /** In every run, both in memory and at the API server, types are unique and at most one phase is true. */
  lemma {:induction false} RunsKeepGood(events: seq<Event>)
    ensures Good(AfterAll(events).memory.conditions) && Good(AfterAll(events).stored.conditions)
  {
    if events == [] {
    } else {
      hide Good, Updated;
      var n := |events| - 1;
      RunsKeepGood(events[..n]);
      if events[n].Write? {
        UpdateKeepsGood(AfterAll(events[..n]).memory, events[n].u, events[n].at);
      }
    }
  }

  /** What an update that is not refused asks for is what the status then says, in any state, and the
      types it does not name are as before. */
  lemma {:induction false} UpdateShows(st: Status, u: Update, at: int, kind: string)
    requires !Refused(u)
    ensures Requests(Requested(u, at), kind) ==>
              exists c :: c in Requested(u, at) && c.kind == kind && SaysAlready(Updated(st, u, at).conditions, c)
    ensures !Requests(Requested(u, at), kind) ==> Find(Updated(st, u, at).conditions, kind) == Find(st.conditions, kind)
  {
    hide Requested, Merged, CoversPhases, NamesNoPhase, DistinctKinds, AtMostOnePhase, SaysAlready;
    RequestedShape(u, at);
    var requested := Requested(u, at);
    if Requests(requested, kind) {
      var i :| 0 <= i < |requested| && requested[i].kind == kind;
      RequestedAreSet(st.conditions, requested, i);
    } else {
      OthersAreKept(st.conditions, requested, kind);
    }
  }

  /** The phase an update puts a workspace in, if any. */
  function PhaseOf(u: Update): Option<string> {
    match u
    case Starting(_) => Some(PROGRESSING)
    case Error(_, _) => None
    case PermanentDegraded(_, _, _) => None
    case Running => Some(AVAILABLE)
    case Stopping(_) => Some(PROGRESSING)
    case HasStopped(_) => Some(STOPPED)
    case IsDeleting => Some(DELETING)
  }

  predicate IsTrouble(u: Update) { u.Error? || u.PermanentDegraded? }

  lemma {:induction false} RequestedStatus(u: Update, at: int, c: Condition)
    requires c in Requested(u, at)
    ensures IsPhase(c.kind) ==> (c.status <==> PhaseOf(u) == Some(c.kind))
    ensures c.kind == DEGRADED ==> (c.status <==> IsTrouble(u))
    ensures c.at == at
  {
    hide StartingReason, StoppingReason;
    KindsDiffer();
  }

  /** After any update but an error report exactly its own phase is true, and Degraded tells trouble. */
  lemma {:induction false} UpdateSetsPhase(st: Status, u: Update, at: int, kind: string)
    requires !Refused(u) && (if u.Error? then kind == DEGRADED else IsPhase(kind) || kind == DEGRADED)
    ensures var c := Find(Updated(st, u, at).conditions, kind);
            c.Some? && (c.value.status <==> if kind == DEGRADED then IsTrouble(u) else PhaseOf(u) == Some(kind))
  {
    hide Find, Updated, Requested, PhaseOf, Refused;
    KindsDiffer();
    RequestedKinds(u, at, kind);
    UpdateShows(st, u, at, kind);
    var c :| c in Requested(u, at) && c.kind == kind && SaysAlready(Updated(st, u, at).conditions, c);
    RequestedStatus(u, at, c);
  }

  lemma {:induction false} RequestedKinds(u: Update, at: int, kind: string)
    requires if u.Error? then kind == DEGRADED else IsPhase(kind) || kind == DEGRADED
    ensures Requests(Requested(u, at), kind)
  {
    hide StartingReason, StoppingReason;
    var r := Requested(u, at);
    if u.Error? {
      assert r[0].kind == kind;
    } else {
      assert r[0].kind == AVAILABLE && r[1].kind == PROGRESSING && r[2].kind == DEGRADED && r[3].kind == STOPPED && r[4].kind == DELETING;
    }
  }

  lemma {:induction false} RequestedTrouble(u: Update, at: int, c: Condition)
    requires c in Requested(u, at) && IsTrouble(u)
    ensures c.kind == DEGRADED ==> c.message == u.message && c.reason == if u.Error? then u.reason else u.degradedReason
    ensures c.kind == AVAILABLE ==> u.PermanentDegraded? && c.message == u.message && c.reason == u.availableReason
  {
    KindsDiffer();
  }

  /** Trouble is told in the words it is reported with. */
  lemma {:induction false} TroubleTold(st: Status, u: Update, at: int)
    requires IsTrouble(u)
    ensures var c := Find(Updated(st, u, at).conditions, DEGRADED);
            c.Some? && c.value.message == u.message && c.value.reason == if u.Error? then u.reason else u.degradedReason
    ensures u.PermanentDegraded? ==>
              var c := Find(Updated(st, u, at).conditions, AVAILABLE);
              c.Some? && c.value.message == u.message && c.value.reason == u.availableReason
  {
    hide Find, Updated, Requested;
    RequestedKinds(u, at, DEGRADED);
    UpdateShows(st, u, at, DEGRADED);
    var c :| c in Requested(u, at) && c.kind == DEGRADED && SaysAlready(Updated(st, u, at).conditions, c);
    RequestedTrouble(u, at, c);
    if u.PermanentDegraded? {
      RequestedKinds(u, at, AVAILABLE);
      UpdateShows(st, u, at, AVAILABLE);
      var d :| d in Requested(u, at) && d.kind == AVAILABLE && SaysAlready(Updated(st, u, at).conditions, d);
      RequestedTrouble(u, at, d);
    }
  }

  function Missing(p: Parts): nat {
    (if p.compute then 0 else 1) + (if p.service then 0 else 1) + if p.access then 0 else 1
  }

  /** A reason that names one part, or all of them. */
  predicate Blames(reason: string, p: Parts, compute: string, service: string, access: string, all: string) {
    if Missing(p) != 1 then reason == all
    else reason == if !p.compute then compute else if !p.service then service else access
  }

  lemma {:induction false} RequestedBlame(u: Update, at: int, c: Condition)
    requires c in Requested(u, at) && !Refused(u)
    ensures u.Starting? && (c.kind == AVAILABLE || c.kind == PROGRESSING) ==>
              Blames(c.reason, u.ready, "ComputeNotReady", "ServiceNotReady", "AccessNotReady", "ResourcesNotReady")
    ensures u.Stopping? && c.kind == STOPPED ==>
              Blames(c.reason, u.stopped, "ComputeNotStopped", "ServiceNotStopped", "AccessNotStopped", "ResourcesNotStopped")
  {
    KindsDiffer();
  }

  /** A start or stop under way names the one part it waits for, if it is only one. */
  lemma {:induction false} WaitingTold(st: Status, u: Update, at: int)
    requires !Refused(u)
    ensures u.Starting? ==>
              var c := Find(Updated(st, u, at).conditions, AVAILABLE);
              c.Some? && Blames(c.value.reason, u.ready, "ComputeNotReady", "ServiceNotReady", "AccessNotReady", "ResourcesNotReady")
    ensures u.Stopping? ==>
              var c := Find(Updated(st, u, at).conditions, STOPPED);
              c.Some? && Blames(c.value.reason, u.stopped, "ComputeNotStopped", "ServiceNotStopped", "AccessNotStopped", "ResourcesNotStopped")
  {
    hide Find, Updated, Requested, Blames, Refused;
    if u.Starting? || u.Stopping? {
      var kind := if u.Starting? then AVAILABLE else STOPPED;
      RequestedKinds(u, at, kind);
      UpdateShows(st, u, at, kind);
      var c :| c in Requested(u, at) && c.kind == kind && SaysAlready(Updated(st, u, at).conditions, c);
      RequestedBlame(u, at, c);
    }
  }

  /** A workspace that has stopped or is being deleted names no objects; every other update keeps the
      names. */
  lemma {:induction false} NamesCleared(st: Status, u: Update, at: int)
    requires !Refused(u)
    ensures var after := Updated(st, u, at);
            if PhaseOf(u) == Some(STOPPED) || PhaseOf(u) == Some(DELETING) then after.deploymentName == "" && after.serviceName == ""
            else after.deploymentName == st.deploymentName && after.serviceName == st.serviceName
  {
    hide Merged, Requested;
    KindsDiffer();
  }

  lemma {:induction false} RequestedPreemption(preempted: bool, at: int, c: Condition)
    requires c in Requested(HasStopped(preempted), at) && c.kind == AVAILABLE
    ensures c.reason == "Preempted" <==> preempted
  {
    KindsDiffer();
    assert |"Preempted"| == 9 && |"DesiredStateStopped"| == 19;
  }

  /** A stopped workspace says that it was preempted exactly when it was. */
  lemma {:induction false} PreemptionTold(st: Status, preempted: bool, at: int)
    ensures var c := Find(Updated(st, HasStopped(preempted), at).conditions, AVAILABLE);
            c.Some? && (c.value.reason == "Preempted" <==> preempted)
  {
    hide Find, Updated, Requested;
    var u := HasStopped(preempted);
    RequestedKinds(u, at, AVAILABLE);
    UpdateShows(st, u, at, AVAILABLE);
    var c :| c in Requested(u, at) && c.kind == AVAILABLE && SaysAlready(Updated(st, u, at).conditions, c);
    RequestedPreemption(preempted, at, c);
  }

  /** An error report never moves a workspace to another phase. */
  lemma {:induction false} ErrorKeepsPhase(st: Status, reason: string, message: string, at: int, kind: string)
    requires IsPhase(kind)
    ensures Find(Updated(st, Error(reason, message), at).conditions, kind) == Find(st.conditions, kind)
  {
    KindsDiffer();
    UpdateShows(st, Error(reason, message), at, kind);
  }

  lemma {:induction false} RequestedLater(u: Update, at: int, later: int)
    ensures |Requested(u, at)| == |Requested(u, later)|
    ensures forall i :: 0 <= i < |Requested(u, at)| ==> SaysSame(Requested(u, at)[i], Requested(u, later)[i])
  {
    hide StartingReason, StoppingReason;
  }

  /** The same update again is quiet: it leaves the conditions, transition times included. */
  lemma {:induction false} UpdateAgain(st: Status, u: Update, at: int, later: int)
    requires !Refused(u)
    ensures Updated(Updated(st, u, at), u, later) == Updated(st, u, at)
  {
    hide Requested, Merged, CoversPhases, NamesNoPhase, DistinctKinds, AtMostOnePhase, SaysAlready, SaysSame;
    RequestedShape(u, at);
    RequestedLater(u, at, later);
    var cs := Merged(st.conditions, Requested(u, at));
    MergeAgain(st.conditions, Requested(u, at));
    forall i | 0 <= i < |Requested(u, later)|
      ensures SaysAlready(cs, Requested(u, later)[i])
    {
      SaysLater(cs, Requested(u, at)[i], Requested(u, later)[i]);
    }
    MergedSettled(cs, Requested(u, later));
  }

  predicate SaysSame(a: Condition, b: Condition) { a.kind == b.kind && SameContent(a, b) }

  lemma {:induction false} SaysLater(cs: seq<Condition>, a: Condition, b: Condition)
    requires SaysAlready(cs, a) && SaysSame(a, b)
    ensures SaysAlready(cs, b)
  {
  }
}
