/** The pass towards Running (internal/controller/state_machine.go, state_machine_access.go,
    resource_manager.go, resource_manager_access.go), against the same cluster as the passes that stop and
    delete. Reads of templates and of the probed endpoint are not calls on the workspace's objects. */
module Running {
  import opened Text
  import opened Conditions
  import opened Lifecycle

  // ---------------------------------------------------------------- what the pass is asked for

  /** How an object compares with what the builder makes of the workspace. A build that fails only in
      replaying an integration counts as up to date: the object is left alone. */
  datatype Compare = CompareFails | UpToDate | OutOfDate | Unbuildable

  datatype Wanted = Wanted(builds: bool, compare: Compare)

  datatype AccessTemplate = AccessTemplate(ref: string, wanted: Wanted)

  datatype AccessPlan = AccessPlan(templates: seq<AccessTemplate>, urlResolves: bool)

  datatype Probe = ProbeReady | ProbeWaits | ProbeGaveUp | ProbeFailed

  datatype Want = Want(storage: bool, claim: Wanted, deployment: Wanted, service: Wanted,
                       deploymentReady: bool, serviceReady: bool, access: Option<AccessPlan>, probe: Probe,
                       deploymentName: string, serviceName: string)

  /** Objects are only compared and updated while the workspace is available. */
  predicate IsAvailable(st: Status) {
    var c := Find(st.conditions, AVAILABLE);
    c.Some? && c.value.status
  }

  // ---------------------------------------------------------------- the pass

  function BroughtUpToDate(w: World, env: Env, name: Name, compare: Compare): Step {
    match compare
    case CompareFails => Step(w, false)
    case Unbuildable => Step(w, false)
    case UpToDate => Step(w, true)
    case OutOfDate => Step(Called(w, env), Updates(w, env, name))
  }

  /** Created when it is not there; otherwise, if the workspace is available, brought up to date. */
  function EnsureExists(w: World, env: Env, name: Name, wanted: Wanted, available: bool): Step {
    var w1 := Called(w, env);
    match ReadOf(w, env, name)
    case ReadFailed => Step(w1, false)
    case NotFound => if wanted.builds then Step(AfterCreate(w1, env, name), CreationOf(w1, env, name).Created?) else Step(w1, false)
    case Found(_) => if available then BroughtUpToDate(w1, env, name, wanted.compare) else Step(w1, true)
  }

  datatype AccessStep = AccessStep(world: World, tracked: seq<string>, ok: bool)

  /** The list without the first entry for `ref`. */
  function Without(tracked: seq<string>, ref: string): seq<string> {
    if tracked == [] then [] else if tracked[0] == ref then tracked[1..] else [tracked[0]] + Without(tracked[1..], ref)
  }

  /** An object that turns out to exist already is taken over. */
  function CreateAccess(w: World, env: Env, tracked: seq<string>, t: AccessTemplate): AccessStep {
    if !t.wanted.builds then AccessStep(w, tracked, false)
    else
      var name, w1 := Access(t.ref), AfterCreate(w, env, Access(t.ref));
      match CreationOf(w, env, name)
      case CreateFailed => AccessStep(w1, tracked, false)
      case Created => AccessStep(w1, tracked + [t.ref], true)
      case AlreadyExists =>
        var w2 := Called(w1, env);
        if !ReadOf(w1, env, name).Found? then AccessStep(w2, tracked, false)
        else if Updates(w2, env, name) then AccessStep(Called(w2, env), tracked + [t.ref], true)
        else AccessStep(Called(w2, env), tracked, false)
  }

  function EnsureAccess(w: World, env: Env, tracked: seq<string>, t: AccessTemplate): AccessStep {
    if t.ref !in tracked then CreateAccess(w, env, tracked, t)
    else
      var w1 := Called(w, env);
      match ReadOf(w, env, Access(t.ref))
      case ReadFailed => AccessStep(w1, tracked, false)
      case NotFound => CreateAccess(w1, env, Without(tracked, t.ref), t)
      case Found(_) =>
        var u := BroughtUpToDate(w1, env, Access(t.ref), t.wanted.compare);
        AccessStep(u.world, tracked, u.ok)
  }

  function EnsureAllAccess(w: World, env: Env, tracked: seq<string>, templates: seq<AccessTemplate>): AccessStep
    decreases |templates|
  {
    if templates == [] then AccessStep(w, tracked, true)
    else
      var a := EnsureAccess(w, env, tracked, templates[0]);
      if a.ok then EnsureAllAccess(a.world, env, a.tracked, templates[1..]) else a
  }

  predicate Asks(templates: seq<AccessTemplate>, ref: string) {
    exists i :: 0 <= i < |templates| && templates[i].ref == ref
  }

  /** The tracked entries that are, or are not, asked for, in their order. */
  function Chosen(tracked: seq<string>, templates: seq<AccessTemplate>, asked: bool): seq<string> {
    if tracked == [] then []
    else
      var n := |tracked| - 1;
      Chosen(tracked[..n], templates, asked) + if Asks(templates, tracked[n]) == asked then [tracked[n]] else []
  }

  /** First everything the strategy asks for, then the removal of what it no longer asks for. */
  function EnsureStrategy(w: World, env: Env, tracked: seq<string>, templates: seq<AccessTemplate>): AccessStep {
    var a := EnsureAllAccess(w, env, tracked, templates);
    if !a.ok then a
    else
      var g := EnsureAllAccessGone(a.world, env, Chosen(a.tracked, templates, false));
      if g.ok then AccessStep(g.world, Chosen(a.tracked, templates, true), true) else AccessStep(g.world, a.tracked, false)
  }

  function EnsureAccessFor(w: World, env: Env, tracked: seq<string>, access: Option<AccessPlan>): AccessStep {
    if access.None? then
      var g := EnsureAllAccessGone(w, env, tracked);
      AccessStep(g.world, if g.ok then [] else tracked, g.ok)
    else
      var a := EnsureStrategy(w, env, tracked, access.value.templates);
      a.(ok := a.ok && access.value.urlResolves)
  }

  /** The reason and message an error is reported with. */
  datatype Trouble = Trouble(reason: string, message: string)

  /** `found` when the Deployment was there already. */
  datatype Objected = Objected(world: World, trouble: Option<Trouble>, found: bool)

  const CLAIM_TROUBLE := Trouble("ComputeError", "failed to ensure PVC exists")
  const DEPLOYMENT_TROUBLE := Trouble("ComputeError", "failed to ensure deployment exists")
  const SERVICE_TROUBLE := Trouble("ServiceError", "failed to ensure service exists")

  /** Claim, if storage is asked for, Deployment and Service in turn, up to the first error. */
  function EnsureObjects(w: World, env: Env, want: Want, available: bool): Objected {
    var c := if want.storage then EnsureExists(w, env, Claim, want.claim, available) else Step(w, true);
    if !c.ok then Objected(c.world, Some(CLAIM_TROUBLE), false)
    else
      var d, found := EnsureExists(c.world, env, Deployment, want.deployment, available), ReadOf(c.world, env, Deployment).Found?;
      if !d.ok then Objected(d.world, Some(DEPLOYMENT_TROUBLE), found)
      else
        var v := EnsureExists(d.world, env, Service, want.service, available);
        Objected(v.world, if v.ok then None else Some(SERVICE_TROUBLE), found)
  }

  /** A Deployment that has only just been created has no replica yet and is not ready. */
  function Observed(want: Want, found: bool): Want { want.(deploymentReady := want.deploymentReady && found) }

  /** An error of the access reconcile or the probe ends the pass without a write. */
  ghost function RunningPass(s: State, env: Env, want: Want, at: int): Outcome {
    var o := EnsureObjects(World(s.objects, 0), env, want, IsAvailable(s.status));
    if o.trouble.Some? then
      Finish(s, o.world, env, s.tracked, Error(o.trouble.value.reason, o.trouble.value.message), at, false, Err)
    else
      var seen := Observed(want, o.found);
      if seen.deploymentReady && seen.serviceReady then AccessPass(s, o.world, env, seen, at)
      else StartingPass(s, o.world, env, s.tracked, seen, at)
  }

  const GAVE_UP :=
    PermanentDegraded("AccessProbeThresholdExceeded", "AccessNotReady", "Access startup probe failed: threshold exceeded")

  ghost function AccessPass(s: State, w: World, env: Env, want: Want, at: int): Outcome {
    var a := EnsureAccessFor(w, env, s.tracked, want.access);
    if !a.ok || want.probe.ProbeFailed? then Outcome(s.(objects := a.world.objects), Err, false, None)
    else
      match want.probe
      case ProbeGaveUp =>
        Finish(s, a.world, env, a.tracked, GAVE_UP, at, true, Done)
      case ProbeReady => Finish(s, a.world, env, a.tracked, Update.Running, at, true, Done)
      case _ => StartingPass(s, a.world, env, a.tracked, want, at)
  }

  ghost function StartingPass(s: State, w: World, env: Env, tracked: seq<string>, want: Want, at: int): Outcome {
    var named := s.status.(deploymentName := want.deploymentName, serviceName := want.serviceName);
    FinishFrom(s, named, w, env, tracked, Starting(Parts(want.deploymentReady, want.serviceReady, false)), at, true, Requeue)
  }

  // ---------------------------------------------------------------- the pass, step by step

  method BringUpToDate(r: Reconciler, name: Name, compare: Compare) returns (ok: bool)
    modifies r`objects, r`calls
    ensures Step(r.Cluster(), ok) == BroughtUpToDate(old(r.Cluster()), r.env, name, compare)
  {
    match compare
    case CompareFails => return false;
    case Unbuildable => return false;
    case UpToDate => return true;
    case OutOfDate => ok := r.UpdateObject(name);
  }

  /** The same for claim, Deployment and Service. */
  method EnsureObjectExists(r: Reconciler, name: Name, wanted: Wanted, available: bool) returns (ok: bool, found: bool)
    modifies r`objects, r`calls
    ensures Step(r.Cluster(), ok) == EnsureExists(old(r.Cluster()), r.env, name, wanted, available)
    ensures found == ReadOf(old(r.Cluster()), r.env, name).Found?
  {
    var read := r.Get(name);
    found := read.Found?;
    if read.NotFound? {
      if !wanted.builds {
        return false, found;
      }
      var creation := r.CreateObject(name);
      return creation.Created?, found;
    }
    if read.ReadFailed? {
      return false, found;
    }
    if !available {
      return true, found;
    }
    ok := BringUpToDate(r, name, wanted.compare);
  }

  /** The place of a reference in the list, or -1. */
  method FindTracked(tracked: seq<string>, ref: string) returns (idx: int)
    ensures -1 <= idx < |tracked| && (idx == -1 <==> ref !in tracked)
    ensures idx >= 0 ==> tracked[..idx] + tracked[idx + 1..] == Without(tracked, ref)
  {
    for i := 0 to |tracked|
      invariant ref !in tracked[..i]
    {
      if tracked[i] == ref {
        RemovedAt(tracked, ref, i);
        return i;
      }
    }
    assert tracked[..|tracked|] == tracked;
    return -1;
  }

  lemma {:induction false} RemovedAt(tracked: seq<string>, ref: string, i: nat)
    requires i < |tracked| && tracked[i] == ref && ref !in tracked[..i]
    ensures Without(tracked, ref) == tracked[..i] + tracked[i + 1..]
  {
    if i > 0 {
      assert tracked[..i][0] == tracked[0];
      assert tracked[1..][..i - 1] == tracked[..i][1..];
      RemovedAt(tracked[1..], ref, i - 1);
    }
  }

  method EnsureAccessResourceExists(r: Reconciler, t: AccessTemplate) returns (ok: bool)
    modifies r`objects, r`calls, r`tracked
    ensures AccessStep(r.Cluster(), r.tracked, ok) == EnsureAccess(old(r.Cluster()), r.env, old(r.tracked), t)
  {
    var statusIdx := FindTracked(r.tracked, t.ref);
    if statusIdx >= 0 {
      var read := r.Get(Access(t.ref));
      if read.Found? {
        ok := BringUpToDate(r, Access(t.ref), t.wanted.compare);
        return;
      } else if read.ReadFailed? {
        return false;
      }
      r.tracked := r.tracked[..statusIdx] + r.tracked[statusIdx + 1..];
    }
    if !t.wanted.builds {
      return false;
    }
    var creation := r.CreateObject(Access(t.ref));
    if creation.CreateFailed? {
      return false;
    }
    if creation.AlreadyExists? {
      var read := r.Get(Access(t.ref));
      if !read.Found? {
        return false;
      }
      var updated := r.UpdateObject(Access(t.ref));
      if !updated {
        return false;
      }
    }
    r.tracked := r.tracked + [t.ref];
    return true;
  }

  method RefsOf(templates: seq<AccessTemplate>) returns (current: set<string>)
    ensures forall ref :: ref in current <==> Asks(templates, ref)
  {
    current := {};
    for i := 0 to |templates|
      invariant forall ref :: ref in current <==> exists j :: 0 <= j < i && templates[j].ref == ref
    {
      current := current + {templates[i].ref};
    }
  }

  method Partition(tracked: seq<string>, templates: seq<AccessTemplate>) returns (toDelete: seq<string>, toKeep: seq<string>)
    ensures toDelete == Chosen(tracked, templates, false) && toKeep == Chosen(tracked, templates, true)
  {
    var current := RefsOf(templates);
    toDelete, toKeep := [], [];
    for i := 0 to |tracked|
      invariant toDelete == Chosen(tracked[..i], templates, false) && toKeep == Chosen(tracked[..i], templates, true)
    {
      hide Asks;
      assert tracked[..i + 1][..i] == tracked[..i];
      if tracked[i] !in current {
        toDelete := toDelete + [tracked[i]];
      } else {
        toKeep := toKeep + [tracked[i]];
      }
    }
    assert tracked[..|tracked|] == tracked;
  }

  method DeleteAll(r: Reconciler, refs: seq<string>) returns (ok: bool)
    modifies r`objects, r`calls
    ensures Step(r.Cluster(), ok) == EnsureAllAccessGone(old(r.Cluster()), r.env, refs)
  {
    for i := 0 to |refs|
      invariant EnsureAllAccessGone(old(r.Cluster()), r.env, refs) == EnsureAllAccessGone(r.Cluster(), r.env, refs[i..])
    {
      var removed, done := r.EnsureAccessResourceDeleted(refs[i]);
      assert refs[i..][1..] == refs[i + 1..];
      if !done {
        return false;
      }
    }
    return true;
  }

  method EnsureAccessResourcesExist(r: Reconciler, templates: seq<AccessTemplate>) returns (ok: bool)
    modifies r`objects, r`calls, r`tracked
    ensures AccessStep(r.Cluster(), r.tracked, ok) == EnsureStrategy(old(r.Cluster()), r.env, old(r.tracked), templates)
  {
    hide EnsureAccess, EnsureAllAccessGone, Chosen;
    for i := 0 to |templates|
      invariant EnsureAllAccess(old(r.Cluster()), r.env, old(r.tracked), templates) ==
                EnsureAllAccess(r.Cluster(), r.env, r.tracked, templates[i..])
    {
      var done := EnsureAccessResourceExists(r, templates[i]);
      assert templates[i..][1..] == templates[i + 1..];
      if !done {
        return false;
      }
    }
    var toDelete, toKeep := Partition(r.tracked, templates);
    var deleted := DeleteAll(r, toDelete);
    if !deleted {
      return false;
    }
    if |toDelete| > 0 {
      r.tracked := toKeep;
    } else {
      AllChosen(r.tracked, templates);
    }
    return true;
  }

  /** If nothing is left out, the list is kept as it is. */
  lemma {:induction false} AllChosen(tracked: seq<string>, templates: seq<AccessTemplate>)
    requires Chosen(tracked, templates, false) == []
    ensures Chosen(tracked, templates, true) == tracked
  {
    if tracked == [] {
    } else {
      hide Asks;
      var n := |tracked| - 1;
      AllChosen(tracked[..n], templates);
      assert tracked == tracked[..n] + [tracked[n]];
    }
  }

  lemma {:induction false} ChosenMembers(tracked: seq<string>, templates: seq<AccessTemplate>, asked: bool, ref: string)
    ensures ref in Chosen(tracked, templates, asked) <==> ref in tracked && Asks(templates, ref) == asked
  {
    if tracked == [] {
    } else {
      hide Asks;
      var n := |tracked| - 1;
      ChosenMembers(tracked[..n], templates, asked, ref);
      assert tracked == tracked[..n] + [tracked[n]];
    }
  }

  method ReconcileAccessForDesiredRunningStatus(r: Reconciler, access: Option<AccessPlan>) returns (ok: bool)
    modifies r`objects, r`calls, r`tracked
    ensures AccessStep(r.Cluster(), r.tracked, ok) == EnsureAccessFor(old(r.Cluster()), r.env, old(r.tracked), access)
  {
    hide EnsureStrategy, EnsureAllAccessGone;
    if access.Some? {
      ok := EnsureAccessResourcesExist(r, access.value.templates);
      if !ok {
        return false;
      }
      return access.value.urlResolves;
    }
    ok := r.EnsureAccessResourcesDeleted();
  }

  method IsWorkspaceAvailable(conditions: seq<Condition>) returns (available: bool)
    ensures available <==> Find(conditions, AVAILABLE).Some? && Find(conditions, AVAILABLE).value.status
  {
    for i := 0 to |conditions|
      invariant Find(conditions, AVAILABLE) == Find(conditions[i..], AVAILABLE)
    {
      if conditions[i].kind == AVAILABLE {
        return conditions[i].status;
      }
    }
    return false;
  }

  method WriteStarting(r: Reconciler, want: Want, at: int) returns (result: Result)
    requires r.workspace.Value() == r.workspace.stored
    modifies r`objects, r`calls, r`storedTracked, r.workspace
    ensures var o := StartingPass(old(r.Persisted()), old(r.Cluster()), r.env, r.tracked, want, at);
            r.Persisted() == o.state && result == o.result
  {
    hide Updated, Called;
    r.workspace.deploymentName := want.deploymentName;
    r.workspace.serviceName := want.serviceName;
    var accepted := r.Call();
    var ok := r.workspace.UpdateStartingStatus(Parts(want.deploymentReady, want.serviceReady, false), at, accepted);
    if !ok {
      return Err;
    }
    r.storedTracked := r.tracked;
    return Requeue;
  }

  method FinishAccess(r: Reconciler, want: Want, at: int) returns (result: Result)
    requires r.workspace.Value() == r.workspace.stored && r.tracked == r.storedTracked
    modifies r`objects, r`calls, r`tracked, r`storedTracked, r.workspace
    ensures var o := AccessPass(old(r.Persisted()), old(r.Cluster()), r.env, want, at);
            r.Persisted() == o.state && result == o.result
  {
    hide Updated, Called, EnsureAccessFor;
    var ok := ReconcileAccessForDesiredRunningStatus(r, want.access);
    if !ok {
      return Err;
    }
    match want.probe
    case ProbeFailed => return Err;
    case ProbeGaveUp =>
      var accepted := r.Call();
      var written := r.workspace.UpdatePermanentDegradedRunningStatus("AccessProbeThresholdExceeded", "AccessNotReady",
        "Access startup probe failed: threshold exceeded", at, accepted);
      if !written {
        return Err;
      }
      r.storedTracked := r.tracked;
      return Done;
    case ProbeReady =>
      var accepted := r.Call();
      var written := r.workspace.UpdateRunningStatus(at, accepted);
      if !written {
        return Err;
      }
      r.storedTracked := r.tracked;
      return Done;
    case ProbeWaits =>
      result := WriteStarting(r, want, at);
  }

  /** What is left of the cluster is what the calls have made of it. */
  lemma {:induction false} OwnObjects(s: State, objects: Objects, w: World, env: Env, want: Want, at: int)
    ensures AccessPass(s.(objects := objects), w, env, want, at) == AccessPass(s, w, env, want, at)
  {
    hide Updated, Called, EnsureAccessFor;
  }

  method EnsureObjectsExist(r: Reconciler, want: Want, available: bool) returns (trouble: Option<Trouble>, found: bool)
    modifies r`objects, r`calls
    ensures Objected(r.Cluster(), trouble, found) == EnsureObjects(old(r.Cluster()), r.env, want, available)
  {
    hide EnsureExists, ReadOf;
    if want.storage {
      var claimOk, _ := EnsureObjectExists(r, Claim, want.claim, available);
      if !claimOk {
        return Some(CLAIM_TROUBLE), false;
      }
    }
    var deploymentOk;
    deploymentOk, found := EnsureObjectExists(r, Deployment, want.deployment, available);
    if !deploymentOk {
      return Some(DEPLOYMENT_TROUBLE), found;
    }
    var serviceOk, _ := EnsureObjectExists(r, Service, want.service, available);
    if !serviceOk {
      return Some(SERVICE_TROUBLE), found;
    }
    return None, found;
  }

  method ReconcileDesiredRunningStatus(r: Reconciler, want: Want, at: int) returns (result: Result)
    requires r.Loaded()
    modifies r`objects, r`calls, r`tracked, r`storedTracked, r.workspace
    ensures var o := RunningPass(old(r.Persisted()), r.env, want, at); r.Persisted() == o.state && result == o.result
  {
    hide Updated, Called, EnsureObjects, AccessPass;
    var available := IsWorkspaceAvailable(r.workspace.conditions);
    var trouble, found := EnsureObjectsExist(r, want, available);
    if trouble.Some? {
      r.WriteError(trouble.value.reason, trouble.value.message, at);
      return Err;
    }
    var seen := Observed(want, found);
    if seen.deploymentReady && seen.serviceReady {
      OwnObjects(old(r.Persisted()), r.objects, r.Cluster(), r.env, seen, at);
      result := FinishAccess(r, seen, at);
    } else {
      result := WriteStarting(r, seen, at);
    }
  }

  // ---------------------------------------------------------------- what the pass keeps

  /** An object that was there is there still, as it was. */
  predicate Keeps(before: Objects, after: Objects, name: Name) {
    name in before ==> name in after && after[name] == before[name]
  }

  lemma {:induction false} CallKeeps(w: World, env: Env, name: Name, other: Name)
    requires Leaves(env, other)
    ensures Keeps(w.objects, Called(w, env).objects, other)
    ensures Keeps(w.objects, AfterCreate(w, env, name).objects, other)
  {
  }

  lemma {:induction false} UpToDateKeeps(w: World, env: Env, name: Name, compare: Compare, other: Name)
    requires Leaves(env, other)
    ensures Keeps(w.objects, BroughtUpToDate(w, env, name, compare).world.objects, other)
  {
    hide Called, Leaves;
    CallKeeps(w, env, name, other);
  }

  lemma {:induction false} ExistsKeeps(w: World, env: Env, name: Name, wanted: Wanted, available: bool, other: Name)
    requires Leaves(env, other)
    ensures Keeps(w.objects, EnsureExists(w, env, name, wanted, available).world.objects, other)
  {
    hide Called, AfterCreate, BroughtUpToDate, Leaves;
    CallKeeps(w, env, name, other);
    CallKeeps(Called(w, env), env, name, other);
    UpToDateKeeps(Called(w, env), env, name, wanted.compare, other);
  }

  lemma {:induction false} CreateAccessKeeps(w: World, env: Env, tracked: seq<string>, t: AccessTemplate, other: Name)
    requires Leaves(env, other)
    ensures Keeps(w.objects, CreateAccess(w, env, tracked, t).world.objects, other)
  {
    hide Called, AfterCreate, Leaves;
    var name := Access(t.ref);
    var w1 := AfterCreate(w, env, name);
    CallKeeps(w, env, name, other);
    CallKeeps(w1, env, name, other);
    CallKeeps(Called(w1, env), env, name, other);
  }

  lemma {:induction false} AccessKeeps(w: World, env: Env, tracked: seq<string>, t: AccessTemplate, other: Name)
    requires Leaves(env, other)
    ensures Keeps(w.objects, EnsureAccess(w, env, tracked, t).world.objects, other)
  {
    hide Called, CreateAccess, BroughtUpToDate, Leaves;
    CallKeeps(w, env, Access(t.ref), other);
    CreateAccessKeeps(w, env, tracked, t, other);
    CreateAccessKeeps(Called(w, env), env, Without(tracked, t.ref), t, other);
    UpToDateKeeps(Called(w, env), env, Access(t.ref), t.wanted.compare, other);
  }

  lemma {:induction false} AllAccessKeeps(w: World, env: Env, tracked: seq<string>, templates: seq<AccessTemplate>, other: Name)
    requires Leaves(env, other)
    ensures Keeps(w.objects, EnsureAllAccess(w, env, tracked, templates).world.objects, other)
    decreases |templates|
  {
    if templates == [] {
    } else {
      hide EnsureAccess, Leaves;
      var a := EnsureAccess(w, env, tracked, templates[0]);
      AccessKeeps(w, env, tracked, templates[0], other);
      if a.ok {
        AllAccessKeeps(a.world, env, a.tracked, templates[1..], other);
      }
    }
  }

  /** The access reconcile, with a strategy or without, deletes access resources only. */
  lemma {:induction false} AccessForKeeps(w: World, env: Env, tracked: seq<string>, access: Option<AccessPlan>, other: Name)
    requires Leaves(env, other) && !other.Access?
    ensures Keeps(w.objects, EnsureAccessFor(w, env, tracked, access).world.objects, other)
  {
    hide EnsureAllAccess, EnsureAllAccessGone, Chosen, Leaves, Worn, AccessDown;
    EnsureAllAccessFacts(w, env, tracked, other);
    if access.Some? {
      var a := EnsureAllAccess(w, env, tracked, access.value.templates);
      AllAccessKeeps(w, env, tracked, access.value.templates, other);
      EnsureAllAccessFacts(a.world, env, Chosen(a.tracked, access.value.templates, false), other);
    }
  }

  lemma {:induction false} ObjectsKeep(w: World, env: Env, want: Want, available: bool, other: Name)
    requires Leaves(env, other)
    ensures Keeps(w.objects, EnsureObjects(w, env, want, available).world.objects, other)
  {
    hide EnsureExists, Leaves;
    var c := if want.storage then EnsureExists(w, env, Claim, want.claim, available) else Step(w, true);
    var d := EnsureExists(c.world, env, Deployment, want.deployment, available);
    ExistsKeeps(w, env, Claim, want.claim, available, other);
    ExistsKeeps(c.world, env, Deployment, want.deployment, available, other);
    ExistsKeeps(d.world, env, Service, want.service, available, other);
  }

  lemma {:induction false} AccessPassKeeps(s: State, w: World, env: Env, want: Want, at: int, other: Name)
    requires Leaves(env, other) && !other.Access?
    ensures Keeps(w.objects, AccessPass(s, w, env, want, at).state.objects, other)
  {
    hide EnsureAccessFor, Called, Leaves, Updated;
    var a := EnsureAccessFor(w, env, s.tracked, want.access);
    AccessForKeeps(w, env, s.tracked, want.access, other);
    CallKeeps(a.world, env, other, other);
  }

  /** A pass towards Running never deletes claim, Deployment or Service. */
  lemma {:induction false} RunningKeeps(s: State, env: Env, want: Want, at: int, other: Name)
    requires Leaves(env, other) && !other.Access?
    ensures Keeps(s.objects, RunningPass(s, env, want, at).state.objects, other)
  {
    hide EnsureObjects, AccessPass, Called, Leaves, Updated;
    var w, available := World(s.objects, 0), IsAvailable(s.status);
    var o := EnsureObjects(w, env, want, available);
    ObjectsKeep(w, env, want, available, other);
    AccessPassKeeps(s, o.world, env, Observed(want, o.found), at, other);
    CallKeeps(o.world, env, other, other);
  }

  /** It leaves the finalizer, and never turns Stopped to true. */
  lemma {:induction false} RunningNeverStops(s: State, env: Env, want: Want, at: int)
    ensures var o := RunningPass(s, env, want, at);
            && o.state.finalizer == s.finalizer && o.state.deleting == s.deleting
            && (ShowsStopped(o.state.status) ==> ShowsStopped(s.status))
  {
    hide RunningPass, Updated, ShowsStopped;
    RunningStatus(s, env, want, at);
    var o := RunningPass(s, env, want, at);
    var named := s.status.(deploymentName := want.deploymentName, serviceName := want.serviceName);
    NamesDoNotShow(s.status, want.deploymentName, want.serviceName);
    if o.update.Some? && ShowsStopped(o.state.status) && !ShowsStopped(s.status) {
      OnlyStopShows(if o.update.value.Starting? then named else s.status, o.update.value, at);
    }
  }

  lemma {:induction false} NamesDoNotShow(st: Status, deployment: string, service: string)
    ensures ShowsStopped(st.(deploymentName := deployment, serviceName := service)) == ShowsStopped(st)
  {
  }

  /** The status a pass leaves is that of one update, none of them that of a finished stop. */
  ghost predicate OneUpdate(s: State, want: Want, at: int, o: Outcome) {
    var named := s.status.(deploymentName := want.deploymentName, serviceName := want.serviceName);
    && o.state.finalizer == s.finalizer && o.state.deleting == s.deleting
    && (o.update.None? ==> o.state.status == s.status)
    && (o.update.Some? ==>
          && !o.update.value.HasStopped?
          && o.state.status == Updated(if o.update.value.Starting? then named else s.status, o.update.value, at))
  }

  lemma {:induction false} AccessPassStatus(s: State, w: World, env: Env, want: Want, at: int)
    ensures OneUpdate(s, want, at, AccessPass(s, w, env, want, at))
  {
    hide EnsureAccessFor, Called, Updated;
  }

  lemma {:induction false} RunningStatus(s: State, env: Env, want: Want, at: int)
    ensures OneUpdate(s, want, at, RunningPass(s, env, want, at))
  {
    hide EnsureObjects, AccessPass, Called, Updated;
    var o := EnsureObjects(World(s.objects, 0), env, want, IsAvailable(s.status));
    AccessPassStatus(s, o.world, env, Observed(want, o.found), at);
  }

  // ---------------------------------------------------------------- what is tracked

  predicate Wants(access: Option<AccessPlan>, ref: string) { access.Some? && Asks(access.value.templates, ref) }

  lemma {:induction false} WithoutMembers(tracked: seq<string>, ref: string, other: string)
    ensures other != ref ==> (other in Without(tracked, ref) <==> other in tracked)
  {
    if tracked != [] {
      WithoutMembers(tracked[1..], ref, other);
      assert tracked == [tracked[0]] + tracked[1..];
    }
  }

  /** One resource of the strategy is tracked afterwards, and no other entry comes or goes. */
  lemma {:induction false} AccessTracked(w: World, env: Env, tracked: seq<string>, t: AccessTemplate, ref: string)
    ensures var a := EnsureAccess(w, env, tracked, t);
            && (a.ok ==> t.ref in a.tracked)
            && (ref != t.ref ==> (ref in a.tracked <==> ref in tracked))
  {
    hide Called, AfterCreate, CreationOf, BroughtUpToDate, ReadOf, Updates;
    WithoutMembers(tracked, t.ref, ref);
  }

  lemma {:induction false} AllAccessTracked(w: World, env: Env, tracked: seq<string>, templates: seq<AccessTemplate>, ref: string)
    ensures var a := EnsureAllAccess(w, env, tracked, templates);
            && (a.ok && Asks(templates, ref) ==> ref in a.tracked)
            && (!Asks(templates, ref) ==> (ref in a.tracked <==> ref in tracked))
    decreases |templates|
  {
    if templates == [] {
    } else {
      hide EnsureAccess;
      var t := templates[0];
      var a := EnsureAccess(w, env, tracked, t);
      AccessTracked(w, env, tracked, t, ref);
      AccessTracked(w, env, tracked, t, t.ref);
      assert Asks(templates, ref) <==> t.ref == ref || Asks(templates[1..], ref) by { AsksTail(templates, ref); }
      if a.ok {
        AllAccessTracked(a.world, env, a.tracked, templates[1..], ref);
      }
    }
  }

  lemma {:induction false} AsksTail(templates: seq<AccessTemplate>, ref: string)
    requires templates != []
    ensures Asks(templates, ref) <==> templates[0].ref == ref || Asks(templates[1..], ref)
  {
    if Asks(templates[1..], ref) {
      var i :| 0 <= i < |templates[1..]| && templates[1..][i].ref == ref;
      assert templates[i + 1].ref == ref;
    }
    if Asks(templates, ref) && templates[0].ref != ref {
      var i :| 0 <= i < |templates| && templates[i].ref == ref;
      assert templates[1..][i - 1].ref == ref;
    }
  }

  /** After an access reconcile without errors exactly what the strategy asks for is tracked, and what
      was tracked and is no longer asked for is down. */
  lemma {:induction false} TrackedIsWanted(w: World, env: Env, tracked: seq<string>, access: Option<AccessPlan>, ref: string)
    requires EnsureAccessFor(w, env, tracked, access).ok
    ensures var a := EnsureAccessFor(w, env, tracked, access);
            && (ref in a.tracked <==> Wants(access, ref))
            && (ref in tracked && !Wants(access, ref) ==> Down(a.world.objects, Access(ref)))
  {
    hide EnsureAllAccess, EnsureAllAccessGone, Chosen, Asks, Worn, Down, Leaves, Same;
    if access.None? {
      EnsureAllAccessFacts(w, env, tracked, Claim);
    } else {
      var templates := access.value.templates;
      var a := EnsureAllAccess(w, env, tracked, templates);
      AllAccessTracked(w, env, tracked, templates, ref);
      ChosenMembers(a.tracked, templates, true, ref);
      ChosenMembers(a.tracked, templates, false, ref);
      EnsureAllAccessFacts(a.world, env, Chosen(a.tracked, templates, false), Claim);
    }
  }

  /** Available is written only with exactly the strategy's access resources tracked. */
  lemma {:induction false} AvailableIsTracked(s: State, env: Env, want: Want, at: int, ref: string)
    requires RunningPass(s, env, want, at).update == Some(Update.Running)
    ensures ref in RunningPass(s, env, want, at).state.tracked <==> Wants(want.access, ref)
  {
    hide EnsureObjects, AccessPass, Called, Updated, Wants;
    var o := EnsureObjects(World(s.objects, 0), env, want, IsAvailable(s.status));
    AccessPassTracked(s, o.world, env, Observed(want, o.found), at, ref);
  }

  lemma {:induction false} AccessPassTracked(s: State, w: World, env: Env, want: Want, at: int, ref: string)
    ensures var o := AccessPass(s, w, env, want, at);
            o.update == Some(Update.Running) ==> (ref in o.state.tracked <==> Wants(want.access, ref))
  {
    hide EnsureAccessFor, Called, Updated, Wants;
    if EnsureAccessFor(w, env, s.tracked, want.access).ok {
      TrackedIsWanted(w, env, s.tracked, want.access, ref);
    }
  }
}
