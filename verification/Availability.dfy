/** When a workspace is reported as running (internal/controller/state_machine.go,
    state_machine_access.go, resource_manager.go, resource_manager_access.go): exactly which passes write
    it, what then exists in the cluster, which clusters let it happen, and the startup probe behind it. */
module Availability {
  import opened Text
  import opened Conditions
  import opened Lifecycle
  import opened Running
  import opened AccessTracking
  import LifecycleRuns
  import StartupProbe

  // ---------------------------------------------------------------- exactly when it is written

  /** Running is written exactly when the objects met no error, the Deployment was found and is ready, the
      Service is ready, the access reconcile went well, the probe is ready and the write is taken. */
  lemma {:induction false} RunningIff(s: State, env: Env, want: Want, at: int)
    ensures var o := EnsureObjects(World(s.objects, 0), env, want, IsAvailable(s.status));
            var a := EnsureAccessFor(o.world, env, s.tracked, want.access);
            RunningPass(s, env, want, at).update == Some(Update.Running) <==>
              && o.trouble.None? && o.found && want.deploymentReady && want.serviceReady
              && a.ok && want.probe == ProbeReady && !Fails(a.world, env)
  {
    hide EnsureObjects, EnsureAccessFor, Called, Updated;
  }

  /** Giving up, waiting and failing, likewise. */
  lemma {:induction false} OtherwiseIff(s: State, env: Env, want: Want, at: int)
    ensures var o := EnsureObjects(World(s.objects, 0), env, want, IsAvailable(s.status));
            var a := EnsureAccessFor(o.world, env, s.tracked, want.access);
            var ready := o.found && want.deploymentReady && want.serviceReady;
            var p := RunningPass(s, env, want, at);
            && (p.update.Some? && p.update.value.PermanentDegraded? <==>
                  o.trouble.None? && ready && a.ok && want.probe == ProbeGaveUp && !Fails(a.world, env))
            && (p.update.Some? && p.update.value.Starting? <==>
                  && o.trouble.None?
                  && if ready then a.ok && want.probe == ProbeWaits && !Fails(a.world, env) else !Fails(o.world, env))
            && (p.update.Some? && p.update.value.Starting? ==>
                  p.update.value.ready == Parts(o.found && want.deploymentReady, want.serviceReady, false))
            && (p.update.Some? && p.update.value.Error? <==> o.trouble.Some? && !Fails(o.world, env))
            && (p.result == Done <==> p.update == Some(Update.Running) || p.update == Some(GAVE_UP))
            && (p.result == Requeue <==> p.update.Some? && p.update.value.Starting?)
  {
    hide EnsureObjects, EnsureAccessFor, Called, Updated;
  }

  lemma {:induction false} OnlyRunningShows(st: Status, u: Update, at: int)
    requires !IsAvailable(st) && IsAvailable(Updated(st, u, at))
    ensures u.Running?
  {
    hide Find, Updated, Requested, Requests;
    if !Refused(u) && !u.Error? {
      UpdateSetsPhase(st, u, at, AVAILABLE);
      PhaseOfAvailable(u);
    } else if u.Error? {
      AvailableIsPhase();
      ErrorKeepsPhase(st, u.reason, u.message, at, AVAILABLE);
    } else {
      RefusedKeeps(st, u, at);
    }
  }

  lemma {:induction false} RefusedKeeps(st: Status, u: Update, at: int)
    requires Refused(u)
    ensures Updated(st, u, at) == st
  {
  }

  lemma {:induction false} AvailableIsPhase()
    ensures IsPhase(AVAILABLE) && AVAILABLE != DEGRADED
  {
    KindsDiffer();
  }

  lemma {:induction false} PhaseOfAvailable(u: Update)
    ensures AVAILABLE != DEGRADED && (PhaseOf(u) == Some(AVAILABLE) <==> u.Running?)
  {
    KindsDiffer();
  }

  /** A pass turns Available to true only by writing Running, and writing Running always does. */
  lemma {:induction false} TurnsAvailable(s: State, env: Env, want: Want, at: int)
    ensures var o := RunningPass(s, env, want, at);
            && (o.update == Some(Update.Running) ==> IsAvailable(o.state.status))
            && (!IsAvailable(s.status) && IsAvailable(o.state.status) ==> o.update == Some(Update.Running))
  {
    hide RunningPass, Updated, Find, Refused;
    RunningStatus(s, env, want, at);
    var o := RunningPass(s, env, want, at);
    var named := s.status.(deploymentName := want.deploymentName, serviceName := want.serviceName);
    if o.update == Some(Update.Running) {
      AvailableIsPhase();
      PhaseOfAvailable(Update.Running);
      RunningIsTaken();
      UpdateSetsPhase(s.status, Update.Running, at, AVAILABLE);
    } else if o.update.Some? && !IsAvailable(s.status) && IsAvailable(o.state.status) {
      OnlyRunningShows(if o.update.value.Starting? then named else s.status, o.update.value, at);
    }
  }

  lemma {:induction false} RunningIsTaken()
    ensures !Refused(Update.Running)
  {
  }

  // ---------------------------------------------------------------- what the answers decide

  /** One object, from the answers alone: it is ensured exactly when the read goes well and, if it is
      missing, it can be built and the create goes well; if it is there and the workspace available, it
      is up to date or its update goes well and still finds it. It is then there. */
  lemma {:induction false} ExistsByAnswers(w: World, env: Env, name: Name, wanted: Wanted, available: bool)
    ensures var e, there, second := EnsureExists(w, env, name, wanted, available), StillThere(w, env, name), env(w.calls + 1);
            && (e.ok <==>
                  && !env(w.calls).fails
                  && if !there then wanted.builds && !second.fails
                     else available ==>
                       wanted.compare.UpToDate? || (wanted.compare.OutOfDate? && !second.fails && name !in second.gone))
            && (e.ok ==> name in e.world.objects)
            && (e.ok && !there ==> e.world.objects[name] == Alive)
            && (ReadOf(w, env, name).Found? <==> there && !env(w.calls).fails)
  {
  }

  /** An access resource that is created, or taken over where it exists already. */
  lemma {:induction false} CreatedByAnswers(w: World, env: Env, tracked: seq<string>, t: AccessTemplate)
    ensures var a, name, c := CreateAccess(w, env, tracked, t), Access(t.ref), w.calls;
            && (a.ok <==>
                  && t.wanted.builds && !env(c).fails
                  && (StillThere(w, env, name) ==>
                        !env(c + 1).fails && name !in env(c + 1).gone && !env(c + 2).fails && name !in env(c + 2).gone))
            && (a.ok ==> name in a.world.objects && a.tracked == tracked + [t.ref])
            && (!a.ok ==> a.tracked == tracked)
  {
  }

  /** One access resource of the strategy, tracked or not. */
  lemma {:induction false} AccessByAnswers(w: World, env: Env, tracked: seq<string>, t: AccessTemplate)
    ensures var a, name, second := EnsureAccess(w, env, tracked, t), Access(t.ref), env(w.calls + 1);
            && (t.ref !in tracked ==> a == CreateAccess(w, env, tracked, t))
            && (t.ref in tracked ==>
                  (a.ok <==>
                     && !env(w.calls).fails
                     && if !StillThere(w, env, name) then t.wanted.builds && !second.fails
                        else t.wanted.compare.UpToDate? || (t.wanted.compare.OutOfDate? && !second.fails && name !in second.gone)))
            && (a.ok ==> name in a.world.objects && t.ref in a.tracked)
  {
    hide CreateAccess, Without;
    var w1 := Called(w, env);
    CreatedByAnswers(w, env, tracked, t);
    CreatedByAnswers(w1, env, Without(tracked, t.ref), t);
  }

  /** A Deployment that was not there is created only once the claim it mounts is there. */
  lemma {:induction false} ClaimBeforeDeployment(w: World, env: Env, want: Want, available: bool)
    requires want.storage && Leaves(env, Claim) && Deployment !in w.objects
    ensures var o := EnsureObjects(w, env, want, available); Deployment in o.world.objects ==> Claim in o.world.objects
  {
    hide EnsureExists, Leaves;
    var c := EnsureExists(w, env, Claim, want.claim, available);
    var d := EnsureExists(c.world, env, Deployment, want.deployment, available);
    ExistsByAnswers(w, env, Claim, want.claim, available);
    ExistsKeeps(c.world, env, Deployment, want.deployment, available, Claim);
    ExistsKeeps(d.world, env, Service, want.service, available, Claim);
    ExistsMakes(w, env, Claim, want.claim, available, Deployment);
  }

  lemma {:induction false} ExistsMakes(w: World, env: Env, name: Name, wanted: Wanted, available: bool, other: Name)
    requires other != name && other !in w.objects
    ensures other !in EnsureExists(w, env, name, wanted, available).world.objects
  {
  }

  /** The first of claim, Deployment and Service that cannot be ensured is the one reported. */
  lemma {:induction false} TroubleIff(w: World, env: Env, want: Want, available: bool)
    ensures var o := EnsureObjects(w, env, want, available);
            var c := if want.storage then EnsureExists(w, env, Claim, want.claim, available) else Step(w, true);
            var d := EnsureExists(c.world, env, Deployment, want.deployment, available);
            var v := EnsureExists(d.world, env, Service, want.service, available);
            && (o.trouble.None? <==> c.ok && d.ok && v.ok)
            && (o.trouble == Some(Trouble("ComputeError", "failed to ensure PVC exists")) <==> !c.ok)
            && (o.trouble == Some(Trouble("ComputeError", "failed to ensure deployment exists")) <==> c.ok && !d.ok)
            && (o.trouble == Some(Trouble("ServiceError", "failed to ensure service exists")) <==> c.ok && d.ok && !v.ok)
  {
    hide EnsureExists, ReadOf;
    TroublesDiffer();
  }

  lemma {:induction false} TroublesDiffer()
    ensures |CLAIM_TROUBLE.message| != |DEPLOYMENT_TROUBLE.message| && |CLAIM_TROUBLE.message| != |SERVICE_TROUBLE.message|
    ensures |DEPLOYMENT_TROUBLE.message| != |SERVICE_TROUBLE.message|
  {
  }

  // ---------------------------------------------------------------- what exists when Running is written

  lemma {:induction false} GoneKeeps(w: World, env: Env, refs: seq<string>, ref: string)
    requires Leaves(env, Access(ref)) && ref !in refs
    ensures Keeps(w.objects, EnsureAllAccessGone(w, env, refs).world.objects, Access(ref))
    decreases |refs|
  {
    if refs == [] {
    } else {
      hide Leaves, EnsureAccessGone;
      OneGoneKeeps(w, env, refs[0], ref);
      GoneKeeps(EnsureAccessGone(w, env, refs[0]).world, env, refs[1..], ref);
    }
  }

  lemma {:induction false} OneGoneKeeps(w: World, env: Env, other: string, ref: string)
    requires Leaves(env, Access(ref)) && ref != other
    ensures Keeps(w.objects, EnsureAccessGone(w, env, other).world.objects, Access(ref))
  {
    hide Deleted, DeletionOf, Leaves;
    CalledFacts(w, env, Access(ref));
    DeletedFacts(Called(w, env), env, Access(other), Access(ref));
  }

  lemma {:induction false} AllAccessStands(w: World, env: Env, tracked: seq<string>, templates: seq<AccessTemplate>, ref: string)
    requires Leaves(env, Access(ref)) && Asks(templates, ref)
    ensures var a := EnsureAllAccess(w, env, tracked, templates); a.ok ==> Access(ref) in a.world.objects
    decreases |templates|
  {
    hide EnsureAccess, Leaves, Asks;
    AsksSome(templates, ref);
    var t := templates[0];
    var a := EnsureAccess(w, env, tracked, t);
    AccessByAnswers(w, env, tracked, t);
    AsksTail(templates, ref);
    if t.ref == ref {
      AllAccessKeeps(a.world, env, a.tracked, templates[1..], Access(ref));
    } else {
      AllAccessStands(a.world, env, a.tracked, templates[1..], ref);
    }
  }

  lemma {:induction false} AsksSome(templates: seq<AccessTemplate>, ref: string)
    requires Asks(templates, ref)
    ensures templates != []
  {
  }

  lemma {:induction false} AccessForStands(w: World, env: Env, tracked: seq<string>, access: Option<AccessPlan>, ref: string)
    requires Leaves(env, Access(ref)) && Wants(access, ref)
    ensures var a := EnsureAccessFor(w, env, tracked, access); a.ok ==> Access(ref) in a.world.objects
  {
    hide EnsureAllAccess, EnsureAllAccessGone, Chosen, Leaves, Asks;
    var templates := access.value.templates;
    var a := EnsureAllAccess(w, env, tracked, templates);
    AllAccessStands(w, env, tracked, templates, ref);
    ChosenMembers(a.tracked, templates, false, ref);
    GoneKeeps(a.world, env, Chosen(a.tracked, templates, false), ref);
  }

  lemma {:induction false} ObjectsStand(w: World, env: Env, want: Want, available: bool, name: Name)
    requires Leaves(env, name) && (name == Deployment || name == Service || (name == Claim && want.storage))
    ensures var o := EnsureObjects(w, env, want, available); o.trouble.None? ==> name in o.world.objects
  {
    hide EnsureExists, Leaves;
    var c := if want.storage then EnsureExists(w, env, Claim, want.claim, available) else Step(w, true);
    var d := EnsureExists(c.world, env, Deployment, want.deployment, available);
    ExistsByAnswers(w, env, Claim, want.claim, available);
    ExistsByAnswers(c.world, env, Deployment, want.deployment, available);
    ExistsByAnswers(d.world, env, Service, want.service, available);
    ExistsKeeps(c.world, env, Deployment, want.deployment, available, name);
    ExistsKeeps(d.world, env, Service, want.service, available, name);
  }

  /** The objects a running workspace consists of. */
  predicate Belongs(want: Want, name: Name) {
    match name
    case Deployment => true
    case Service => true
    case Claim => want.storage
    case Access(ref) => Wants(want.access, ref)
  }

  /** When Running is written the Deployment was there before the pass; and Deployment, Service, claim and
      every access resource of the strategy exist, unless someone else touches them. */
  lemma {:induction false} RunningStands(s: State, env: Env, want: Want, at: int, name: Name)
    requires RunningPass(s, env, want, at).update == Some(Update.Running) && Leaves(env, name) && Belongs(want, name)
    ensures Deployment in s.objects && name in RunningPass(s, env, want, at).state.objects
  {
    hide EnsureObjects, EnsureAccessFor, Leaves, Wants, Called, Updated;
    var available, w := IsAvailable(s.status), World(s.objects, 0);
    var o := EnsureObjects(w, env, want, available);
    var a := EnsureAccessFor(o.world, env, s.tracked, want.access);
    FoundWasThere(s, env, want, available);
    if name.Access? {
      AccessForStands(o.world, env, s.tracked, want.access, name.ref);
    } else {
      ObjectsStand(w, env, want, available, name);
      AccessForKeeps(o.world, env, s.tracked, want.access, name);
    }
    CallKeeps(a.world, env, name, name);
  }

  // ---------------------------------------------------------------- clusters that let it happen

  /** No call fails and nothing goes; objects may get deletion timestamps. */
  ghost predicate Serving(env: Env) { forall k :: !env(k).fails && env(k).gone == {} }

  lemma {:induction false} ServedCall(w: World, env: Env, name: Name)
    requires Serving(env)
    ensures !Fails(w, env) && Called(w, env).objects.Keys == w.objects.Keys
    ensures StillThere(w, env, name) <==> name in w.objects
  {
  }

  lemma {:induction false} ServedExists(w: World, env: Env, name: Name, wanted: Wanted, available: bool)
    requires Serving(env) && Sound(wanted)
    ensures var e := EnsureExists(w, env, name, wanted, available);
            e.ok && e.world.objects.Keys == w.objects.Keys + {name} && (ReadOf(w, env, name).Found? <==> name in w.objects)
  {
    ExistsByAnswers(w, env, name, wanted, available);
    ServedCall(w, env, name);
    ServedCall(Called(w, env), env, name);
    hide Called, Serving;
  }

  lemma {:induction false} ServedObjects(w: World, env: Env, want: Want, available: bool)
    requires Serving(env) && Buildable(want)
    ensures var o := EnsureObjects(w, env, want, available);
            && o.trouble.None? && (o.found <==> Deployment in w.objects)
            && Deployment in o.world.objects && !Fails(o.world, env)
  {
    hide EnsureExists, Sound, GoodTemplates, ReadOf;
    var c := if want.storage then EnsureExists(w, env, Claim, want.claim, available) else Step(w, true);
    var d := EnsureExists(c.world, env, Deployment, want.deployment, available);
    ServedExists(w, env, Claim, want.claim, available);
    ServedExists(c.world, env, Deployment, want.deployment, available);
    ServedExists(d.world, env, Service, want.service, available);
  }

  lemma {:induction false} ServedAllAccess(w: World, env: Env, tracked: seq<string>, templates: seq<AccessTemplate>)
    requires Serving(env) && GoodTemplates(templates)
    ensures EnsureAllAccess(w, env, tracked, templates).ok
    decreases |templates|
  {
    if templates == [] {
    } else {
      hide EnsureAccess, CreateAccess;
      AccessByAnswers(w, env, tracked, templates[0]);
      CreatedByAnswers(w, env, tracked, templates[0]);
      var a := EnsureAccess(w, env, tracked, templates[0]);
      ServedAllAccess(a.world, env, a.tracked, templates[1..]);
    }
  }

  lemma {:induction false} ServedAccessFor(w: World, env: Env, tracked: seq<string>, access: Option<AccessPlan>)
    requires Serving(env) && (access.Some? ==> GoodTemplates(access.value.templates))
    ensures var a := EnsureAccessFor(w, env, tracked, access);
            (a.ok <==> access.None? || access.value.urlResolves) && !Fails(a.world, env)
  {
    hide EnsureAllAccess, EnsureAllAccessGone, Chosen, GoodTemplates;
    OrderlyAccess(map[], w, env, tracked);
    if access.Some? {
      var a := EnsureAllAccess(w, env, tracked, access.value.templates);
      ServedAllAccess(w, env, tracked, access.value.templates);
      OrderlyAccess(map[], a.world, env, Chosen(a.tracked, access.value.templates, false));
    }
  }

  /** What a pass is waiting for, apart from the cluster's answers. */
  predicate Poised(want: Want) {
    && Buildable(want) && want.deploymentReady && want.serviceReady && want.probe == ProbeReady
    && (want.access.Some? ==> want.access.value.urlResolves)
  }

  /** In a cluster that serves every call, a pass that has all it waits for writes Running exactly when
      the Deployment is there already, and else creates it. */
  lemma {:induction false} ServedRuns(s: State, env: Env, want: Want, at: int)
    requires Serving(env) && Poised(want)
    ensures var o := RunningPass(s, env, want, at);
            && (o.update == Some(Update.Running) <==> Deployment in s.objects)
            && (Deployment !in s.objects ==>
                  o.result == Requeue && o.update == Some(Starting(Parts(false, true, false))) && Deployment in o.state.objects)
  {
    hide EnsureObjects, EnsureAccessFor, Serving, Buildable, Called, Updated;
    var w, available := World(s.objects, 0), IsAvailable(s.status);
    var o := EnsureObjects(w, env, want, available);
    ServedObjects(w, env, want, available);
    GoodAccess(want);
    ServedAccessFor(o.world, env, s.tracked, want.access);
    ServedCall(o.world, env, Deployment);
  }

  lemma {:induction false} GoodAccess(want: Want)
    requires Buildable(want)
    ensures want.access.Some? ==> GoodTemplates(want.access.value.templates)
  {
  }

  /** From any state two served passes that have all they wait for report the workspace as running, if
      the Deployment does not go between them. */
  lemma {:induction false} RunsInTwo(s: State, env: Env, between: Answer, env': Env, want: Want, at: int, want': Want, at': int)
    requires Serving(env) && Serving(env') && Poised(want) && Poised(want') && Deployment !in s.objects
    requires Deployment !in between.gone
    ensures var o := RunningPass(Unsettled(RunningPass(s, env, want, at).state, between), env', want', at');
            o.result == Done && o.update == Some(Update.Running) && IsAvailable(o.state.status)
  {
    hide RunningPass, Serving, Poised, IsAvailable;
    var s1 := Unsettled(RunningPass(s, env, want, at).state, between);
    ServedRuns(s, env, want, at);
    ServedRuns(s1, env', want', at');
    TurnsAvailable(s1, env', want', at');
    RunningIsDone(s1, env', want', at');
  }

  lemma {:induction false} RunningIsDone(s: State, env: Env, want: Want, at: int)
    ensures var o := RunningPass(s, env, want, at); o.update == Some(Update.Running) ==> o.result == Done
  {
    hide EnsureObjects, EnsureAccessFor, Called, Updated;
  }

  // ---------------------------------------------------------------- over whole runs

  lemma {:induction false} StopNeverRuns(s: State, env: Env, preempted: bool, at: int)
    ensures var o := StopPass(s, env, preempted, at); o.update.Some? ==> !o.update.value.Running?
  {
    hide EnsureDeleted, EnsureAllAccessGone, Called, Updated;
  }

  /** Of all steps only a pass that writes Running turns Available to true. */
  lemma {:induction false} AvailableStep(s: State, e: LifecycleRuns.Event)
    requires !IsAvailable(s.status) && IsAvailable(LifecycleRuns.Next(s, e).status)
    ensures e.Start? && RunningPass(s, e.env, e.want, e.at).update == Some(Update.Running)
  {
    hide StopPass, DeletionPass, RunningPass, Updated, IsAvailable;
    match e
    case AddFinalizer =>
    case RequestDeletion =>
    case Disturb(_) =>
    case Start(env, want, at) => TurnsAvailable(s, env, want, at);
    case Delete(env, at) =>
      LifecycleRuns.DeletionStatus(s, env, at);
      OnlyRunningShows(s.status, IsDeleting, at);
    case Stop(env, preempted, at) =>
      LifecycleRuns.StopStatus(s, env, preempted, at);
      StopNeverRuns(s, env, preempted, at);
      OnlyRunningShows(s.status, StopPass(s, env, preempted, at).update.value, at);
  }

  /** In every run, at every step that turns Available to true: the pass had a ready probe and ready
      objects, the Deployment was there before it, exactly the strategy's access resources are tracked,
      and what nobody else touched exists. */
  lemma {:induction false} RunsAvailableTruly(s: State, events: seq<LifecycleRuns.Event>, k: nat, name: Name)
    requires LifecycleRuns.Run(s, events) && k < |events|
    requires !IsAvailable(LifecycleRuns.End(s, events[..k]).status) && IsAvailable(LifecycleRuns.End(s, events[..k + 1]).status)
    ensures var before, e, after := LifecycleRuns.End(s, events[..k]), events[k], LifecycleRuns.End(s, events[..k + 1]);
            && e.Start? && e.want.probe == ProbeReady && e.want.deploymentReady && e.want.serviceReady
            && Deployment in before.objects
            && (Leaves(e.env, name) && Belongs(e.want, name) ==> name in after.objects)
            && (name.Access? ==> (name.ref in after.tracked <==> Wants(e.want.access, name.ref)))
  {
    hide LifecycleRuns.Run, LifecycleRuns.End, LifecycleRuns.Enabled, RunningPass, IsAvailable, Leaves, Belongs, Wants,
      EnsureObjects, EnsureAccessFor;
    var before, e := LifecycleRuns.End(s, events[..k]), events[k];
    LifecycleRuns.RunAt(s, events, k);
    AvailableStep(before, e);
    RunningIff(before, e.env, e.want, e.at);
    FoundWasThere(before, e.env, e.want, IsAvailable(before.status));
    if Leaves(e.env, name) && Belongs(e.want, name) {
      RunningStands(before, e.env, e.want, e.at, name);
    }
    if name.Access? {
      AvailableIsTracked(before, e.env, e.want, e.at, name.ref);
    }
  }

  // ---------------------------------------------------------------- the probe behind it

  /** How a pass reads the outcome of a probe cycle. */
  function ProbeOf(verdict: Option<StartupProbe.Verdict>): Probe {
    if verdict.None? then ProbeFailed
    else
      match verdict.value
      case NotDefined => ProbeReady
      case Succeeded => ProbeReady
      case AlreadySucceeded => ProbeReady
      case ThresholdExceeded => ProbeGaveUp
      case Retrying(_) => ProbeWaits
      case PendingRetry(_) => ProbeWaits
  }

  /** The pass probes under `r.strategy`, in a workspace whose runs so far are `events`. */
  ghost predicate ProbedBy(want: Want, events: seq<StartupProbe.Event>, r: StartupProbe.Event) {
    && r.Run? && r.resourcesReady && r.stored
    && want.probe == ProbeOf(StartupProbe.Probe(StartupProbe.StatusAfter(events), Some(r.strategy), r.now, r.answer).verdict)
  }

  /** Under a strategy that defines a probe, Running is written only after a probe of that version has
      succeeded and no stop has been written since. */
  lemma {:induction false} RunningAfterProbe(s: State, env: Env, want: Want, at: int, probes: map<string, StartupProbe.ProbeSpec>,
                                             events: seq<StartupProbe.Event>, r: StartupProbe.Event)
    requires RunningPass(s, env, want, at).update == Some(Update.Running)
    requires ProbedBy(want, events, r) && StartupProbe.EventsOk(probes, events) && StartupProbe.EventOk(probes, r)
    requires r.strategy.version in probes
    ensures exists j :: StartupProbe.SucceededAt(events + [r], r.strategy.version, j)
  {
    hide RunningPass, StartupProbe.Probe, StartupProbe.SucceededAt, StartupProbe.StatusAfter, StartupProbe.EventsOk,
      StartupProbe.EventOk, EnsureObjects, EnsureAccessFor;
    RunningIff(s, env, want, at);
    StartupProbe.AvailableAfterSuccess(probes, events, r);
  }

  /** The permanent degradation is written only when the failed probes have used up the threshold. */
  lemma {:induction false} GivesUpAfterProbe(s: State, env: Env, want: Want, at: int, probes: map<string, StartupProbe.ProbeSpec>,
                                             events: seq<StartupProbe.Event>, r: StartupProbe.Event)
    requires RunningPass(s, env, want, at).update == Some(GAVE_UP)
    requires ProbedBy(want, events, r) && StartupProbe.EventsOk(probes, events) && StartupProbe.EventOk(probes, r)
    requires r.strategy.version in probes
    ensures StartupProbe.FailedSince(events + [r]) >= StartupProbe.Threshold(probes[r.strategy.version])
  {
    hide RunningPass, StartupProbe.Probe, StartupProbe.SucceededAt, StartupProbe.StatusAfter, StartupProbe.EventsOk,
      StartupProbe.EventOk, StartupProbe.FailedSince, EnsureObjects, EnsureAccessFor;
    OtherwiseIff(s, env, want, at);
    StartupProbe.GivesUpIff(probes, events, r);
  }
}
