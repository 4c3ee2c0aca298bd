/** Whole lives of a workspace: any sequence of passes towards Running, towards Stopped and towards
    deletion, with failing calls and lost objects throughout (internal/controller/workspace_controller.go,
    state_machine.go). */
module LifecycleRuns {
  import opened Text
  import opened Conditions
  import opened Lifecycle
  import opened Running
  import opened AccessTracking

  datatype Event =
    | AddFinalizer
    | Start(env: Env, want: Want, at: int)
    | Stop(env: Env, preempted: bool, at: int)
    | RequestDeletion
    | Delete(env: Env, at: int)
    | Disturb(answer: Answer)

  /** The finalizer is added first, and a workspace with a deletion timestamp is only ever deleted. */
  predicate Enabled(s: State, e: Event) {
    match e
    case AddFinalizer => !s.deleting
    case Start(_, _, _) => !s.deleting && s.finalizer
    case Stop(_, _, _) => !s.deleting && s.finalizer
    case RequestDeletion => true
    case Delete(_, _) => s.deleting
    case Disturb(_) => true
  }

  ghost function Next(s: State, e: Event): State {
    match e
    case AddFinalizer => s.(finalizer := true)
    case Start(env, want, at) => RunningPass(s, env, want, at).state
    case Stop(env, preempted, at) => StopPass(s, env, preempted, at).state
    case RequestDeletion => s.(deleting := true)
    case Delete(env, at) => DeletionPass(s, env, at).state
    case Disturb(answer) => Unsettled(s, answer)
  }

  ghost predicate Run(s: State, events: seq<Event>)
    decreases |events|
  {
    events == [] || (Enabled(s, events[0]) && Run(Next(s, events[0]), events[1..]))
  }

  ghost function End(s: State, events: seq<Event>): State
    decreases |events|
  {
    if events == [] then s else End(Next(s, events[0]), events[1..])
  }

  /** The state before step `k`, in which that step is enabled, and the state after it. */
  lemma {:induction false} RunAt(s: State, events: seq<Event>, k: nat)
    requires Run(s, events) && k < |events|
    ensures Enabled(End(s, events[..k]), events[k])
    ensures End(s, events[..k + 1]) == Next(End(s, events[..k]), events[k])
    decreases k
  {
    hide Enabled, Next;
    if k == 0 {
      assert events[..1][1..] == [];
    } else {
      RunAt(Next(s, events[0]), events[1..], k - 1);
      assert events[..k][1..] == events[1..][..k - 1] && events[..k + 1][1..] == events[1..][..k];
    }
  }

  // ---------------------------------------------------------------- nothing is left behind

  const NEW := State(map[], [], Status([], "", ""), false, false)

  /** Without the finalizer, which lets the workspace itself disappear, nothing of it is left behind. */
  ghost predicate NothingBehind(s: State) {
    !s.finalizer ==> NoneLeft(s.objects) && AccessDown(s.objects, s.tracked)
  }

  lemma {:induction false} NextLeavesNothing(s: State, e: Event)
    requires Enabled(s, e) && NothingBehind(s)
    ensures NothingBehind(Next(s, e))
  {
    hide StopPass, DeletionPass, RunningPass, Worn, AccessDown, Down, ShowsStopped;
    match e
    case AddFinalizer =>
    case Start(env, want, at) => RunningNeverStops(s, env, want, at);
    case Stop(env, preempted, at) => StopIsSafe(s, env, preempted, at);
    case RequestDeletion =>
    case Delete(env, at) =>
      DeletionIsSafe(s, env, at);
      if !s.finalizer {
        WornNothing(s, DeletionPass(s, env, at).state);
      }
    case Disturb(answer) =>
      DisturbedWorn(s.objects, answer);
      if !s.finalizer {
        WornNothing(s, Unsettled(s, answer));
      }
  }

  lemma {:induction false} WornNothing(s: State, s': State)
    requires Worn(s.objects, s'.objects) && NothingBehind(s) && !s.finalizer && s'.tracked == s.tracked
    ensures NothingBehind(s')
  {
    WornAccess(s.objects, s'.objects, s.tracked);
  }

  /** In every run of starts, stops, deletions, failures and disturbances. */
  lemma {:induction false} RunsLeaveNothing(s: State, events: seq<Event>)
    requires Run(s, events) && NothingBehind(s)
    ensures NothingBehind(End(s, events))
    decreases |events|
  {
    if events == [] {
    } else {
      hide Enabled, NothingBehind, Next;
      NextLeavesNothing(s, events[0]);
      RunsLeaveNothing(Next(s, events[0]), events[1..]);
    }
  }

  lemma {:induction false} NewLeavesNothing(events: seq<Event>)
    requires Run(NEW, events)
    ensures NothingBehind(End(NEW, events))
  {
    RunsLeaveNothing(NEW, events);
  }

  // ---------------------------------------------------------------- no access resource is forgotten

  lemma {:induction false} WornTracked(s: State, s': State)
    requires AllTracked(s) && Worn(s.objects, s'.objects)
    requires s'.tracked == s.tracked || AccessDown(s'.objects, s.tracked)
    ensures AllTracked(s')
  {
    forall ref: string
      ensures IsAlive(s'.objects, Access(ref)) ==> ref in s'.tracked
    {
      WornRaises(s.objects, s'.objects, Access(ref));
      assert AccessDown(s'.objects, s.tracked) && ref in s.tracked ==> Down(s'.objects, Access(ref));
    }
  }

  /** A pass towards Running that asks for no access resource that is not tracked, or writes its status. */
  ghost predicate TrackingStart(s: State, e: Event) {
    e.Start? ==> NothingNew(s, e.want) || RunningPass(s, e.env, e.want, e.at).update.Some?
  }

  ghost predicate TrackingStarts(s: State, events: seq<Event>)
    decreases |events|
  {
    events == [] || (TrackingStart(s, events[0]) && TrackingStarts(Next(s, events[0]), events[1..]))
  }

  lemma {:induction false} NextTracks(s: State, e: Event)
    requires AllTracked(s) && TrackingStart(s, e)
    ensures AllTracked(Next(s, e))
  {
    hide StopPass, DeletionPass, RunningPass, Worn, AccessDown, AllTracked, NothingNew;
    match e
    case AddFinalizer =>
      WornSelf(s.objects);
      WornTracked(s, Next(s, e));
    case RequestDeletion =>
      WornSelf(s.objects);
      WornTracked(s, Next(s, e));
    case Start(env, want, at) =>
      if NothingNew(s, want) {
        NothingNewTracks(s, env, want, at);
      } else {
        StoredStartTracks(s, env, want, at);
      }
    case Stop(env, preempted, at) =>
      StopIsSafe(s, env, preempted, at);
      StopTracked(s, env, preempted, at);
      WornTracked(s, Next(s, e));
    case Delete(env, at) =>
      DeletionIsSafe(s, env, at);
      WornTracked(s, Next(s, e));
    case Disturb(answer) =>
      DisturbedWorn(s.objects, answer);
      WornTracked(s, Next(s, e));
  }

  lemma {:induction false} NothingAlive(s: State)
    requires AllTracked(s) && NothingBehind(s)
    ensures !s.finalizer ==> forall name :: name in s.objects ==> !IsAlive(s.objects, name)
  {
    forall name | name in s.objects && !s.finalizer
      ensures !IsAlive(s.objects, name)
    {
      assert name.Access? && name.ref in s.tracked ==> Down(s.objects, name);
    }
  }

  /** In every run whose passes towards Running ask for nothing new or write their status, every access
      resource that is alive is tracked; so a workspace without its finalizer leaves none of its objects
      alive. */
  lemma {:induction false} RunsForgetNothing(s: State, events: seq<Event>)
    requires Run(s, events) && TrackingStarts(s, events) && AllTracked(s) && NothingBehind(s)
    ensures AllTracked(End(s, events))
    ensures !End(s, events).finalizer ==> forall name :: name in End(s, events).objects ==> !IsAlive(End(s, events).objects, name)
    decreases |events|
  {
    if events == [] {
      NothingAlive(s);
    } else {
      hide Enabled, NothingBehind, Next, AllTracked, TrackingStart, IsAlive;
      NextTracks(s, events[0]);
      NextLeavesNothing(s, events[0]);
      RunsForgetNothing(Next(s, events[0]), events[1..]);
    }
  }

  lemma {:induction false} NewForgetsNothing(events: seq<Event>)
    requires Run(NEW, events) && TrackingStarts(NEW, events)
    ensures AllTracked(End(NEW, events))
    ensures !End(NEW, events).finalizer ==> forall name :: name in End(NEW, events).objects ==> !IsAlive(End(NEW, events).objects, name)
  {
    RunsForgetNothing(NEW, events);
  }

  // ---------------------------------------------------------------- the claim

  /** Nobody but the controller touches the claim, and the workspace is not deleted. */
  ghost predicate SparesClaim(e: Event) {
    match e
    case Start(env, _, _) => Leaves(env, Claim)
    case Stop(env, _, _) => Leaves(env, Claim)
    case Delete(_, _) => false
    case Disturb(answer) => Claim !in answer.gone && Claim !in answer.marked
    case _ => true
  }

  /** Stops and starts never delete the claim, once it is there. */
  lemma {:induction false} RunsKeepClaim(s: State, events: seq<Event>)
    requires Run(s, events) && Claim in s.objects
    requires forall i :: 0 <= i < |events| ==> SparesClaim(events[i])
    ensures Same(s.objects, End(s, events).objects, Claim)
    decreases |events|
  {
    if events == [] {
    } else {
      hide StopPass, DeletionPass, RunningPass, Leaves;
      var e := events[0];
      assert SparesClaim(e);
      if e.Stop? {
        StopKeepsClaim(s, e.env, e.preempted, e.at);
      } else if e.Start? {
        RunningKeeps(s, e.env, e.want, e.at, Claim);
      }
      RunsKeepClaim(Next(s, e), events[1..]);
    }
  }

  // ---------------------------------------------------------------- Stopped is shown only when it is so

  predicate StoppedFor(s: State) { Down(s.objects, Deployment) && Down(s.objects, Service) && s.tracked == [] }

  lemma {:induction false} StopStatus(s: State, env: Env, preempted: bool, at: int)
    ensures var o := StopPass(s, env, preempted, at);
            && (o.update.None? ==> o.state.status == s.status)
            && (o.update.Some? ==> o.state.status == Updated(s.status, o.update.value, at))
            && (o.update.Some? && o.update.value.HasStopped? ==> o.update.value.preempted == preempted)
  {
    hide EnsureDeleted, EnsureAllAccessGone, Called, Updated;
  }

  lemma {:induction false} DeletionStatus(s: State, env: Env, at: int)
    ensures var st := DeletionPass(s, env, at).state.status; st == s.status || st == Updated(s.status, IsDeleting, at)
  {
    hide CleanupAllResources, Called, Updated;
  }

  /** Of all steps only a stop pass turns Stopped to true, and then it is true: Deployment and Service are
      missing or terminating, nothing is tracked, and nothing that was tracked is alive. */
  lemma {:induction false} StopStep(s: State, e: Event)
    requires !ShowsStopped(s.status) && ShowsStopped(Next(s, e).status)
    ensures e.Stop? && StoppedFor(Next(s, e)) && AccessDown(Next(s, e).objects, s.tracked)
  {
    hide StopPass, DeletionPass, RunningPass, Updated, ShowsStopped, Worn, Down, AccessDown, Refused;
    match e
    case AddFinalizer =>
    case RequestDeletion =>
    case Disturb(_) =>
    case Start(env, want, at) => RunningNeverStops(s, env, want, at);
    case Delete(env, at) =>
      DeletionStatus(s, env, at);
      OnlyStopShows(s.status, IsDeleting, at);
    case Stop(env, preempted, at) =>
      StopStatus(s, env, preempted, at);
      var o := StopPass(s, env, preempted, at);
      OnlyStopShows(s.status, o.update.value, at);
      StopIsSafe(s, env, preempted, at);
  }

  /** In every run, at every step. */
  lemma {:induction false} RunsStopTruly(s: State, events: seq<Event>, k: nat)
    requires Run(s, events) && k < |events|
    requires !ShowsStopped(End(s, events[..k]).status) && ShowsStopped(End(s, events[..k + 1]).status)
    ensures var before, after := End(s, events[..k]), End(s, events[..k + 1]);
            events[k].Stop? && StoppedFor(after) && AccessDown(after.objects, before.tracked)
  {
    hide Run, End, Next, Enabled, ShowsStopped, StoppedFor, AccessDown;
    RunAt(s, events, k);
    StopStep(End(s, events[..k]), events[k]);
  }

  /** What has been stopped stays down until the next pass towards Running. */
  lemma {:induction false} DownStep(s: State, e: Event)
    requires StoppedFor(s) && !e.Start?
    ensures StoppedFor(Next(s, e))
  {
    hide StopPass, DeletionPass, Worn, AccessDown, Down, ShowsStopped;
    WornSelf(s.objects);
    match e {
      case AddFinalizer =>
      case RequestDeletion =>
      case Disturb(answer) => DisturbedWorn(s.objects, answer);
      case Delete(env, at) => DeletionIsSafe(s, env, at);
      case Stop(env, preempted, at) =>
        StopIsSafe(s, env, preempted, at);
        StopEnds(s, env, preempted, at);
    }
    WornDown(s.objects, Next(s, e).objects, Deployment);
    WornDown(s.objects, Next(s, e).objects, Service);
  }

  ghost predicate ShownTruly(s: State) { ShowsStopped(s.status) ==> StoppedFor(s) }

  /** Every update of a pass towards Running but an error report takes Stopped back. */
  lemma {:induction false} StartTakesBack(st: Status, u: Update, at: int)
    requires !u.Error? && !u.HasStopped? && !Refused(u)
    ensures !ShowsStopped(Updated(st, u, at))
  {
    hide Updated, Requested, Find, Requests, Refused;
    RequestedShape(u, at);
    assert Requests(Requested(u, at), STOPPED);
    UpdateShows(st, u, at, STOPPED);
    var c :| c in Requested(u, at) && c.kind == STOPPED && SaysAlready(Updated(st, u, at).conditions, c);
    StoppedAsked(u, at, c);
  }

  /** A pass towards Running that stores a status other than an error report. */
  ghost predicate TellingStart(s: State, e: Event) {
    e.Start? && ShowsStopped(s.status) ==>
      var u := RunningPass(s, e.env, e.want, e.at).update; u.Some? && !u.value.Error?
  }

  lemma {:induction false} TellingStep(s: State, e: Event)
    requires e.Start? && TellingStart(s, e)
    ensures !ShowsStopped(Next(s, e).status)
  {
    hide RunningPass, Updated, ShowsStopped, Refused;
    RunningNeverStops(s, e.env, e.want, e.at);
    RunningStatus(s, e.env, e.want, e.at);
    RunningNotRefused(s, e.env, e.want, e.at);
    var o := RunningPass(s, e.env, e.want, e.at);
    if ShowsStopped(s.status) {
      var named := s.status.(deploymentName := e.want.deploymentName, serviceName := e.want.serviceName);
      StartTakesBack(if o.update.value.Starting? then named else s.status, o.update.value, e.at);
    }
  }

  lemma {:induction false} RunningNotRefused(s: State, env: Env, want: Want, at: int)
    ensures var o := RunningPass(s, env, want, at); o.update.Some? ==> !Refused(o.update.value)
  {
    hide EnsureObjects, EnsureAccessFor, Called, Updated;
  }

  ghost predicate TellingStarts(s: State, events: seq<Event>)
    decreases |events|
  {
    events == [] || (TellingStart(s, events[0]) && TellingStarts(Next(s, events[0]), events[1..]))
  }

  /** In every run whose passes towards Running tell of themselves, a workspace that shows Stopped is
      stopped; and what has been stopped stays down until such a pass. */
  lemma {:induction false} StaysStopped(s: State, events: seq<Event>)
    requires ShownTruly(s) && TellingStarts(s, events)
    ensures ShownTruly(End(s, events))
    ensures StoppedFor(s) && (forall i :: 0 <= i < |events| ==> !events[i].Start?) ==> StoppedFor(End(s, events))
    decreases |events|
  {
    if events == [] {
    } else {
      hide Next, ShowsStopped, StoppedFor, TellingStart;
      var e := events[0];
      if e.Start? {
        TellingStep(s, e);
      } else if StoppedFor(s) {
        DownStep(s, e);
      } else if ShowsStopped(Next(s, e).status) {
        StopStep(s, e);
      }
      StaysStopped(Next(s, e), events[1..]);
    }
  }

  // ---------------------------------------------------------------- exactly which starts can leave Stopped behind

  /** The Deployment is created and nothing is heard of the cluster after that. */
  lemma {:induction false} CreatedAndCut(w: World, want: Want, available: bool, last: nat, c: World)
    requires Sound(want.deployment)
    requires var env := CutAfter(last, Deployment);
             && last == c.calls + 1 && (c.calls == 0 || Deployment !in c.objects)
             && (if want.storage then EnsureExists(w, env, Claim, want.claim, available) == Step(c, true) else c == w)
    ensures var env := CutAfter(last, Deployment); var o := EnsureObjects(w, env, want, available);
            o.trouble.Some? && IsAlive(o.world.objects, Deployment) && Silent(o.world, env)
  {
    var env := CutAfter(last, Deployment);
    assert !Fails(c, env) && Deployment !in Called(c, env).objects;
    var c1 := Called(c, env);
    assert c1.calls == last && env(last) == Answer(false, {}, {});
    assert Called(c1, env).objects == c1.objects;
    var d := EnsureExists(c, env, Deployment, want.deployment, available);
    assert d == Step(AfterCreate(c1, env, Deployment), true);
    assert d.world.calls == last + 1 && IsAlive(d.world.objects, Deployment) && Silent(d.world, env);
    SilentCall(d.world, env);
    assert EnsureExists(d.world, env, Service, want.service, available) == Step(Called(d.world, env), false);
  }

  /** A cluster in which a pass leaves Stopped shown over a live Deployment. */
  lemma {:induction false} CanMislead(s: State, want: Want, at: int) returns (env: Env)
    requires ShowsStopped(s.status) && Buildable(want)
    ensures !ShownTruly(RunningPass(s, env, want, at).state)
  {
    hide EnsureExists, EnsureObjects, Agree, ShowsStopped, IsAlive, Silent, CutAfter, Dropping, Called, GoodTemplates;
    var available, w, calm := IsAvailable(s.status), World(s.objects, 0), Dropping(Deployment);
    var c := if want.storage then EnsureExists(w, calm, Claim, want.claim, available).world else w;
    env := CutAfter(c.calls + 1, Deployment);
    CutAgrees(c.calls + 1, Deployment);
    if want.storage {
      CalmExists(w, Deployment, Claim, want.claim, available);
      LocalExists(w, calm, env, Claim, want.claim, available, c.calls + 2);
    }
    CreatedAndCut(w, want, available, c.calls + 1, c);
    var o := EnsureObjects(w, env, want, available);
    SilentCall(o.world, env);
    AliveIsUp(o.world.objects);
    assert RunningPass(s, env, want, at).state == s.(objects := o.world.objects);
  }

  lemma {:induction false} AliveIsUp(objects: Objects)
    requires IsAlive(objects, Deployment)
    ensures !Down(objects, Deployment)
  {
  }

  /** Whatever the cluster does, a pass whose objects can be built leaves the status true to the objects
      exactly when Stopped was not shown before it. */
  lemma {:induction false} NeverMisleadsIff(s: State, want: Want, at: int)
    requires ShownTruly(s) && Buildable(want)
    ensures (forall env: Env :: ShownTruly(RunningPass(s, env, want, at).state)) <==> !ShowsStopped(s.status)
  {
    hide RunningPass, ShowsStopped, StoppedFor, Buildable;
    if ShowsStopped(s.status) {
      var env := CanMislead(s, want, at);
    } else {
      forall env: Env
        ensures ShownTruly(RunningPass(s, env, want, at).state)
      {
        RunningNeverStops(s, env, want, at);
      }
    }
  }

  /** An instance: a workspace that has been stopped and is started again. */
  lemma {:induction false} RestartMisleads(at: int)
    ensures exists s: State, env: Env, want: Want :: ShowsStopped(s.status) && StoppedFor(s) && !ShownTruly(RunningPass(s, env, want, at).state)
  {
    var plain := Wanted(true, UpToDate);
    var want := Want(true, plain, plain, plain, true, true, None, ProbeReady, "", "");
    var s := State(map[], [], Updated(Status([], "", ""), HasStopped(false), 0), true, false);
    HasStoppedShows(Status([], "", ""), false, 0);
    assert StoppedFor(s) && Buildable(want);
    hide *;
    var env := CanMislead(s, want, at);
  }
}
