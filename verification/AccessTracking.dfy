/** Which access resources a pass towards Running can lose track of
    (internal/controller/state_machine.go, resource_manager_access.go): a resource is created in the cluster
    before the status that names it is written. */
module AccessTracking {
  import opened Text
  import opened Conditions
  import opened Lifecycle
  import opened Running

  predicate IsAlive(objects: Objects, name: Name) { name in objects && objects[name].Alive? }

  /** Every access resource that is alive is tracked. */
  ghost predicate AllTracked(s: State) { forall ref :: IsAlive(s.objects, Access(ref)) ==> ref in s.tracked }

  lemma {:induction false} CallRaisesNothing(w: World, env: Env, name: Name, other: Name)
    ensures IsAlive(Called(w, env).objects, other) ==> IsAlive(w.objects, other)
    ensures IsAlive(AfterCreate(w, env, name).objects, other) ==> IsAlive(w.objects, other) || other == name
  {
  }

  lemma {:induction false} ExistsRaises(w: World, env: Env, name: Name, wanted: Wanted, available: bool, other: Name)
    ensures IsAlive(EnsureExists(w, env, name, wanted, available).world.objects, other) ==> IsAlive(w.objects, other) || other == name
  {
    hide Called, AfterCreate, IsAlive, Updates, ReadOf, CreationOf;
    var w1 := Called(w, env);
    CallRaisesNothing(w, env, name, other);
    CallRaisesNothing(w1, env, name, other);
  }

  lemma {:induction false} ObjectsRaise(w: World, env: Env, want: Want, available: bool, ref: string)
    ensures IsAlive(EnsureObjects(w, env, want, available).world.objects, Access(ref)) ==> IsAlive(w.objects, Access(ref))
  {
    hide EnsureExists, IsAlive;
    var c := if want.storage then EnsureExists(w, env, Claim, want.claim, available) else Step(w, true);
    var d := EnsureExists(c.world, env, Deployment, want.deployment, available);
    ExistsRaises(w, env, Claim, want.claim, available, Access(ref));
    ExistsRaises(c.world, env, Deployment, want.deployment, available, Access(ref));
    ExistsRaises(d.world, env, Service, want.service, available, Access(ref));
  }

  lemma {:induction false} CreateAccessRaises(w: World, env: Env, tracked: seq<string>, t: AccessTemplate, ref: string)
    ensures IsAlive(CreateAccess(w, env, tracked, t).world.objects, Access(ref)) ==> IsAlive(w.objects, Access(ref)) || ref == t.ref
  {
    hide Called, AfterCreate, IsAlive, Updates, ReadOf, CreationOf;
    var name := Access(t.ref);
    var w1 := AfterCreate(w, env, name);
    CallRaisesNothing(w, env, name, Access(ref));
    CallRaisesNothing(w1, env, name, Access(ref));
    CallRaisesNothing(Called(w1, env), env, name, Access(ref));
  }

  lemma {:induction false} AccessRaises(w: World, env: Env, tracked: seq<string>, t: AccessTemplate, ref: string)
    ensures IsAlive(EnsureAccess(w, env, tracked, t).world.objects, Access(ref)) ==> IsAlive(w.objects, Access(ref)) || ref == t.ref
  {
    hide Called, CreateAccess, IsAlive, Updates, ReadOf, Without;
    var w1 := Called(w, env);
    CallRaisesNothing(w, env, Access(t.ref), Access(ref));
    CallRaisesNothing(w1, env, Access(t.ref), Access(ref));
    CreateAccessRaises(w, env, tracked, t, ref);
    CreateAccessRaises(w1, env, Without(tracked, t.ref), t, ref);
  }

  lemma {:induction false} AllAccessRaises(w: World, env: Env, tracked: seq<string>, templates: seq<AccessTemplate>, ref: string)
    ensures IsAlive(EnsureAllAccess(w, env, tracked, templates).world.objects, Access(ref)) ==>
              IsAlive(w.objects, Access(ref)) || Asks(templates, ref)
    decreases |templates|
  {
    if templates == [] {
    } else {
      hide EnsureAccess, IsAlive, Asks;
      var a := EnsureAccess(w, env, tracked, templates[0]);
      AccessRaises(w, env, tracked, templates[0], ref);
      AsksTail(templates, ref);
      if a.ok {
        AllAccessRaises(a.world, env, a.tracked, templates[1..], ref);
      }
    }
  }

  lemma {:induction false} WornRaises(a: Objects, b: Objects, name: Name)
    requires Worn(a, b)
    ensures IsAlive(b, name) ==> IsAlive(a, name)
  {
  }

  lemma {:induction false} AccessForRaises(w: World, env: Env, tracked: seq<string>, access: Option<AccessPlan>, ref: string)
    ensures IsAlive(EnsureAccessFor(w, env, tracked, access).world.objects, Access(ref)) ==>
              IsAlive(w.objects, Access(ref)) || Wants(access, ref)
  {
    hide EnsureAllAccess, EnsureAllAccessGone, Chosen, Asks, Worn, AccessDown, Leaves, Same, IsAlive;
    if access.None? {
      EnsureAllAccessFacts(w, env, tracked, Claim);
      WornRaises(w.objects, EnsureAllAccessGone(w, env, tracked).world.objects, Access(ref));
    } else {
      var templates := access.value.templates;
      var a := EnsureAllAccess(w, env, tracked, templates);
      var stale := Chosen(a.tracked, templates, false);
      AllAccessRaises(w, env, tracked, templates, ref);
      EnsureAllAccessFacts(a.world, env, stale, Claim);
      WornRaises(a.world.objects, EnsureAllAccessGone(a.world, env, stale).world.objects, Access(ref));
    }
  }

  /** What is alive after an access reconcile without errors is tracked after it. */
  lemma {:induction false} AccessForTracks(w: World, env: Env, tracked: seq<string>, access: Option<AccessPlan>, ref: string)
    requires EnsureAccessFor(w, env, tracked, access).ok && (IsAlive(w.objects, Access(ref)) ==> ref in tracked)
    ensures var a := EnsureAccessFor(w, env, tracked, access); IsAlive(a.world.objects, Access(ref)) ==> ref in a.tracked
  {
    hide EnsureAccessFor, Wants;
    AccessForRaises(w, env, tracked, access, ref);
    TrackedIsWanted(w, env, tracked, access, ref);
  }

  lemma {:induction false} AccessPassTracks(s: State, w: World, env: Env, want: Want, at: int, ref: string)
    requires IsAlive(w.objects, Access(ref)) ==> ref in s.tracked
    ensures var o := AccessPass(s, w, env, want, at);
            o.update.Some? && IsAlive(o.state.objects, Access(ref)) ==> ref in o.state.tracked
  {
    hide EnsureAccessFor, Called, Updated, IsAlive;
    var a := EnsureAccessFor(w, env, s.tracked, want.access);
    CallRaisesNothing(a.world, env, Claim, Access(ref));
    if a.ok {
      AccessForTracks(w, env, s.tracked, want.access, ref);
    }
  }

  /** A pass whose status write is stored forgets no access resource. */
  lemma {:induction false} StoredStartTracks(s: State, env: Env, want: Want, at: int)
    requires AllTracked(s) && RunningPass(s, env, want, at).update.Some?
    ensures AllTracked(RunningPass(s, env, want, at).state)
  {
    hide EnsureObjects, AccessPass, Called, Updated, IsAlive;
    var w, available := World(s.objects, 0), IsAvailable(s.status);
    var o := EnsureObjects(w, env, want, available);
    forall ref | IsAlive(RunningPass(s, env, want, at).state.objects, Access(ref))
      ensures ref in RunningPass(s, env, want, at).state.tracked
    {
      ObjectsRaise(w, env, want, available, ref);
      CallRaisesNothing(o.world, env, Claim, Access(ref));
      AccessPassTracks(s, o.world, env, Observed(want, o.found), at, ref);
    }
  }

  /** The pass asks for no access resource that is not tracked, or does not come to ask. */
  ghost predicate NothingNew(s: State, want: Want) {
    want.deploymentReady && want.serviceReady && Deployment in s.objects ==>
      forall ref :: Wants(want.access, ref) ==> ref in s.tracked
  }

  lemma {:induction false} FoundWasThere(s: State, env: Env, want: Want, available: bool)
    requires EnsureObjects(World(s.objects, 0), env, want, available).found
    ensures Deployment in s.objects
  {
    hide Updates, CreationOf;
  }

  lemma {:induction false} AccessPassUnstored(s: State, w: World, env: Env, want: Want, at: int, ref: string)
    requires IsAlive(w.objects, Access(ref)) ==> ref in s.tracked
    requires Wants(want.access, ref) ==> ref in s.tracked
    ensures var o := AccessPass(s, w, env, want, at);
            o.update.None? && IsAlive(o.state.objects, Access(ref)) ==> ref in o.state.tracked
  {
    hide EnsureAccessFor, Called, Updated, IsAlive, Wants;
    var a := EnsureAccessFor(w, env, s.tracked, want.access);
    AccessForRaises(w, env, s.tracked, want.access, ref);
    CallRaisesNothing(a.world, env, Claim, Access(ref));
  }

  lemma {:induction false} NothingNewUnstored(s: State, env: Env, want: Want, at: int, ref: string)
    requires AllTracked(s) && NothingNew(s, want) && RunningPass(s, env, want, at).update.None?
    ensures var o := RunningPass(s, env, want, at); IsAlive(o.state.objects, Access(ref)) ==> ref in o.state.tracked
  {
    hide EnsureObjects, AccessPass, Called, Updated, IsAlive, Wants;
    var w, available := World(s.objects, 0), IsAvailable(s.status);
    var o := EnsureObjects(w, env, want, available);
    ObjectsRaise(w, env, want, available, ref);
    CallRaisesNothing(o.world, env, Claim, Access(ref));
    if o.trouble.None? && o.found && want.deploymentReady && want.serviceReady {
      FoundWasThere(s, env, want, available);
      AccessPassUnstored(s, o.world, env, Observed(want, o.found), at, ref);
    }
  }

  /** Whatever fails, a pass that asks for nothing new forgets no access resource, its write stored or
      not. */
  lemma {:induction false} NothingNewTracks(s: State, env: Env, want: Want, at: int)
    requires AllTracked(s) && NothingNew(s, want)
    ensures AllTracked(RunningPass(s, env, want, at).state)
  {
    hide RunningPass, NothingNew, IsAlive;
    if RunningPass(s, env, want, at).update.Some? {
      StoredStartTracks(s, env, want, at);
    } else {
      forall ref: string
        ensures IsAlive(RunningPass(s, env, want, at).state.objects, Access(ref)) ==> ref in RunningPass(s, env, want, at).state.tracked
      {
        NothingNewUnstored(s, env, want, at, ref);
      }
    }
  }

  // ---------------------------------------------------------------- clusters that fail from some call on

  /** Nothing fails and only `name` goes, at the first call. */
  function Dropping(name: Name): Env { (k: nat) => Answer(false, if k == 0 then {name} else {}, {}) }

  /** The same up to call `last`; from then on every call fails. */
  function CutAfter(last: nat, name: Name): Env { (k: nat) => Answer(k > last, if k == 0 then {name} else {}, {}) }

  ghost predicate Agree(a: Env, b: Env, n: nat) { forall k: nat :: k < n ==> a(k) == b(k) }

  lemma {:induction false} CutAgrees(last: nat, name: Name)
    ensures Agree(Dropping(name), CutAfter(last, name), last + 1)
  {
  }

  /** What the builder can build and compare. */
  predicate Sound(wanted: Wanted) { wanted.builds && (wanted.compare.UpToDate? || wanted.compare.OutOfDate?) }

  predicate GoodTemplates(templates: seq<AccessTemplate>) {
    forall i :: 0 <= i < |templates| ==> Sound(templates[i].wanted)
  }

  predicate Buildable(want: Want) {
    && Sound(want.claim) && Sound(want.deployment) && Sound(want.service)
    && (want.access.Some? ==> GoodTemplates(want.access.value.templates))
  }

  /** What an operation does depends only on the calls it makes. */
  lemma {:induction false} LocalExists(w: World, a: Env, b: Env, name: Name, wanted: Wanted, available: bool, n: nat)
    requires Agree(a, b, n) && EnsureExists(w, a, name, wanted, available).world.calls <= n
    ensures EnsureExists(w, b, name, wanted, available) == EnsureExists(w, a, name, wanted, available)
    ensures w.calls < EnsureExists(w, a, name, wanted, available).world.calls && ReadOf(w, b, name) == ReadOf(w, a, name)
  {
    hide Disturbed;
    assert a(w.calls) == b(w.calls);
    assert EnsureExists(w, a, name, wanted, available).world.calls > w.calls + 1 ==> a(w.calls + 1) == b(w.calls + 1);
  }

  lemma {:induction false} LocalObjects(w: World, a: Env, b: Env, want: Want, available: bool, n: nat)
    requires Agree(a, b, n) && EnsureObjects(w, a, want, available).world.calls <= n
    requires EnsureObjects(w, a, want, available).trouble.None?
    ensures EnsureObjects(w, b, want, available) == EnsureObjects(w, a, want, available)
  {
    hide Agree;
    var c := if want.storage then EnsureExists(w, a, Claim, want.claim, available) else Step(w, true);
    var d := EnsureExists(c.world, a, Deployment, want.deployment, available);
    var v := EnsureExists(d.world, a, Service, want.service, available);
    LaterExists(c.world, a, Deployment, want.deployment, available);
    LaterExists(d.world, a, Service, want.service, available);
    hide EnsureExists, ReadOf;
    if want.storage { LocalExists(w, a, b, Claim, want.claim, available, n); }
    LocalExists(c.world, a, b, Deployment, want.deployment, available, n);
    LocalExists(d.world, a, b, Service, want.service, available, n);
  }

  lemma {:induction false} LaterExists(w: World, a: Env, name: Name, wanted: Wanted, available: bool)
    ensures EnsureExists(w, a, name, wanted, available).world.calls > w.calls
  {
    hide Disturbed;
  }

  lemma {:induction false} LocalCall(w: World, a: Env, b: Env, n: nat)
    requires Agree(a, b, n) && w.calls < n
    ensures Called(w, b) == Called(w, a) && Fails(w, b) == Fails(w, a) && Called(w, a).calls == w.calls + 1
  {
  }

  lemma {:induction false} LocalCreate(w: World, a: Env, b: Env, tracked: seq<string>, t: AccessTemplate, n: nat)
    requires Agree(a, b, n) && CreateAccess(w, a, tracked, t).world.calls <= n
    ensures CreateAccess(w, b, tracked, t) == CreateAccess(w, a, tracked, t)
  {
    if t.wanted.builds {
      CallCounts(w, a);
      var w1 := AfterCreate(w, a, Access(t.ref));
      CallCounts(w1, a);
      var w2 := Called(w1, a);
      CallCounts(w2, a);
      hide Called, Agree, Fails;
      LocalCall(w, a, b, n);
      if CreationOf(w, a, Access(t.ref)).AlreadyExists? {
        LocalCall(w1, a, b, n);
        if ReadOf(w1, a, Access(t.ref)).Found? {
          LocalCall(w2, a, b, n);
        }
      }
    }
  }

  lemma {:induction false} LaterCreate(w: World, a: Env, tracked: seq<string>, t: AccessTemplate)
    ensures CreateAccess(w, a, tracked, t).world.calls >= w.calls
  {
    hide Disturbed;
  }

  lemma {:induction false} LocalAccess(w: World, a: Env, b: Env, tracked: seq<string>, t: AccessTemplate, n: nat)
    requires Agree(a, b, n) && EnsureAccess(w, a, tracked, t).world.calls <= n
    ensures EnsureAccess(w, b, tracked, t) == EnsureAccess(w, a, tracked, t)
  {
    hide CreateAccess, Without, Called, Agree, Fails;
    if t.ref !in tracked {
      LocalCreate(w, a, b, tracked, t, n);
    } else {
      var w1 := Called(w, a);
      CallCounts(w, a);
      CallCounts(w1, a);
      LaterCreate(w1, a, Without(tracked, t.ref), t);
      LocalCall(w, a, b, n);
      if ReadOf(w, a, Access(t.ref)).NotFound? {
        LocalCreate(w1, a, b, Without(tracked, t.ref), t, n);
      } else if ReadOf(w, a, Access(t.ref)).Found? && t.wanted.compare.OutOfDate? {
        LocalCall(w1, a, b, n);
      }
    }
  }

  lemma {:induction false} LaterAccess(w: World, a: Env, tracked: seq<string>, templates: seq<AccessTemplate>)
    ensures EnsureAllAccess(w, a, tracked, templates).world.calls >= w.calls
    decreases |templates|
  {
    if templates == [] {
    } else {
      hide Disturbed;
      var e := EnsureAccess(w, a, tracked, templates[0]);
      LaterAccess(e.world, a, e.tracked, templates[1..]);
    }
  }

  lemma {:induction false} LocalAllAccess(w: World, a: Env, b: Env, tracked: seq<string>, templates: seq<AccessTemplate>, n: nat)
    requires Agree(a, b, n) && EnsureAllAccess(w, a, tracked, templates).world.calls <= n
    ensures EnsureAllAccess(w, b, tracked, templates) == EnsureAllAccess(w, a, tracked, templates)
    decreases |templates|
  {
    if templates == [] {
    } else {
      hide EnsureAccess, Agree;
      var e := EnsureAccess(w, a, tracked, templates[0]);
      LaterAccess(e.world, a, e.tracked, templates[1..]);
      LocalAccess(w, a, b, tracked, templates[0], n);
      if e.ok {
        LocalAllAccess(e.world, a, b, e.tracked, templates[1..], n);
      }
    }
  }

  // ---------------------------------------------------------------- a cluster without errors

  lemma {:induction false} CalmCall(w: World, name: Name)
    ensures !Fails(w, Dropping(name))
    ensures forall n :: n in Called(w, Dropping(name)).objects <==> n in w.objects && !(w.calls == 0 && n == name)
    ensures w.calls > 0 ==> Called(w, Dropping(name)).objects == w.objects
  {
  }

  lemma {:induction false} CalmExists(w: World, name: Name, n: Name, wanted: Wanted, available: bool)
    requires n != name && Sound(wanted)
    ensures var e := EnsureExists(w, Dropping(name), n, wanted, available);
            && e.ok && n in e.world.objects
            && (ReadOf(w, Dropping(name), n).Found? <==> n in w.objects)
            && (w.calls == 0 || name !in w.objects ==> name !in e.world.objects)
            && (forall m :: m in w.objects && m != name ==> m in e.world.objects)
  {
    var env := Dropping(name);
    CalmCall(w, name);
    CalmCall(Called(w, env), name);
    hide Called, Dropping;
    assert Called(w, env).calls == w.calls + 1 by { CallCounts(w, env); }
  }

  lemma {:induction false} CallCounts(w: World, env: Env)
    ensures Called(w, env).calls == w.calls + 1
  {
  }

  lemma {:induction false} CalmObjects(s: State, name: Name, want: Want, available: bool)
    requires name.Access? && Buildable(want) && Deployment in s.objects
    ensures var o := EnsureObjects(World(s.objects, 0), Dropping(name), want, available);
            o.trouble.None? && o.found && name !in o.world.objects && o.world.calls > 0
  {
    hide EnsureExists, Dropping, ReadOf, GoodTemplates;
    var env, w := Dropping(name), World(s.objects, 0);
    var c := if want.storage then EnsureExists(w, env, Claim, want.claim, available) else Step(w, true);
    var d := EnsureExists(c.world, env, Deployment, want.deployment, available);
    CalmExists(w, name, Claim, want.claim, available);
    CalmExists(c.world, name, Deployment, want.deployment, available);
    LaterExists(c.world, env, Deployment, want.deployment, available);
    CalmExists(d.world, name, Service, want.service, available);
    LaterExists(d.world, env, Service, want.service, available);
  }

  lemma {:induction false} CalmAccess(w: World, ref: string, tracked: seq<string>, t: AccessTemplate)
    requires t.ref != ref && Sound(t.wanted) && w.calls > 0 && Access(ref) !in w.objects
    ensures var a := EnsureAccess(w, Dropping(Access(ref)), tracked, t);
            a.ok && Access(ref) !in a.world.objects && a.world.calls > 0
  {
    hide Disturbed, Without;
    var env, name := Dropping(Access(ref)), Access(ref);
    var w1 := Called(w, env);
    CalmCall(w, name);
    CalmCall(w1, name);
    CalmCall(Called(w1, env), name);
  }

  lemma {:induction false} CalmAllAccess(w: World, ref: string, tracked: seq<string>, templates: seq<AccessTemplate>)
    requires GoodTemplates(templates) && !Asks(templates, ref) && w.calls > 0 && Access(ref) !in w.objects
    ensures var a := EnsureAllAccess(w, Dropping(Access(ref)), tracked, templates);
            a.ok && Access(ref) !in a.world.objects && a.world.calls > 0
    decreases |templates|
  {
    if templates == [] {
    } else {
      hide EnsureAccess, Dropping, Sound;
      AsksTail(templates, ref);
      CalmAccess(w, ref, tracked, templates[0]);
      var a := EnsureAccess(w, Dropping(Access(ref)), tracked, templates[0]);
      hide Asks;
      CalmAllAccess(a.world, ref, a.tracked, templates[1..]);
    }
  }

  // ---------------------------------------------------------------- a cluster of which nothing is heard any more

  /** Every call from here on fails and nothing happens to the objects. */
  ghost predicate Silent(w: World, env: Env) { forall k: nat :: k >= w.calls ==> env(k) == Answer(true, {}, {}) }

  lemma {:induction false} SilentCall(w: World, env: Env)
    requires Silent(w, env)
    ensures Fails(w, env) && Called(w, env).objects == w.objects && Silent(Called(w, env), env)
  {
  }

  lemma {:induction false} SilentAccess(w: World, env: Env, tracked: seq<string>, templates: seq<AccessTemplate>)
    requires Silent(w, env)
    ensures var a := EnsureAllAccess(w, env, tracked, templates); a.world.objects == w.objects && Silent(a.world, env)
  {
    hide Called, Silent;
    SilentCall(w, env);
  }

  lemma {:induction false} SilentGone(w: World, env: Env, tracked: seq<string>)
    requires Silent(w, env)
    ensures var g := EnsureAllAccessGone(w, env, tracked); g.world.objects == w.objects && Silent(g.world, env)
  {
    hide Called, Silent;
    SilentCall(w, env);
  }

  lemma {:induction false} SplitAccess(w: World, env: Env, tracked: seq<string>, templates: seq<AccessTemplate>, i: nat)
    requires i <= |templates| && EnsureAllAccess(w, env, tracked, templates[..i]).ok
    ensures var a := EnsureAllAccess(w, env, tracked, templates[..i]);
            EnsureAllAccess(w, env, tracked, templates) == EnsureAllAccess(a.world, env, a.tracked, templates[i..])
    decreases i
  {
    if i == 0 {
      assert templates[..0] == [] && templates[0..] == templates;
    } else {
      hide EnsureAccess;
      var e := EnsureAccess(w, env, tracked, templates[0]);
      assert templates[..i][1..] == templates[1..][..i - 1] && templates[i..] == templates[1..][i - 1..];
      SplitAccess(e.world, env, e.tracked, templates[1..], i - 1);
    }
  }

  // ---------------------------------------------------------------- exactly which passes can forget

  /** The pass ends without a write once nothing is heard of the cluster any more. */
  lemma {:induction false} SilentPass(s: State, w: World, env: Env, want: Want, at: int)
    requires var a := EnsureAccessFor(w, env, s.tracked, want.access); Silent(a.world, env)
    ensures var a, o := EnsureAccessFor(w, env, s.tracked, want.access), AccessPass(s, w, env, want, at);
            o.state == s.(objects := a.world.objects)
  {
    hide EnsureAccessFor, Called, Updated, Silent;
    SilentCall(EnsureAccessFor(w, env, s.tracked, want.access).world, env);
  }

  /** The first template whose resource is not tracked is created, and nothing is heard after that. */
  lemma {:induction false} CreatedThenSilent(w: World, env: Env, last: nat, tracked: seq<string>, templates: seq<AccessTemplate>, i: nat)
    requires i < |templates| && templates[i].wanted.builds
    requires var name := Access(templates[i].ref);
             var a := EnsureAllAccess(w, env, tracked, templates[..i]);
             && a.ok && env == CutAfter(last, name) && last == a.world.calls > 0
             && templates[i].ref !in a.tracked && name !in a.world.objects
    ensures var e := EnsureAllAccess(w, env, tracked, templates);
            IsAlive(e.world.objects, Access(templates[i].ref)) && Silent(e.world, env)
  {
    var name := Access(templates[i].ref);
    var a := EnsureAllAccess(w, env, tracked, templates[..i]);
    SplitAccess(w, env, tracked, templates, i);
    var b := EnsureAccess(a.world, env, a.tracked, templates[i]);
    assert env(last) == Answer(false, {}, {});
    assert Called(a.world, env).objects == a.world.objects;
    assert b == AccessStep(AfterCreate(a.world, env, name), a.tracked + [templates[i].ref], true);
    assert b.world.calls == last + 1 && IsAlive(b.world.objects, name);
    assert Silent(b.world, env);
    hide EnsureAccess, Called, AfterCreate, Silent, CutAfter, IsAlive;
    assert templates[i..][0] == templates[i] && templates[i..][1..] == templates[i + 1..];
    SilentAccess(b.world, env, b.tracked, templates[i + 1..]);
  }

  lemma {:induction false} StrategySilent(w: World, env: Env, tracked: seq<string>, access: Option<AccessPlan>)
    requires access.Some? && Silent(EnsureAllAccess(w, env, tracked, access.value.templates).world, env)
    ensures var e, a := EnsureAllAccess(w, env, tracked, access.value.templates), EnsureAccessFor(w, env, tracked, access);
            a.world.objects == e.world.objects && Silent(a.world, env)
  {
    hide EnsureAllAccess, EnsureAllAccessGone, Chosen, Silent;
    var e := EnsureAllAccess(w, env, tracked, access.value.templates);
    SilentGone(e.world, env, Chosen(e.tracked, access.value.templates, false));
  }

  lemma {:induction false} FirstUntracked(tracked: seq<string>, templates: seq<AccessTemplate>, n: nat) returns (i: nat)
    requires n < |templates| && templates[n].ref !in tracked
    ensures i < |templates| && templates[i].ref !in tracked && !Asks(templates[..i], templates[i].ref)
  {
    i := 0;
    while templates[i].ref in tracked
      invariant i <= n && forall j :: 0 <= j < i ==> templates[j].ref in tracked
      decreases n - i
    {
      i := i + 1;
    }
  }

  /** A cluster in which the pass creates an access resource and then loses track of it. */
  lemma {:induction false} CanForget(s: State, want: Want, at: int, ref: string) returns (env: Env)
    requires AllTracked(s) && Buildable(want)
    requires want.deploymentReady && want.serviceReady && Deployment in s.objects && Wants(want.access, ref) && ref !in s.tracked
    ensures !AllTracked(RunningPass(s, env, want, at).state)
  {
    hide EnsureObjects, EnsureAllAccess, Asks, Agree, AccessPass, EnsureAccessFor, IsAlive, Silent, GoodTemplates, CutAfter, Dropping, Called;
    var templates, available := want.access.value.templates, IsAvailable(s.status);
    var i := UntrackedAt(s.tracked, want.access, ref);
    var name := Access(templates[i].ref);
    var calm, w := Dropping(name), World(s.objects, 0);
    var o := EnsureObjects(w, calm, want, available);
    CalmObjects(s, name, want, available);
    var a := EnsureAllAccess(o.world, calm, s.tracked, templates[..i]);
    assert GoodTemplates(templates[..i]) && templates[i].wanted.builds by { GoodParts(templates, i); }
    CalmAllAccess(o.world, templates[i].ref, s.tracked, templates[..i]);
    AllAccessTracked(o.world, calm, s.tracked, templates[..i], templates[i].ref);
    env := CutAfter(a.world.calls, name);
    CutAgrees(a.world.calls, name);
    LaterAccess(o.world, calm, s.tracked, templates[..i]);
    LocalObjects(w, calm, env, want, available, a.world.calls + 1);
    LocalAllAccess(o.world, calm, env, s.tracked, templates[..i], a.world.calls + 1);
    CreatedThenSilent(o.world, env, a.world.calls, s.tracked, templates, i);
    StrategySilent(o.world, env, s.tracked, want.access);
    SilentPass(s, o.world, env, Observed(want, o.found), at);
    assert IsAlive(RunningPass(s, env, want, at).state.objects, name) && RunningPass(s, env, want, at).state.tracked == s.tracked;
  }

  lemma {:induction false} UntrackedAt(tracked: seq<string>, access: Option<AccessPlan>, ref: string) returns (i: nat)
    requires Wants(access, ref) && ref !in tracked
    ensures var templates := access.value.templates;
            i < |templates| && templates[i].ref !in tracked && !Asks(templates[..i], templates[i].ref)
  {
    var templates := access.value.templates;
    var n :| 0 <= n < |templates| && templates[n].ref == ref;
    i := FirstUntracked(tracked, templates, n);
  }

  lemma {:induction false} GoodParts(templates: seq<AccessTemplate>, i: nat)
    requires GoodTemplates(templates) && i < |templates|
    ensures GoodTemplates(templates[..i]) && templates[i].wanted.builds
  {
  }

  /** Whatever the cluster does, a pass whose objects can be built forgets no access resource exactly when
      it asks for none that is not tracked yet, or finds Deployment or Service not ready. */
  lemma {:induction false} NeverForgetsIff(s: State, want: Want, at: int)
    requires AllTracked(s) && Buildable(want)
    ensures (forall env: Env :: AllTracked(RunningPass(s, env, want, at).state)) <==> NothingNew(s, want)
  {
    hide RunningPass, AllTracked, Buildable, Wants;
    if NothingNew(s, want) {
      forall env: Env
        ensures AllTracked(RunningPass(s, env, want, at).state)
      {
        NothingNewTracks(s, env, want, at);
      }
    } else {
      var ref :| Wants(want.access, ref) && ref !in s.tracked;
      var env := CanForget(s, want, at, ref);
    }
  }

  /** An instance: a running Deployment and Service, and a strategy that has just been given a route. */
  lemma {:induction false} FailedStartForgets(at: int)
    ensures exists s: State, env: Env, want: Want ::
              && AllTracked(s) && IsAlive(s.objects, Deployment) && IsAlive(s.objects, Service)
              && !AllTracked(RunningPass(s, env, want, at).state)
  {
    var plain := Wanted(true, UpToDate);
    var plan := AccessPlan([AccessTemplate("route", plain)], true);
    var want := Want(false, plain, plain, plain, true, true, Some(plan), ProbeReady, "", "");
    var s := State(map[Deployment := Alive, Service := Alive], [], Status([], "", ""), true, false);
    assert Wants(want.access, "route") by { assert plan.templates[0].ref == "route"; }
    assert Buildable(want) && AllTracked(s) && IsAlive(s.objects, Deployment) && IsAlive(s.objects, Service);
    hide *;
    var env := CanForget(s, want, at, "route");
  }
}
