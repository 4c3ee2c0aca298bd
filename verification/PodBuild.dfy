/** Building the pod of a workspace in layers: base, integrations, access strategy
    (internal/controller/deployment_builder.go, deployment_builder_integration.go,
    deployment_builder_access.go), and keeping a Deployment up to date with it
    (internal/controller/resource_manager.go). */
module PodBuild {
  import opened Text
  import opened PodModifications
  import opened EnvMerge

  const PRIMARY := "workspace"

  type Side = Container<string>

  /** A finished pod: the primary container's env and mounts, the other containers, the volumes. */
  datatype Pod = Pod(env: seq<EnvVar>, mounts: seq<Mount<string>>, containers: seq<Side>, init: seq<Side>,
                     volumes: seq<string>, shareProcessNamespace: bool)

  /** One attached integration: nothing frozen yet, not renderable, or rendered. */
  datatype Overlay = NotFrozen | Unrenderable | Rendered(mods: PodMods<string>, share: Option<bool>)

  /** `env` is None when a value template of the strategy fails. */
  datatype AccessStrategy = AccessStrategy(env: Option<seq<EnvEntry<string>>>, mounts: seq<Mount<string>>,
                                           init: seq<Side>, additional: seq<Side>, volumes: seq<string>)

  datatype Build = ReplayFailed | Fatal | Built(pod: Pod)

  // ---------------------------------------------------------------- names

  function SideNames(cs: seq<Side>): (names: seq<string>)
    ensures |names| == |cs| && forall i :: 0 <= i < |cs| ==> names[i] == cs[i].name
  {
    seq(|cs|, i requires 0 <= i < |cs| => cs[i].name)
  }

  /** All container names of a pod: the primary, the others, the init containers. */
  function ContainerNames(p: Pod): seq<string> {
    [PRIMARY] + SideNames(p.containers) + SideNames(p.init)
  }

  predicate DistinctNames(names: seq<string>) {
    forall i, j :: 0 <= i < j < |names| ==> names[i] != names[j]
  }

  /** `more` brings no name that is already there, and none twice. */
  predicate NoClash(names: seq<string>, more: seq<string>) {
    DistinctNames(more) && forall i, j :: 0 <= i < |names| && 0 <= j < |more| ==> names[i] != more[j]
  }

  function ModNames(m: PodMods<string>): seq<string> {
    SideNames(m.additional) + SideNames(m.init)
  }

  predicate Applicable(p: Pod, m: PodMods<string>) {
    NoClash(ContainerNames(p), ModNames(m)) && NoClash(p.volumes, m.volumes)
  }

  // ---------------------------------------------------------------- specification of a build

  function IntegrationOps(env: seq<EnvEntry<string>>): (ops: seq<Op>)
    ensures forall i :: 0 <= i < |ops| ==> ops[i].Integration?
  {
    seq(|env|, i requires 0 <= i < |env| => Integration(env[i].name, env[i].value))
  }

  function StrategyOps(env: seq<EnvEntry<string>>): (ops: seq<Op>)
    ensures forall i :: 0 <= i < |ops| ==> ops[i].Strategy?
  {
    seq(|env|, i requires 0 <= i < |env| => Strategy(env[i].name, env[i].value))
  }

  function ModOps(m: PodMods<string>): (ops: seq<Op>) {
    if m.primary.Some? then IntegrationOps(m.primary.value.mergeEnv) else []
  }

  function ModMounts(m: PodMods<string>): seq<Mount<string>> {
    if m.primary.Some? then m.primary.value.mounts else []
  }

  /** `applyPodModifications` on everything but the env. */
  function Applied(p: Pod, m: PodMods<string>): Pod {
    p.(containers := p.containers + m.additional, init := p.init + m.init, volumes := p.volumes + m.volumes,
       mounts := p.mounts + ModMounts(m), env := Merge(p.env, ModOps(m)))
  }

  function Shared(p: Pod, share: Option<bool>): Pod {
    if share == Some(true) then p.(shareProcessNamespace := true) else p
  }

  /** `applyIntegrationsToDeployment`, overlay by overlay. */
  function WithIntegrations(p: Pod, overlays: seq<Overlay>): Build {
    if overlays == [] then Built(p)
    else
      var n := |overlays| - 1;
      var front := WithIntegrations(p, overlays[..n]);
      if !front.Built? then front
      else
        match overlays[n]
        case NotFrozen => front
        case Unrenderable => ReplayFailed
        case Rendered(mods, share) =>
          if Applicable(front.pod, mods) then Built(Shared(Applied(front.pod, mods), share)) else ReplayFailed
  }

  /** `ApplyAccessStrategyToDeployment`: no collision check here. */
  function WithStrategy(p: Pod, s: AccessStrategy): Build {
    if s.env.None? then Fatal
    else Built(p.(env := Merge(p.env, StrategyOps(s.env.value)), volumes := p.volumes + s.volumes, mounts := p.mounts + s.mounts,
                  init := p.init + s.init, containers := p.containers + s.additional))
  }

  function BuildPod(base: Pod, overlays: seq<Overlay>, strategy: Option<AccessStrategy>): Build {
    var b := WithIntegrations(base, overlays);
    if !b.Built? || strategy.None? then b else WithStrategy(b.pod, strategy.value)
  }

  // ---------------------------------------------------------------- the builder

  /** A pod under construction. The env slice starts out as the workspace's own. */
  class PodSpec {
    var env: Slice
    var mounts: seq<Mount<string>>
    var containers: seq<Side>
    var init: seq<Side>
    var volumes: seq<string>
    var shareProcessNamespace: bool

    ghost predicate Valid()
      reads this
    {
      SliceOk(env)
    }

    ghost function Value(): Pod
      requires Valid()
      reads this, env.arr
    {
      Pod(env.arr[..env.len], mounts, containers, init, volumes, shareProcessNamespace)
    }

    constructor (base: Pod, env: Slice)
      requires SliceOk(env)
      ensures Valid() && this.env == env && Value() == base.(env := env.arr[..env.len])
    {
      this.env := env;
      mounts, containers, init, volumes := base.mounts, base.containers, base.init, base.volumes;
      shareProcessNamespace := base.shareProcessNamespace;
    }

    /** `applyPodModifications`. `ws` is the workspace's slice, `was` its content when the build began,
        `ops` what has been merged since. */
    method ApplyPodModifications(m: PodMods<string>, ws: Slice, ghost was: seq<EnvVar>, ghost ops: seq<Op>) returns (ok: bool)
      requires Valid() && GrownFrom(ws, was, ops, env)
      modifies this, env.arr
      ensures Valid() && (env.arr == old(env.arr) || fresh(env.arr))
      ensures ok <==> Applicable(old(Value()), m)
      ensures !ok ==> Value() == old(Value()) && env == old(env) && ws.arr[..] == old(ws.arr[..])
      ensures ok ==> Value() == Applied(old(Value()), m)
      ensures GrownFrom(ws, was, if ok then ops + ModOps(m) else ops, env)
    {
      hide Merge, Holds, IntegrationOps;
      ghost var p := Value();
      var clash := Clashes([PRIMARY] + SideNames(containers) + SideNames(init), SideNames(m.additional) + SideNames(m.init));
      if clash {
        return false;
      }
      clash := Clashes(volumes, m.volumes);
      if clash {
        return false;
      }
      containers := containers + m.additional;
      init := init + m.init;
      volumes := volumes + m.volumes;
      if m.primary.Some? {
        var slice := MergeInto(ws, was, ops, env, IntegrationOps(m.primary.value.mergeEnv));
        MergedContents(ws, was, ops, IntegrationOps(m.primary.value.mergeEnv), p.env, slice);
        env := slice;
        mounts := mounts + m.primary.value.mounts;
      } else {
        NoMerge(p.env);
        assert ops + [] == ops;
      }
      assert p.mounts + ModMounts(m) == mounts;
      return true;
    }

    method ApplyAccessStrategy(s: AccessStrategy, ws: Slice, ghost was: seq<EnvVar>, ghost ops: seq<Op>) returns (ok: bool)
      requires Valid() && GrownFrom(ws, was, ops, env)
      modifies this, env.arr
      ensures Valid() && (env.arr == old(env.arr) || fresh(env.arr))
      ensures ok <==> s.env.Some?
      ensures ok ==> WithStrategy(old(Value()), s) == Built(Value())
      ensures GrownFrom(ws, was, if ok then ops + StrategyOps(s.env.value) else ops, env)
    {
      hide Merge, Holds, StrategyOps;
      ghost var p := Value();
      if s.env.None? {
        return false;
      }
      var slice := MergeInto(ws, was, ops, env, StrategyOps(s.env.value));
      MergedContents(ws, was, ops, StrategyOps(s.env.value), p.env, slice);
      env := slice;
      volumes := volumes + s.volumes;
      mounts := mounts + s.mounts;
      init := init + s.init;
      containers := containers + s.additional;
      return true;
    }
  }

  lemma {:induction false} NoMerge(env: seq<EnvVar>)
    ensures Merge(env, []) == env
  {
  }

  lemma {:induction false} MergedContents(ws: Slice, was: seq<EnvVar>, ops: seq<Op>, more: seq<Op>, before: seq<EnvVar>, s: Slice)
    requires GrownFrom(ws, was, ops + more, s) && before == Merge(was, ops)
    ensures s.arr[..s.len] == Merge(before, more)
  {
    MergeAppend(was, ops, more);
  }

  /** The name check: every new name against all names seen so far. */
  method Clashes(names: seq<string>, more: seq<string>) returns (clash: bool)
    ensures clash <==> !NoClash(names, more)
  {
    var seen := set i | 0 <= i < |names| :: names[i];
    for i := 0 to |more|
      invariant forall n :: n in seen <==> n in names || n in more[..i]
      invariant NoClash(names, more[..i])
    {
      if more[i] in seen {
        assert !NoClash(names, more) by {
          if more[i] in names {
            var j :| 0 <= j < |names| && names[j] == more[i];
          } else {
            var j :| 0 <= j < i && more[..i][j] == more[i];
            assert more[j] == more[i];
          }
        }
        return true;
      }
      seen := seen + {more[i]};
      assert more[..i + 1] == more[..i] + [more[i]];
    }
    assert more[..|more|] == more;
    return false;
  }

  // ---------------------------------------------------------------- whole builds

  /** Every env operation of the integrations that have been rendered. */
  function OverlayOps(overlays: seq<Overlay>): (ops: seq<Op>)
    ensures forall i :: 0 <= i < |ops| ==> ops[i].Integration?
  {
    if overlays == [] then []
    else
      var last := overlays[|overlays| - 1];
      OverlayOps(overlays[..|overlays| - 1]) + if last.Rendered? then ModOps(last.mods) else []
  }

  function StrategyEnvOps(strategy: Option<AccessStrategy>): (ops: seq<Op>)
    ensures forall i :: 0 <= i < |ops| ==> ops[i].Strategy?
  {
    if strategy.Some? && strategy.value.env.Some? then StrategyOps(strategy.value.env.value) else []
  }

  function AllOps(overlays: seq<Overlay>, strategy: Option<AccessStrategy>): seq<Op> {
    OverlayOps(overlays) + StrategyEnvOps(strategy)
  }

  /** `BuildWorkspaceDeployment`: the pod takes over the workspace's env slice and writes into it. */
  method BuildWorkspaceDeployment(ws: Slice, base: Pod, overlays: seq<Overlay>, strategy: Option<AccessStrategy>) returns (b: Build)
    requires SliceOk(ws)
    modifies ws.arr
    ensures b == BuildPod(base.(env := old(ws.arr[..ws.len])), overlays, strategy)
    ensures b.Built? ==> exists k :: Holds(ws, old(ws.arr[..ws.len]), AllOps(overlays, strategy), k)
  {
    hide Merge, Holds, Applicable, Applied, ModOps, StrategyOps;
    ghost var was := ws.arr[..ws.len];
    ghost var start := base.(env := was);
    var spec := new PodSpec(base, ws);
    NoMerge(was);
    assert GrownFrom(ws, was, [], spec.env);
    for i := 0 to |overlays|
      invariant fresh(spec) && spec.Valid() && (spec.env.arr == ws.arr || fresh(spec.env.arr))
      invariant WithIntegrations(start, overlays[..i]) == Built(spec.Value())
      invariant GrownFrom(ws, was, OverlayOps(overlays[..i]), spec.env)
    {
      assert overlays[..i + 1][..i] == overlays[..i];
      match overlays[i]
      case NotFrozen =>
        assert OverlayOps(overlays[..i]) + [] == OverlayOps(overlays[..i]);
      case Unrenderable =>
        IntegrationsStop(start, overlays, i + 1);
        return ReplayFailed;
      case Rendered(mods, share) =>
        ghost var before := spec.Value();
        var ok := spec.ApplyPodModifications(mods, ws, was, OverlayOps(overlays[..i]));
        if !ok {
          IntegrationsStop(start, overlays, i + 1);
          return ReplayFailed;
        }
        if share == Some(true) {
          spec.shareProcessNamespace := true;
        }
        assert spec.Value() == Shared(Applied(before, mods), share);
    }
    assert overlays[..|overlays|] == overlays;
    ghost var ops := OverlayOps(overlays);
    assert ops + [] == ops;
    if strategy.Some? {
      var ok := spec.ApplyAccessStrategy(strategy.value, ws, was, ops);
      if !ok {
        return Fatal;
      }
    }
    BaseAfter(ws, was, AllOps(overlays, strategy), spec.env);
    b := Built(Pod(spec.env.arr[..spec.env.len], spec.mounts, spec.containers, spec.init, spec.volumes, spec.shareProcessNamespace));
  }

  lemma {:induction false} IntegrationsStop(p: Pod, overlays: seq<Overlay>, i: nat)
    requires i <= |overlays| && !WithIntegrations(p, overlays[..i]).Built?
    ensures WithIntegrations(p, overlays) == WithIntegrations(p, overlays[..i])
    decreases |overlays|
  {
    hide Applicable, Applied;
    if i == |overlays| {
      assert overlays[..i] == overlays;
    } else {
      var front := overlays[..|overlays| - 1];
      assert front[..i] == overlays[..i];
      IntegrationsStop(p, front, i);
    }
  }

  /** Success, failure and all of the pod but its env do not depend on the env it starts from; the env
      itself is one merge of all operations, integrations first. */
  lemma {:induction false} EnvOfIntegrations(p: Pod, env: seq<EnvVar>, overlays: seq<Overlay>)
    ensures var a, b := WithIntegrations(p, overlays), WithIntegrations(p.(env := env), overlays);
            && (a.Built? <==> b.Built?) && (!a.Built? ==> a == b)
            && (a.Built? ==> b.pod == a.pod.(env := Merge(env, OverlayOps(overlays))) && a.pod.env == Merge(p.env, OverlayOps(overlays)))
  {
    hide Merge, ModOps, NoClash;
    if overlays == [] {
      NoMerge(p.env);
      NoMerge(env);
    } else {
      var n := |overlays| - 1;
      EnvOfIntegrations(p, env, overlays[..n]);
      var ops := OverlayOps(overlays[..n]);
      assert ops + [] == ops;
      if overlays[n].Rendered? {
        MergeAppend(env, ops, ModOps(overlays[n].mods));
        MergeAppend(p.env, ops, ModOps(overlays[n].mods));
      }
    }
  }

  lemma {:induction false} EnvOfBuild(p: Pod, env: seq<EnvVar>, overlays: seq<Overlay>, strategy: Option<AccessStrategy>)
    ensures var a, b := BuildPod(p, overlays, strategy), BuildPod(p.(env := env), overlays, strategy);
            && (a.Built? <==> b.Built?) && (!a.Built? ==> a == b)
            && (a.Built? ==> b.pod == a.pod.(env := Merge(env, AllOps(overlays, strategy)))
                             && a.pod.env == Merge(p.env, AllOps(overlays, strategy)))
  {
    hide Merge, StrategyOps, WithIntegrations;
    EnvOfIntegrations(p, env, overlays);
    var ops := OverlayOps(overlays);
    assert ops + [] == ops;
    if strategy.Some? && strategy.value.env.Some? {
      MergeAppend(env, ops, StrategyOps(strategy.value.env.value));
      MergeAppend(p.env, ops, StrategyOps(strategy.value.env.value));
    }
  }

  /** The second build of one reconcile agrees with the first, although the first has written into the
      workspace's env. */
  lemma {:induction false} BuildsAgree(base: Pod, was: seq<EnvVar>, overlays: seq<Overlay>, strategy: Option<AccessStrategy>, k: nat)
    requires k <= |AllOps(overlays, strategy)|
    ensures var w := Overwritten(was, AllOps(overlays, strategy), k);
            BuildPod(base.(env := w), overlays, strategy) == BuildPod(base.(env := was), overlays, strategy)
  {
    hide Merge, AllOps, BuildPod;
    var ops := AllOps(overlays, strategy);
    var w := Overwritten(was, ops, k);
    MergeAgain(was, ops, k);
    EnvOfBuild(base.(env := was), w, overlays, strategy);
    assert base.(env := was).(env := w) == base.(env := w);
    var a, b := BuildPod(base.(env := was), overlays, strategy), BuildPod(base.(env := w), overlays, strategy);
    if a.Built? {
      assert a.pod == a.pod.(env := a.pod.env);
    }
  }

  /** In a finished pod every env name has the strategy's value, else the last integration's, else the
      workspace's entry, and no name twice unless the workspace had it twice. A value a strategy writes
      over a workspace entry with a ValueFrom stands beside it, unless an integration replaced the entry. */
  lemma {:induction false} LayeredEnv(base: Pod, overlays: seq<Overlay>, strategy: Option<AccessStrategy>, name: string)
    requires BuildPod(base, overlays, strategy).Built?
    ensures var env := BuildPod(base, overlays, strategy).pod.env;
            var i, integrations, access := IndexOf(env, name), OverlayOps(overlays), StrategyEnvOps(strategy);
            && (i < |env| <==> IndexOf(base.env, name) < |base.env| || Names(integrations, name) || Names(access, name))
            && (Names(access, name) ==> env[i].value == LastValue(access, name, ""))
            && (Names(access, name) ==>
                  (env[i].source.Some? <==>
                     !Names(integrations, name) && IndexOf(base.env, name) < |base.env| && base.env[IndexOf(base.env, name)].source.Some?))
            && (!Names(access, name) && Names(integrations, name) ==> env[i] == EnvVar(name, LastValue(integrations, name, ""), None))
            && (!Names(access, name) && !Names(integrations, name) && i < |env| ==> env[i] == base.env[IndexOf(base.env, name)])
            && (EnvMerge.Distinct(base.env) ==> EnvMerge.Distinct(env))
  {
    hide Merge, BuildPod, EnvMerge.Distinct;
    EnvOfBuild(base, base.env, overlays, strategy);
    Layers(base.env, OverlayOps(overlays), StrategyEnvOps(strategy), name);
    if EnvMerge.Distinct(base.env) {
      MergeDistinct(base.env, AllOps(overlays, strategy));
    }
  }

  // ---------------------------------------------------------------- names stay distinct

  lemma {:induction false} DistinctAppend(names: seq<string>, more: seq<string>)
    ensures DistinctNames(names + more) <==> DistinctNames(names) && NoClash(names, more)
  {
    var all := names + more;
    if DistinctNames(all) {
      assert forall i :: 0 <= i < |names| ==> all[i] == names[i];
      assert forall j :: 0 <= j < |more| ==> all[|names| + j] == more[j];
    }
  }

  /** Names may be counted in any order of the same blocks. */
  lemma {:induction false} DistinctSwap(a: seq<string>, b: seq<string>, c: seq<string>)
    ensures DistinctNames(a + b + c) <==> DistinctNames(a + c + b)
  {
    DistinctAppend(a + b, c);
    DistinctAppend(a, b);
    DistinctAppend(a + c, b);
    DistinctAppend(a, c);
    ClashSplit(a, b, c);
    ClashSplit(a, c, b);
    if DistinctNames(b) && DistinctNames(c) {
      ClashSymmetric(b, c);
    }
  }

  lemma {:induction false} ClashSplit(a: seq<string>, b: seq<string>, c: seq<string>)
    ensures NoClash(a + b, c) <==> NoClash(a, c) && NoClash(b, c)
  {
    var all := a + b;
    assert forall i :: 0 <= i < |a| ==> all[i] == a[i];
    assert forall i :: 0 <= i < |b| ==> all[|a| + i] == b[i];
  }

  lemma {:induction false} ClashSymmetric(b: seq<string>, c: seq<string>)
    requires DistinctNames(b) && DistinctNames(c)
    ensures NoClash(b, c) <==> NoClash(c, b)
  {
  }

  ghost predicate WellNamed(p: Pod) {
    DistinctNames(ContainerNames(p)) && DistinctNames(p.volumes)
  }

  /** New containers go behind the others and new init containers behind the init containers; taken
      together the names are distinct exactly when they were and the new ones do not clash. */
  lemma {:induction false} GrownNames(p: Pod, q: Pod, additional: seq<Side>, init: seq<Side>)
    requires q.containers == p.containers + additional && q.init == p.init + init
    ensures DistinctNames(ContainerNames(q)) <==>
              DistinctNames(ContainerNames(p)) && NoClash(ContainerNames(p), SideNames(additional) + SideNames(init))
  {
    hide NoClash, DistinctNames;
    var x, a, i, m := [PRIMARY] + SideNames(p.containers), SideNames(additional), SideNames(p.init), SideNames(init);
    assert SideNames(q.containers) == SideNames(p.containers) + a;
    assert SideNames(q.init) == i + m;
    assert ContainerNames(q) == x + a + (i + m);
    assert x + a + (i + m) == x + a + i + m;
    assert x + i + (a + m) == x + i + a + m;
    DistinctAppend(x + i, a + m);
    DistinctAppend(x + a + i, m);
    DistinctAppend(x + i + a, m);
    DistinctSwap(x, a, i);
    ClashSplit(x + a, i, m);
    ClashSplit(x, a, m);
    ClashSplit(x + i, a, m);
    ClashSplit(x, i, m);
  }

  /** Integrations never give a well-named pod a duplicate container or volume name. */
  lemma {:induction false} IntegrationsKeepNames(p: Pod, overlays: seq<Overlay>)
    requires WellNamed(p) && WithIntegrations(p, overlays).Built?
    ensures WellNamed(WithIntegrations(p, overlays).pod)
  {
    hide NoClash, DistinctNames, Merge, ModOps, ContainerNames;
    if overlays != [] {
      var n := |overlays| - 1;
      IntegrationsKeepNames(p, overlays[..n]);
      var front := WithIntegrations(p, overlays[..n]).pod;
      if overlays[n].Rendered? {
        var mods := overlays[n].mods;
        var after := Applied(front, mods);
        GrownNames(front, after, mods.additional, mods.init);
        DistinctAppend(front.volumes, mods.volumes);
        SharedNames(after, overlays[n].share);
      }
    }
  }

  lemma {:induction false} SharedNames(p: Pod, share: Option<bool>)
    ensures ContainerNames(Shared(p, share)) == ContainerNames(p) && Shared(p, share).volumes == p.volumes
  {
  }

  /** An access strategy is applied without a check: the pod stays well named exactly when the
      strategy's own names happen not to clash. */
  lemma {:induction false} StrategyKeepsNamesIff(p: Pod, s: AccessStrategy)
    requires WellNamed(p) && s.env.Some?
    ensures WellNamed(WithStrategy(p, s).pod) <==>
              NoClash(ContainerNames(p), SideNames(s.additional) + SideNames(s.init)) && NoClash(p.volumes, s.volumes)
  {
    hide NoClash, DistinctNames, Merge, StrategyOps, ContainerNames;
    var q := WithStrategy(p, s).pod;
    GrownNames(p, q, s.additional, s.init);
    DistinctAppend(p.volumes, s.volumes);
  }

  /** An instance: on any pod, a strategy that adds a container of the primary container's name. */
  lemma {:induction false} StrategyClashes(p: Pod)
    requires WellNamed(p)
    ensures var twin := Container(PRIMARY, "", [], [], "", [], []);
            !WellNamed(WithStrategy(p, AccessStrategy(Some([]), [], [], [twin], [])).pod)
  {
    var twin: Side := Container(PRIMARY, "", [], [], "", [], []);
    var s := AccessStrategy(Some([]), [], [], [twin], []);
    var more := SideNames(s.additional) + SideNames(s.init);
    assert more[0] == PRIMARY == ContainerNames(p)[0];
    StrategyKeepsNamesIff(p, s);
  }

  // ---------------------------------------------------------------- keeping the Deployment up to date

  /** The Deployment in the cluster. */
  class Deployment {
    var pod: Pod

    constructor (pod: Pod)
      ensures this.pod == pod
    {
      this.pod := pod;
    }

    /** `ensureDeploymentUpToDate`: one build to compare, a second one to write. `available` is the
        workspace's Available condition, `updateOk` the outcome of the API write. */
    method EnsureUpToDate(available: bool, ws: Slice, base: Pod, overlays: seq<Overlay>, strategy: Option<AccessStrategy>, updateOk: bool)
      returns (ok: bool)
      requires SliceOk(ws)
      modifies this, ws.arr
      ensures var desired := BuildPod(base.(env := old(ws.arr[..ws.len])), overlays, strategy);
              if !available || desired.ReplayFailed? then ok && pod == old(pod)
              else if desired.Fatal? then !ok && pod == old(pod)
              else
                && (ok <==> updateOk || desired.pod == old(pod))
                && pod == if ok then desired.pod else old(pod)
    {
      hide BuildPod, Merge, Overwritten, AllOps;
      if !available {
        return true;
      }
      ghost var was := ws.arr[..ws.len];
      var desired := BuildWorkspaceDeployment(ws, base, overlays, strategy);
      if desired.ReplayFailed? {
        return true;
      }
      if desired.Fatal? {
        return false;
      }
      if desired.pod == pod {
        return true;
      }
      ghost var k :| Holds(ws, was, AllOps(overlays, strategy), k);
      BuildsAgree(base, was, overlays, strategy, k);
      var updated := BuildWorkspaceDeployment(ws, base, overlays, strategy);
      assert updated == desired;
      if updated.Built? && updateOk {
        pod := updated.pod;
        return true;
      }
      return false;
    }
  }
}
