/** What a finished pod consists of (internal/controller/deployment_builder.go,
    deployment_builder_integration.go, deployment_builder_access.go): the layers, applied one by one with a
    name check each, amount to everything they ask for taken together. */
module PodLayers {
  import opened Text
  import opened PodModifications
  import opened EnvMerge
  import opened PodBuild

  const NOTHING := PodMods<string>.PodMods([], [], [], Some(PrimaryMods([], [])))

  function Primary(m: PodMods<string>): PrimaryMods<string> {
    if m.primary.Some? then m.primary.value else PrimaryMods([], [])
  }

  function Plus(a: PodMods<string>, b: PodMods<string>): PodMods<string> {
    var x, y := Primary(a), Primary(b);
    PodMods(a.additional + b.additional, a.init + b.init, a.volumes + b.volumes,
            Some(PrimaryMods(x.mergeEnv + y.mergeEnv, x.mounts + y.mounts)))
  }

  function ModsOf(o: Overlay): PodMods<string> { if o.Rendered? then o.mods else NOTHING }

  /** Everything the rendered integrations ask for, in their order. */
  function Asked(overlays: seq<Overlay>): PodMods<string> {
    if overlays == [] then NOTHING else Plus(ModsOf(overlays[0]), Asked(overlays[1..]))
  }

  predicate AllRender(overlays: seq<Overlay>) { forall i :: 0 <= i < |overlays| ==> !overlays[i].Unrenderable? }

  predicate Shares(overlays: seq<Overlay>) {
    exists i :: 0 <= i < |overlays| && overlays[i].Rendered? && overlays[i].share == Some(true)
  }

  // ---------------------------------------------------------------- adding up

  lemma {:induction false} PlusAssociates(a: PodMods<string>, b: PodMods<string>, c: PodMods<string>)
    ensures Plus(Plus(a, b), c) == Plus(a, Plus(b, c))
  {
    var x, y, z := Primary(a), Primary(b), Primary(c);
    assert a.additional + b.additional + c.additional == a.additional + (b.additional + c.additional);
    assert a.init + b.init + c.init == a.init + (b.init + c.init);
    assert a.volumes + b.volumes + c.volumes == a.volumes + (b.volumes + c.volumes);
    assert x.mergeEnv + y.mergeEnv + z.mergeEnv == x.mergeEnv + (y.mergeEnv + z.mergeEnv);
    assert x.mounts + y.mounts + z.mounts == x.mounts + (y.mounts + z.mounts);
  }

  lemma {:induction false} AskedSnoc(overlays: seq<Overlay>, o: Overlay)
    ensures Asked(overlays + [o]) == Plus(Asked(overlays), ModsOf(o))
  {
    hide Plus;
    if overlays == [] {
      assert overlays + [o] == [o] && [o][1..] == [];
      NothingAdds(ModsOf(o));
    } else {
      assert (overlays + [o])[0] == overlays[0] && (overlays + [o])[1..] == overlays[1..] + [o];
      AskedSnoc(overlays[1..], o);
      PlusAssociates(ModsOf(overlays[0]), Asked(overlays[1..]), ModsOf(o));
    }
  }

  lemma {:induction false} NothingAdds(m: PodMods<string>)
    ensures Plus(m, NOTHING) == Plus(NOTHING, m)
  {
    var x := Primary(m);
    assert m.additional + [] == [] + m.additional && m.init + [] == [] + m.init && m.volumes + [] == [] + m.volumes;
    assert x.mergeEnv + [] == [] + x.mergeEnv && x.mounts + [] == [] + x.mounts;
  }

  // ---------------------------------------------------------------- names

  predicate Apart(names: seq<string>, more: seq<string>) { forall n :: n in more ==> n !in names }

  lemma {:induction false} ClashByMembers(names: seq<string>, more: seq<string>)
    ensures NoClash(names, more) <==> DistinctNames(more) && Apart(names, more)
  {
    hide DistinctNames;
    assert forall i :: 0 <= i < |names| ==> names[i] in names;
    assert forall j :: 0 <= j < |more| ==> more[j] in more;
  }

  /** New names in two steps, or all at once in another order. */
  lemma {:induction false} ClashTwice(names: seq<string>, between: seq<string>, first: seq<string>, second: seq<string>, all: seq<string>)
    requires forall n :: n in between <==> n in names || n in first
    requires forall n :: n in all <==> n in first || n in second
    requires DistinctNames(all) <==> DistinctNames(first + second)
    ensures NoClash(names, all) <==> NoClash(names, first) && NoClash(between, second)
  {
    DistinctAppend(first, second);
    hide DistinctNames, NoClash;
    ClashByMembers(names, all);
    ClashByMembers(names, first);
    ClashByMembers(between, second);
    ClashByMembers(first, second);
  }

  /** The names of a sum, block by block. */
  lemma {:induction false} SumNames(a: PodMods<string>, b: PodMods<string>)
    ensures DistinctNames(ModNames(Plus(a, b))) <==> DistinctNames(ModNames(a) + ModNames(b))
    ensures forall n :: n in ModNames(Plus(a, b)) <==> n in ModNames(a) || n in ModNames(b)
  {
    hide DistinctNames, SideNames;
    var x, y, z, w := SideNames(a.additional), SideNames(b.additional), SideNames(a.init), SideNames(b.init);
    SideAppend(a.additional, b.additional);
    SideAppend(a.init, b.init);
    assert ModNames(Plus(a, b)) == x + y + (z + w) == x + y + z + w;
    assert ModNames(a) + ModNames(b) == x + z + (y + w) == x + z + y + w;
    DistinctSwap(x, y, z);
    DistinctAppend(x + y + z, w);
    DistinctAppend(x + z + y, w);
    hide NoClash;
    SameClash(x + y + z, x + z + y, w);
  }

  lemma {:induction false} SameClash(a: seq<string>, b: seq<string>, more: seq<string>)
    requires forall n :: n in a <==> n in b
    ensures NoClash(a, more) <==> NoClash(b, more)
  {
    hide NoClash;
    ClashByMembers(a, more);
    ClashByMembers(b, more);
  }

  lemma {:induction false} SideAppend(a: seq<Side>, b: seq<Side>)
    ensures SideNames(a + b) == SideNames(a) + SideNames(b)
  {
  }

  /** The pod has these layers over `base`, whatever its env and its sharing. */
  predicate Layered(base: Pod, m: PodMods<string>, p: Pod) {
    && p.containers == base.containers + m.additional && p.init == base.init + m.init
    && p.volumes == base.volumes + m.volumes && p.mounts == base.mounts + Primary(m).mounts
  }

  lemma {:induction false} LayeredNames(base: Pod, m: PodMods<string>, p: Pod)
    requires Layered(base, m, p)
    ensures forall n :: n in ContainerNames(p) <==> n in ContainerNames(base) || n in ModNames(m)
  {
    hide SideNames;
    SideAppend(base.containers, m.additional);
    SideAppend(base.init, m.init);
  }

  /** What fits in two steps fits at once, and the other way round. */
  lemma {:induction false} FitsTwice(base: Pod, a: PodMods<string>, p: Pod, b: PodMods<string>)
    requires Layered(base, a, p)
    ensures Applicable(base, Plus(a, b)) <==> Applicable(base, a) && Applicable(p, b)
  {
    hide NoClash, DistinctNames, ContainerNames, ModNames;
    SumNames(a, b);
    LayeredNames(base, a, p);
    ClashTwice(ContainerNames(base), ContainerNames(p), ModNames(a), ModNames(b), ModNames(Plus(a, b)));
    ClashTwice(base.volumes, p.volumes, a.volumes, b.volumes, a.volumes + b.volumes);
  }

  lemma {:induction false} NothingFits(base: Pod)
    ensures Applicable(base, NOTHING) && Layered(base, NOTHING, base)
  {
    assert ModNames(NOTHING) == [];
  }

  lemma {:induction false} LayeredTwice(base: Pod, a: PodMods<string>, p: Pod, b: PodMods<string>, q: Pod)
    requires Layered(base, a, p) && Layered(p, b, q)
    ensures Layered(base, Plus(a, b), q)
  {
  }

  lemma {:induction false} AppliedLayers(p: Pod, m: PodMods<string>, share: Option<bool>)
    ensures Layered(p, m, Shared(Applied(p, m), share))
    ensures Shared(Applied(p, m), share).shareProcessNamespace <==> p.shareProcessNamespace || share == Some(true)
  {
    hide Merge, ModOps;
  }

  // ---------------------------------------------------------------- the integrations

  /** The integrations are applied exactly when all of them render and what they ask for, taken together,
      clashes neither with the pod nor with itself. The pod then has all of it, in order, behind its own,
      and shares processes if it did or any integration asks for it. */
  lemma {:induction false} IntegrationsAddUp(base: Pod, overlays: seq<Overlay>)
    ensures var b := WithIntegrations(base, overlays);
            && (b.Built? <==> AllRender(overlays) && Applicable(base, Asked(overlays)))
            && (b.ReplayFailed? <==> !b.Built?)
            && (b.Built? ==> Layered(base, Asked(overlays), b.pod))
            && (b.Built? ==> (b.pod.shareProcessNamespace <==> base.shareProcessNamespace || Shares(overlays)))
  {
    hide Applicable, Applied, Shared, Layered, Plus;
    if overlays == [] {
      NothingFits(base);
    } else {
      var n := |overlays| - 1;
      var front, o := overlays[..n], overlays[n];
      var b := WithIntegrations(base, front);
      IntegrationsAddUp(base, front);
      assert overlays == front + [o];
      AskedSnoc(front, o);
      SharesSnoc(front, o);
      hide Asked, Shares;
      if b.Built? {
        FitsTwice(base, Asked(front), b.pod, ModsOf(o));
        NothingFits(b.pod);
        if o.Rendered? {
          AppliedLayers(b.pod, o.mods, o.share);
          LayeredTwice(base, Asked(front), b.pod, o.mods, Shared(Applied(b.pod, o.mods), o.share));
        } else {
          LayeredTwice(base, Asked(front), b.pod, NOTHING, b.pod);
        }
      } else if AllRender(front) {
        NotTwice(base, Asked(front), ModsOf(o));
      }
    }
  }

  lemma {:induction false} SharesSnoc(overlays: seq<Overlay>, o: Overlay)
    ensures Shares(overlays + [o]) <==> Shares(overlays) || (o.Rendered? && o.share == Some(true))
    ensures AllRender(overlays + [o]) <==> AllRender(overlays) && !o.Unrenderable?
  {
    var all := overlays + [o];
    assert all[|overlays|] == o;
    assert forall i :: 0 <= i < |overlays| ==> all[i] == overlays[i];
  }

  lemma {:induction false} NotTwice(base: Pod, a: PodMods<string>, b: PodMods<string>)
    requires !Applicable(base, a)
    ensures !Applicable(base, Plus(a, b))
  {
    hide Applicable, Plus, Layered;
    var p := base.(containers := base.containers + a.additional, init := base.init + a.init,
                   volumes := base.volumes + a.volumes, mounts := base.mounts + Primary(a).mounts);
    assert Layered(base, a, p) by { IsLayered(base, a); }
    FitsTwice(base, a, p, b);
  }

  lemma {:induction false} IsLayered(base: Pod, a: PodMods<string>)
    ensures Layered(base, a, base.(containers := base.containers + a.additional, init := base.init + a.init,
                                   volumes := base.volumes + a.volumes, mounts := base.mounts + Primary(a).mounts))
  {
  }

  // ---------------------------------------------------------------- the whole pod

  /** A build fails in replay exactly when an integration does not render or clashes, and fatally exactly
      when only the strategy's env does not resolve. A finished pod has the base's containers, init
      containers, volumes and mounts, then the integrations', then the strategy's. */
  lemma {:induction false} FinishedPod(base: Pod, overlays: seq<Overlay>, strategy: Option<AccessStrategy>)
    ensures var b, m := BuildPod(base, overlays, strategy), Asked(overlays);
            && (b.ReplayFailed? <==> !(AllRender(overlays) && Applicable(base, m)))
            && (b.Fatal? <==> AllRender(overlays) && Applicable(base, m) && strategy.Some? && strategy.value.env.None?)
            && (b.Built? && strategy.None? ==> Layered(base, m, b.pod))
            && (b.Built? && strategy.Some? ==>
                  var s := strategy.value;
                  && b.pod.containers == base.containers + m.additional + s.additional
                  && b.pod.init == base.init + m.init + s.init
                  && b.pod.volumes == base.volumes + m.volumes + s.volumes
                  && b.pod.mounts == base.mounts + Primary(m).mounts + s.mounts)
            && (b.Built? ==> (b.pod.shareProcessNamespace <==> base.shareProcessNamespace || Shares(overlays)))
  {
    hide WithIntegrations, Merge, Asked, Shares, Applicable, AllRender;
    IntegrationsAddUp(base, overlays);
  }
}
