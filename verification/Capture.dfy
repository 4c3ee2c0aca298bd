/** Capturing the resource values an integration renders, and replaying them
    (internal/controller/resource_manager_integration.go, integration_template_resolver.go,
    integration_helpers.go). */
module Capture {
  import opened Text
  import opened Templates
  import opened PodModifications

  /** `kind` stands for apiVersion and kind together. */
  datatype ResourceRef = ResourceRef(name: string, kind: string, objectName: Field)

  datatype IntegrationTemplate = IntegrationTemplate(
    uid: string, generation: nat,
    parameters: seq<string>, resourceRefs: seq<ResourceRef>, shareProcessNamespace: Option<bool>,
    pod: Option<PodMods<Field>>, probe: Option<seq<Field>>)

  /** What the API server would answer: objects by kind, namespace and name. Anything absent is
      missing or forbidden. */
  datatype Cluster = Cluster(objects: map<(string, string, string), Object>, valid: string -> bool)

  function ProbeFields(probe: Option<seq<Field>>): seq<Field> {
    if probe.Some? then probe.value else []
  }

  /** Everything rendered at capture time. */
  function CaptureFields(template: IntegrationTemplate): seq<Field> {
    (if template.pod.Some? then PodFields(template.pod.value) else []) + ProbeFields(template.probe)
  }

  /** `ResolveResourceRef` and the read that follows it. */
  function FetchOne(ref: ResourceRef, data: Data, cluster: Cluster): Result<Object> {
    var name := Resolve(NoProvider, ref.objectName, data).result;
    if name.Err? then Err(name.failure)
    else if name.value == "" then Err(EmptyName)
    else if (ref.kind, data.workspaceNamespace, name.value) !in cluster.objects then Err(NotFetched)
    else Ok(cluster.objects[(ref.kind, data.workspaceNamespace, name.value)])
  }

  function Fetch(refs: seq<ResourceRef>, data: Data, cluster: Cluster): (r: Result<map<string, Object>>)
    ensures r.Ok? ==> forall id :: id in r.value <==> exists i :: 0 <= i < |refs| && refs[i].name == id
  {
    if refs == [] then Ok(map[])
    else
      var n := |refs| - 1;
      var rest := Fetch(refs[..n], data, cluster);
      if rest.Err? then rest
      else
        var obj := FetchOne(refs[n], data, cluster);
        if obj.Err? then Err(obj.failure) else Ok(rest.value[refs[n].name := obj.value])
  }

  /** The frozen values of one capture. */
  function CaptureValues(template: IntegrationTemplate, data: Data, cluster: Cluster): Result<map<string, string>> {
    if template.pod.None? && template.probe.None? then Ok(map[])
    else
      var resources := Fetch(template.resourceRefs, data, cluster);
      if resources.Err? then Err(resources.failure)
      else
        var o := ResolveAll(Live(resources.value, cluster.valid), CaptureFields(template), data);
        if o.result.Err? then Err(o.result.failure) else Ok(Record(map[], o.log))
  }

  method FetchReferencedResources(refs: seq<ResourceRef>, data: Data, cluster: Cluster) returns (r: Result<map<string, Object>>)
    ensures r == Fetch(refs, data, cluster)
  {
    var resources: map<string, Object> := map[];
    for i := 0 to |refs|
      invariant Fetch(refs[..i], data, cluster) == Ok(resources)
    {
      assert refs[..i + 1][..i] == refs[..i];
      var obj := FetchOne(refs[i], data, cluster);
      if obj.Err? {
        FetchStops(refs, i + 1, data, cluster);
        return Err(obj.failure);
      }
      resources := resources[refs[i].name := obj.value];
    }
    assert refs[..|refs|] == refs;
    r := Ok(resources);
  }

  lemma {:induction false} FetchStops(refs: seq<ResourceRef>, i: nat, data: Data, cluster: Cluster)
    requires i <= |refs| && Fetch(refs[..i], data, cluster).Err?
    ensures Fetch(refs, data, cluster) == Fetch(refs[..i], data, cluster)
    decreases |refs|
  {
    if i == |refs| {
      assert refs[..i] == refs;
    } else {
      assert refs[..|refs| - 1][..i] == refs[..i];
      FetchStops(refs[..|refs| - 1], i, data, cluster);
    }
  }

  method CaptureIntegrationValues(template: IntegrationTemplate, data: Data, cluster: Cluster) returns (r: Result<map<string, string>>)
    ensures r == CaptureValues(template, data, cluster)
  {
    hide ResolveAll, PodFields, Fetch, Record;
    if template.pod.None? && template.probe.None? {
      return Ok(map[]);
    }
    var resources := FetchReferencedResources(template.resourceRefs, data, cluster);
    if resources.Err? {
      return Err(resources.failure);
    }
    var resolver := new Resolver(Live(resources.value, cluster.valid));
    ghost var p := resolver.provider;
    ghost var podFields := if template.pod.Some? then PodFields(template.pod.value) else [];
    ResolveAllAppend(p, podFields, ProbeFields(template.probe), data);
    AllDone(p, data);
    NothingNoted(p, map[]);
    if template.pod.Some? {
      var mods := resolver.ResolvePodModifications(template.pod.value, data);
      if mods.Err? {
        return Err(mods.failure);
      }
    }
    ghost var first := ResolveAll(p, podFields, data).log;
    assert resolver.captured == Noted(p, map[], first);
    NotedAppend(p, map[], first, ResolveAll(p, ProbeFields(template.probe), data).log);
    var command := resolver.ResolveList(ProbeFields(template.probe), data);
    if command.Err? {
      return Err(command.failure);
    }
    r := Ok(resolver.captured);
  }

  // ---------------------------------------------------------------- capture keys

  /** No handle begins with another handle and a bar. */
  ghost predicate BarFree(handles: set<string>) {
    forall a, b :: a in handles && b in handles && a != b ==> !(a + "|" <= b)
  }

  ghost predicate KeysDistinct(handles: set<string>) {
    forall a, b, p, q :: a in handles && b in handles && CaptureKey(a, p) == CaptureKey(b, q) ==> a == b && p == q
  }

  lemma {:induction false} NoBarNoClash(handles: set<string>)
    requires forall h :: h in handles ==> '|' !in h
    ensures BarFree(handles)
  {
    forall a, b | a in handles && b in handles && a != b ensures !(a + "|" <= b) {
      BarInside(a, b);
    }
  }

  lemma {:induction false} BarInside(a: string, b: string)
    ensures a + "|" <= b ==> '|' in b
  {
    if a + "|" <= b {
      assert b[|a|] == (a + "|")[|a|] == '|';
    }
  }

  lemma {:induction false} EqualKeys(a: string, b: string, p: string, q: string)
    requires CaptureKey(a, p) == CaptureKey(b, q)
    ensures (a == b && p == q) || a + "|" <= b || b + "|" <= a
  {
    var k := CaptureKey(a, p);
    assert k[..|a|] == a && k[..|b|] == b && k[..|a| + 1] == a + "|" && k[..|b| + 1] == b + "|";
    assert k[|a| + 1..] == p && k[|b| + 1..] == q;
    if |a| < |b| {
      assert b[..|a| + 1] == k[..|a| + 1];
    } else if |b| < |a| {
      assert a[..|b| + 1] == k[..|b| + 1];
    }
  }

  /** Capture keys tell (handle, path) pairs apart exactly when no handle extends another by a bar. */
  lemma {:induction false} KeysDistinctIff(handles: set<string>)
    ensures KeysDistinct(handles) <==> BarFree(handles)
  {
    if BarFree(handles) {
      forall a, b, p, q | a in handles && b in handles && CaptureKey(a, p) == CaptureKey(b, q) ensures a == b && p == q {
        if a == b {
          assert CaptureKey(a, p)[|a| + 1..] == p && CaptureKey(b, q)[|b| + 1..] == q;
        } else {
          EqualKeys(a, b, p, q);
        }
      }
    } else {
      var a, b :| a in handles && b in handles && a != b && a + "|" <= b;
      var rest := b[|a| + 1..];
      assert CaptureKey(a, rest + "|") == CaptureKey(b, "") by { assert b == a + "|" + rest; }
    }
  }

  // ---------------------------------------------------------------- replay

  lemma {:induction false} RecordKeeps(captured: map<string, string>, log: seq<Read>, key: string)
    requires forall i :: 0 <= i < |log| ==> CaptureKey(log[i].id, log[i].path) != key
    ensures key in Record(captured, log) <==> key in captured
    ensures key in captured ==> Record(captured, log)[key] == captured[key]
    decreases log
  {
    hide CaptureKey;
    if log != [] {
      assert forall i :: 0 <= i < |log[1..]| ==> log[1..][i] == log[i + 1];
      RecordKeeps(captured[CaptureKey(log[0].id, log[0].path) := log[0].value], log[1..], key);
    }
  }

  /** Everything in the log can be looked up in the record, unless keys of different entries clash. */
  lemma {:induction false} RecordHas(captured: map<string, string>, log: seq<Read>, i: nat)
    requires i < |log|
    requires forall j, k :: 0 <= j < |log| && 0 <= k < |log| && CaptureKey(log[j].id, log[j].path) == CaptureKey(log[k].id, log[k].path)
               ==> log[j].value == log[k].value
    ensures var key := CaptureKey(log[i].id, log[i].path);
            key in Record(captured, log) && Record(captured, log)[key] == log[i].value
    decreases log
  {
    hide CaptureKey;
    var key := CaptureKey(log[i].id, log[i].path);
    var next := captured[CaptureKey(log[0].id, log[0].path) := log[0].value];
    assert forall j :: 0 <= j < |log[1..]| ==> log[1..][j] == log[j + 1];
    if later :| 0 <= later < |log[1..]| && CaptureKey(log[1..][later].id, log[1..][later].path) == key {
      RecordHas(next, log[1..], later);
    } else {
      RecordKeeps(next, log[1..], key);
    }
  }

  lemma {:induction false} ServedOnce(p: Provider, log: seq<Read>, j: nat, k: nat)
    requires p.Live? && Serves(p, log) && BarFree(p.resources.Keys) && j < |log| && k < |log|
    requires CaptureKey(log[j].id, log[j].path) == CaptureKey(log[k].id, log[k].path)
    ensures log[j].value == log[k].value
  {
    KeysDistinctIff(p.resources.Keys);
    hide CaptureKey, BarFree;
    assert Serve(p, log[j].id, log[j].path) == Ok(log[j].value) && Serve(p, log[k].id, log[k].path) == Ok(log[k].value);
  }

  /** `values` holds the captured entries, unchanged, and possibly more. */
  ghost predicate Extends(values: map<string, string>, captured: map<string, string>) {
    forall key :: key in captured ==> key in values && values[key] == captured[key]
  }

  lemma {:induction false} FrozenServes(p: Provider, log: seq<Read>, values: map<string, string>)
    requires p.Live? && Serves(p, log) && BarFree(p.resources.Keys) && Extends(values, Record(map[], log))
    ensures Serves(Frozen(values), log)
  {
    hide CaptureKey, BarFree;
    forall i | 0 <= i < |log| ensures Serve(Frozen(values), log[i].id, log[i].path) == Ok(log[i].value) {
      forall j, k | 0 <= j < |log| && 0 <= k < |log| && CaptureKey(log[j].id, log[j].path) == CaptureKey(log[k].id, log[k].path)
        ensures log[j].value == log[k].value
      {
        ServedOnce(p, log, j, k);
      }
      RecordHas(map[], log, i);
    }
  }

  /** Replay equals capture, for any list of fields: whatever the live rendering produced, the frozen
      values produce again, without the resources. */
  lemma {:induction false} ReplayFields(p: Provider, fs: seq<Field>, data: Data, values: map<string, string>)
    requires p.Live? && BarFree(p.resources.Keys) && ResolveAll(p, fs, data).result.Ok?
    requires Extends(values, Record(map[], ResolveAll(p, fs, data).log))
    ensures ResolveAll(Frozen(values), fs, data) == ResolveAll(p, fs, data)
  {
    hide ResolveAll, Serves, BarFree, Extends;
    ResolveAllServed(p, fs, data);
    FrozenServes(p, ResolveAll(p, fs, data).log, values);
    ResolveAllAgrees(p, Frozen(values), fs, data);
  }

  /** The provider a capture rendered with. */
  function CaptureProvider(template: IntegrationTemplate, data: Data, cluster: Cluster): Provider
    requires Fetch(template.resourceRefs, data, cluster).Ok?
  {
    Live(Fetch(template.resourceRefs, data, cluster).value, cluster.valid)
  }

  ghost predicate GoodHandles(template: IntegrationTemplate) {
    forall i :: 0 <= i < |template.resourceRefs| ==> '|' !in template.resourceRefs[i].name
  }

  lemma {:induction false} HandlesBarFree(template: IntegrationTemplate, data: Data, cluster: Cluster)
    requires GoodHandles(template) && Fetch(template.resourceRefs, data, cluster).Ok?
    ensures BarFree(Fetch(template.resourceRefs, data, cluster).value.Keys)
  {
    NoBarNoClash(Fetch(template.resourceRefs, data, cluster).value.Keys);
  }

  /** Both the pod modifications and the probe command of a captured template replay to what the
      capture rendered, from the captured values or any larger set that agrees with them. */
  lemma {:induction false} ReplayEqualsCapture(template: IntegrationTemplate, data: Data, cluster: Cluster, values: map<string, string>)
    requires GoodHandles(template) && (template.pod.Some? || template.probe.Some?)
    requires CaptureValues(template, data, cluster).Ok? && Extends(values, CaptureValues(template, data, cluster).value)
    ensures var p := CaptureProvider(template, data, cluster);
            && (template.pod.Some? ==>
                  ResolveAll(p, PodFields(template.pod.value), data).result.Ok?
                  && ResolveAll(Frozen(values), PodFields(template.pod.value), data) == ResolveAll(p, PodFields(template.pod.value), data))
            && ResolveAll(p, ProbeFields(template.probe), data).result.Ok?
            && ResolveAll(Frozen(values), ProbeFields(template.probe), data) == ResolveAll(p, ProbeFields(template.probe), data)
  {
    hide ResolveAll, PodFields, Fetch, Record, Extends, BarFree, GoodHandles;
    var p := CaptureProvider(template, data, cluster);
    var a := if template.pod.Some? then PodFields(template.pod.value) else [];
    var b := ProbeFields(template.probe);
    HandlesBarFree(template, data, cluster);
    ReplayFields(p, a + b, data, values);
    ResolveAllAppend(p, a, b, data);
    ResolveAllServed(p, a + b, data);
    FrozenServes(p, ResolveAll(p, a + b, data).log, values);
    ServesParts(Frozen(values), ResolveAll(p, a, data).log, ResolveAll(p, b, data).log);
    ResolveAllAgrees(p, Frozen(values), a, data);
    ResolveAllAgrees(p, Frozen(values), b, data);
  }

  /** The rendered pod modifications themselves are the same, not only their fields. */
  lemma {:induction false} ReplaySamePod(template: IntegrationTemplate, data: Data, cluster: Cluster, values: map<string, string>,
                                         live: Result<PodMods<string>>, replayed: Result<PodMods<string>>)
    requires GoodHandles(template) && template.pod.Some?
    requires CaptureValues(template, data, cluster).Ok? && Extends(values, CaptureValues(template, data, cluster).value)
    requires Resolves(CaptureProvider(template, data, cluster), template.pod.value, data, live)
    requires Resolves(Frozen(values), template.pod.value, data, replayed)
    ensures live.Ok? && replayed == live
  {
    hide CaptureValues, ResolveAll, Fetch, Extends, GoodHandles, PodFields, SamePod;
    ReplayEqualsCapture(template, data, cluster, values);
    ShapesCompose(template.pod.value, live.value, replayed.value);
    PodDetermined(live.value, replayed.value);
  }

  predicate IsLower(c: char) { 'a' <= c <= 'z' }

  predicate IsAlphanumeric(c: char) { IsLower(c) || 'A' <= c <= 'Z' || '0' <= c <= '9' }

  /** The handles the API admits: a lower-case letter, then letters, digits and dashes. */
  predicate AdmittedHandle(h: string) {
    h != "" && IsLower(h[0]) && forall i :: 0 < i < |h| ==> IsAlphanumeric(h[i]) || h[i] == '-'
  }

  lemma {:induction false} AdmittedHandlesAreGood(template: IntegrationTemplate)
    requires forall i :: 0 <= i < |template.resourceRefs| ==> AdmittedHandle(template.resourceRefs[i].name)
    ensures GoodHandles(template)
  {
    forall i | 0 <= i < |template.resourceRefs|
      ensures '|' !in template.resourceRefs[i].name
    {
      var h := template.resourceRefs[i].name;
      assert AdmittedHandle(h) && forall k :: 0 <= k < |h| ==> h[k] != '|';
    }
  }

  /** Without that pattern replay could break: for handles that extend one another by a bar, whatever
      path is read of the longer one, the second value overwrites the first. */
  lemma {:induction false} ClashBreaksReplay(a: string, b: string, path: string, valid: string -> bool)
    requires a != b && a + "|" <= b && valid(path) && valid(b[|a| + 1..] + "|" + path)
    ensures exists p: Provider, fs, data ::
              && p.Live? && p.resources.Keys == {a, b} && p.valid == valid
              && ResolveAll(p, fs, data).result.Ok?
              && ResolveAll(Frozen(Record(map[], ResolveAll(p, fs, data).log)), fs, data).result != ResolveAll(p, fs, data).result
  {
    var rest := b[|a| + 1..] + "|" + path;
    assert CaptureKey(a, rest) == CaptureKey(b, path) by { assert b == a + "|" + b[|a| + 1..]; }
    var key := CaptureKey(b, path);
    var p := Live(map[a := map[rest := "1"], b := map[path := "2"]], valid);
    var data := Data("", "", map[]);
    var second := Parsed(Action(Resource(Str(b), Str(path)), Done));
    var first := Parsed(Action(Resource(Str(a), Str(rest)), Done));
    var fs := [first, second];
    var r1, r2 := Read(a, rest, "1"), Read(b, path, "2");
    RenderOne(p, a, rest, data, "1");
    RenderOne(p, b, path, data, "2");
    ResolveTwo(p, first, second, data);
    assert [r1] + [r2] == [r1, r2] && [r1, r2][1..] == [r2] && [r2][1..] == [];
    var frozen := Record(map[], [r1, r2]);
    assert Record(map[key := "2"], []) == map[key := "2"];
    assert map[key := "1"][key := "2"] == map[key := "2"];
    assert Record(map[key := "1"], [r2]) == map[key := "2"];
    assert frozen == map[key := "2"];
    RenderOne(Frozen(frozen), a, rest, data, "2");
    RenderOne(Frozen(frozen), b, path, data, "2");
    ResolveTwo(Frozen(frozen), first, second, data);
    assert ["1", "2"][0] != ["2", "2"][0];
  }

  lemma {:induction false} ResolveTwo(p: Provider, first: Field, second: Field, data: Data)
    requires Resolve(p, first, data).result.Ok? && Resolve(p, second, data).result.Ok?
    ensures var a, b := Resolve(p, first, data), Resolve(p, second, data);
            ResolveAll(p, [first, second], data) == Outcome(Ok([a.result.value, b.result.value]), a.log + b.log)
  {
    hide Resolve;
    var a, b := Resolve(p, first, data), Resolve(p, second, data);
    assert [first, second][1..] == [second] && [second][1..] == [];
    assert [b.result.value] + [] == [b.result.value] && b.log + [] == b.log;
    assert ResolveAll(p, [second], data) == Outcome(Ok([b.result.value]), b.log);
    assert [a.result.value] + [b.result.value] == [a.result.value, b.result.value];
  }

  lemma {:induction false} RenderOne(p: Provider, id: string, path: string, data: Data, value: string)
    requires Serve(p, id, path) == Ok(value)
    ensures Resolve(p, Parsed(Action(Resource(Str(id), Str(path)), Done)), data) == Outcome(Ok(value), [Read(id, path, value)])
  {
    var e := Resource(Str(id), Str(path));
    assert Eval(p, e, data) == Outcome(Ok(value), [Read(id, path, value)]) by {
      assert Eval(p, Str(id), data) == Outcome(Ok(id), []) && Eval(p, Str(path), data) == Outcome(Ok(path), []);
      assert [] + [] + [Read(id, path, value)] == [Read(id, path, value)];
    }
    assert Render(p, Done, data) == Outcome(Ok(""), []);
    assert value + "" == value;
  }
}
