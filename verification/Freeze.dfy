/** Freezing integration values in the status of a workspace
    (internal/controller/resource_manager_integration.go, integration_helpers.go): one reconcile, and
    what every run of reconciles preserves while templates, resources and references change. */
module Freeze {
  import opened Text
  import opened Templates
  import TemplateMeaning
  import opened PodModifications
  import opened Capture
  import opened CanonicalInput

  datatype WorkspaceId = WorkspaceId(name: string, namespace: string)

  /** A frozen record. `parametersHash` is the input token in place of its digest. */
  datatype Record = Record(name: string, parametersHash: string, version: string, values: map<string, string>)

  /** What one reconcile can read. A template that is not there is missing or unreadable. */
  datatype World = World(templates: map<(string, string), IntegrationTemplate>, cluster: Cluster)

  function DataFor(ws: WorkspaceId, ref: Ref): Data {
    Data(ws.name, ws.namespace, ParametersMap(ref.parameters))
  }

  /** In a template the workspace's fields stand for its name and namespace, and a parameter for the last
      value the reference gives it. */
  lemma {:induction false} DataSays(p: Provider, ws: WorkspaceId, ref: Ref, i: nat)
    ensures TemplateMeaning.StandsFor(p, WorkspaceName, DataFor(ws, ref), ws.name)
    ensures TemplateMeaning.StandsFor(p, WorkspaceNamespace, DataFor(ws, ref), ws.namespace)
    ensures var ps := ref.parameters;
            i < |ps| && (forall j :: i < j < |ps| ==> ps[j].name != ps[i].name) ==>
              TemplateMeaning.StandsFor(p, Param(ps[i].name), DataFor(ws, ref), ps[i].value)
  {
    if i < |ref.parameters| && forall j :: i < j < |ref.parameters| ==> ref.parameters[j].name != ref.parameters[i].name {
      LastParameter(ref.parameters, i);
    }
  }

  lemma {:induction false} LastParameter(ps: seq<Parameter>, i: nat)
    requires i < |ps| && forall j :: i < j < |ps| ==> ps[j].name != ps[i].name
    ensures ps[i].name in ParametersMap(ps) && ParametersMap(ps)[ps[i].name] == ps[i].value
    decreases |ps|
  {
    if i < |ps| - 1 {
      LastParameter(ps[..|ps| - 1], i);
    }
  }

  function LoadTemplate(ws: WorkspaceId, ref: Ref, world: World): Option<IntegrationTemplate> {
    var key := (if ref.namespace == "" then ws.namespace else ref.namespace, ref.name);
    if key in world.templates then Some(world.templates[key]) else None
  }

  /** A reference means the template of its own namespace, or of the workspace's if it names none, and no
      other template has a say. */
  lemma {:induction false} TemplateHome(ws: WorkspaceId, ref: Ref, world: World, t: IntegrationTemplate)
    ensures LoadTemplate(ws, ref, world) == Some(t) <==>
              || (ref.namespace != "" && (ref.namespace, ref.name) in world.templates && world.templates[(ref.namespace, ref.name)] == t)
              || (ref.namespace == "" && (ws.namespace, ref.name) in world.templates && world.templates[(ws.namespace, ref.name)] == t)
  {
  }

  function TemplateVersion(t: IntegrationTemplate): string {
    t.uid + "." + Decimal(t.generation)
  }

  /** The version text tells UID and generation apart, whatever the UID looks like. */
  lemma {:induction false} VersionIdentifies(a: IntegrationTemplate, b: IntegrationTemplate)
    ensures TemplateVersion(a) == TemplateVersion(b) <==> a.uid == b.uid && a.generation == b.generation
  {
    hide Decimal;
    if TemplateVersion(a) == TemplateVersion(b) {
      var da, db := Decimal(a.generation), Decimal(b.generation);
      SplitAtLastDot(a.uid, da, b.uid, db);
      assert Value(da) == a.generation && Value(db) == b.generation;
    }
  }

  lemma {:induction false} SplitAtLastDot(a: string, x: string, b: string, y: string)
    requires AllDigits(x) && AllDigits(y) && a + "." + x == b + "." + y
    ensures a == b && x == y
  {
    var t := a + "." + x;
    assert t[|a|] == '.' && t[|b|] == '.';
    assert forall i :: |a| < i < |t| ==> t[i] == x[i - |a| - 1];
    assert forall i :: |b| < i < |t| ==> t[i] == y[i - |b| - 1];
    assert !(|a| < |b|) && !(|b| < |a|);
    assert t[..|a|] == a && t[..|b|] == b && t[|a| + 1..] == x && t[|b| + 1..] == y;
  }

  // ---------------------------------------------------------------- one reconcile

  /** `findResolvedIntegration`: the first record of that name. */
  function Find(records: seq<Record>, name: string): (r: Option<Record>)
    ensures r.Some? ==> r.value in records && r.value.name == name
    ensures r.None? ==> forall i :: 0 <= i < |records| ==> records[i].name != name
  {
    if records == [] then None
    else if records[0].name == name then Some(records[0])
    else Find(records[1..], name)
  }

  /** `hasIntegrationChanged`. */
  predicate Changed(existing: Option<Record>, hash: string, version: string) {
    existing.None? || existing.value.parametersHash != hash || existing.value.version != version
  }

  ghost function InputToken(ref: Ref): (t: string)
    ensures IsToken(ref, t)
  {
    TokenExists(ref);
    var t :| IsToken(ref, t);
    t
  }

  /** The record kept for one reference: the existing one unless a recapture is due and succeeds. */
  ghost function NextRecord(ws: WorkspaceId, ref: Ref, existing: Option<Record>, world: World): (r: Option<Record>) {
    var template := LoadTemplate(ws, ref, world);
    if template.None? || !Changed(existing, InputToken(ref), TemplateVersion(template.value)) then existing
    else
      var values := CaptureValues(template.value, DataFor(ws, ref), world.cluster);
      if values.Err? then existing
      else Some(Record(ref.name, InputToken(ref), TemplateVersion(template.value), values.value))
  }

  /** The reference could be read, and captured if that was due. */
  ghost predicate Healthy(ws: WorkspaceId, ref: Ref, existing: Option<Record>, world: World) {
    var template := LoadTemplate(ws, ref, world);
    && template.Some?
    && (Changed(existing, InputToken(ref), TemplateVersion(template.value)) ==>
          CaptureValues(template.value, DataFor(ws, ref), world.cluster).Ok?)
  }

  ghost predicate AllHealthy(ws: WorkspaceId, refs: seq<Ref>, n: nat, records: seq<Record>, world: World)
    requires n <= |refs|
  {
    forall i :: 0 <= i < n ==> Healthy(ws, refs[i], Find(records, refs[i].name), world)
  }

  /** The record was captured from these inputs and this version of the template. */
  ghost predicate UpToDate(existing: Option<Record>, ref: Ref, t: IntegrationTemplate) {
    && existing.Some?
    && existing.value.parametersHash == InputToken(ref) && existing.value.version == TemplateVersion(t)
  }

  ghost function Reconciled(ws: WorkspaceId, refs: seq<Ref>, records: seq<Record>, world: World): seq<Record> {
    if refs == [] then []
    else
      var n := |refs| - 1;
      var last := NextRecord(ws, refs[n], Find(records, refs[n].name), world);
      Reconciled(ws, refs[..n], records, world) + if last.Some? then [last.value] else []
  }

  /** The templates a reconcile hands to the build, after the first `n` references. */
  ghost predicate Loaded(ws: WorkspaceId, refs: seq<Ref>, n: nat, world: World, templates: map<string, IntegrationTemplate>)
    requires n <= |refs|
  {
    && (forall i :: 0 <= i < n && LoadTemplate(ws, refs[i], world).Some? ==> refs[i].name in templates)
    && forall name :: name in templates ==>
         exists i :: 0 <= i < n && refs[i].name == name && LoadTemplate(ws, refs[i], world) == Some(templates[name])
  }

  /** The body of the loop over references: keep, recapture, or keep because the recapture failed. */
  method ReconcileOne(ws: WorkspaceId, ref: Ref, existing: Option<Record>, template: Option<IntegrationTemplate>, world: World)
    returns (next: Option<Record>, ok: bool)
    requires template == LoadTemplate(ws, ref, world)
    ensures next == NextRecord(ws, ref, existing, world)
    ensures ok <==> Healthy(ws, ref, existing, world)
    ensures ok <==> template.Some? && UpToDate(next, ref, template.value)
    ensures ok <==> && template.Some?
                    && (UpToDate(existing, ref, template.value) || CaptureValues(template.value, DataFor(ws, ref), world.cluster).Ok?)
    ensures !ok || UpToDate(existing, ref, template.value) ==> next == existing
    ensures ok && !UpToDate(existing, ref, template.value) ==>
              next == Some(Record(ref.name, InputToken(ref), TemplateVersion(template.value),
                                  CaptureValues(template.value, DataFor(ws, ref), world.cluster).value))
  {
    hide CaptureValues, IsToken, ParametersMap, TemplateVersion, LoadTemplate;
    var hash := Token(ref);
    TokenUnique(ref, hash, InputToken(ref));
    if template.None? {
      return existing, false;
    }
    var version := TemplateVersion(template.value);
    if !Changed(existing, hash, version) {
      return existing, true;
    }
    var values := CaptureIntegrationValues(template.value, DataFor(ws, ref), world.cluster);
    if values.Err? {
      return existing, false;
    }
    return Some(Record(ref.name, hash, version, values.value)), true;
  }

  class Workspace {
    const id: WorkspaceId
    var refs: seq<Ref>
    var resolved: seq<Record>

    constructor (id: WorkspaceId, refs: seq<Ref>)
      ensures this.id == id && this.refs == refs && resolved == []
    {
      this.id := id;
      this.refs := refs;
      resolved := [];
    }

    method ReconcileIntegrations(world: World) returns (templates: map<string, IntegrationTemplate>, ok: bool)
      modifies this`resolved
      ensures resolved == Reconciled(id, refs, old(resolved), world)
      ensures Loaded(id, refs, |refs|, world, templates)
      ensures ok <==> AllHealthy(id, refs, |refs|, old(resolved), world)
      ensures UniqueRefs(refs) ==> (ok <==> AllUpToDate(id, refs, world, resolved))
    {
      hide NextRecord, Loaded, LoadTemplate, Find, Healthy, AllUpToDate, UniqueRefs, UpToDate, CaptureValues, TemplateVersion, DataFor;
      templates := map[];
      ok := true;
      var kept: seq<Record> := [];
      NothingLoaded(id, refs, world);
      for i := 0 to |refs|
        invariant kept == Reconciled(id, refs[..i], resolved, world)
        invariant Loaded(id, refs, i, world, templates)
        invariant ok <==> AllHealthy(id, refs, i, resolved, world)
        invariant resolved == old(resolved)
      {
        var ref := refs[i];
        assert refs[..i + 1][..i] == refs[..i];
        var existing := Find(resolved, ref.name);
        var template := LoadTemplate(id, ref, world);
        LoadedStep(id, refs, world, templates, i);
        if template.Some? {
          templates := templates[ref.name := template.value];
        }
        var next, good := ReconcileOne(id, ref, existing, template, world);
        if next.Some? {
          kept := kept + [next.value];
        }
        ok := ok && good;
      }
      assert refs[..|refs|] == refs;
      HealthyReconcile(id, refs, resolved, world);
      resolved := kept;
    }
  }

  lemma {:induction false} NothingLoaded(ws: WorkspaceId, refs: seq<Ref>, world: World)
    ensures Loaded(ws, refs, 0, world, map[])
  {
  }

  lemma {:induction false} LoadedStep(ws: WorkspaceId, refs: seq<Ref>, world: World, templates: map<string, IntegrationTemplate>, i: nat)
    requires i < |refs| && Loaded(ws, refs, i, world, templates)
    ensures var t := LoadTemplate(ws, refs[i], world);
            Loaded(ws, refs, i + 1, world, if t.Some? then templates[refs[i].name := t.value] else templates)
  {
    hide LoadTemplate;
  }

  // ---------------------------------------------------------------- records by name

  predicate UniqueRefs(refs: seq<Ref>) {
    forall i, j :: 0 <= i < j < |refs| ==> refs[i].name != refs[j].name
  }

  predicate Unreferenced(refs: seq<Ref>, name: string) {
    forall i :: 0 <= i < |refs| ==> refs[i].name != name
  }

  lemma {:induction false} FindAppend(a: seq<Record>, b: seq<Record>, name: string)
    ensures Find(a + b, name) == if Find(a, name).Some? then Find(a, name) else Find(b, name)
  {
    if a == [] {
      assert a + b == b;
    } else {
      assert (a + b)[1..] == a[1..] + b;
      FindAppend(a[1..], b, name);
    }
  }

  /** A reference finds exactly its own next record; a name that is no longer referenced finds none. */
  lemma {:induction false} FindReconciled(ws: WorkspaceId, refs: seq<Ref>, records: seq<Record>, world: World, name: string)
    requires UniqueRefs(refs)
    ensures forall i :: 0 <= i < |refs| && refs[i].name == name ==>
              Find(Reconciled(ws, refs, records, world), name) == NextRecord(ws, refs[i], Find(records, name), world)
    ensures Unreferenced(refs, name) ==> Find(Reconciled(ws, refs, records, world), name) == None
  {
    hide LoadTemplate, CaptureValues, DataFor, TemplateVersion, IsToken;
    if refs != [] {
      var n := |refs| - 1;
      var front, last := refs[..n], NextRecord(ws, refs[n], Find(records, refs[n].name), world);
      FindReconciled(ws, front, records, world, name);
      var tail := if last.Some? then [last.value] else [];
      FindAppend(Reconciled(ws, front, records, world), tail, name);
      assert last.Some? ==> tail[0].name == refs[n].name;
      forall i | 0 <= i < |refs| && refs[i].name == name
        ensures Find(Reconciled(ws, refs, records, world), name) == NextRecord(ws, refs[i], Find(records, name), world)
      {
        if i < n {
          assert front[i] == refs[i];
          assert Find(tail, name) == None;
        } else {
          assert Unreferenced(front, name);
        }
      }
    }
  }

  lemma {:induction false} TokenExists(ref: Ref)
    ensures exists t :: IsToken(ref, t)
  {
    hide SortedKeys, Encode;
    var m := ParametersMap(ref.parameters);
    var ks := SortedKeysExist(m.Keys);
    KeysInSet(ks, m.Keys);
    var t := Encode(ref.namespace, ref.name, ks, m);
    assert IsTokenBy(ref, ks, t);
    assert IsToken(ref, t);
  }

  // ---------------------------------------------------------------- runs

  /** Reconciles of one workspace whose status writes succeeded. Between two of them anything may
      happen: `specs` are the references the user asked for, `worlds` what could be read. */
  ghost predicate Run(ws: WorkspaceId, specs: seq<seq<Ref>>, worlds: seq<World>, statuses: seq<seq<Record>>) {
    && |specs| == |worlds| && |statuses| == |specs| + 1 && statuses[0] == []
    && forall i :: 0 <= i < |specs| ==>
         UniqueRefs(specs[i]) && statuses[i + 1] == Reconciled(ws, specs[i], statuses[i], worlds[i])
  }

  /** `rec` is what one single capture, at step `k`, recorded for `ref` from template `t`. */
  ghost predicate CapturedAt(ws: WorkspaceId, specs: seq<seq<Ref>>, worlds: seq<World>, k: nat, ref: Ref, t: IntegrationTemplate, rec: Record) {
    && k < |specs| && k < |worlds| && ref in specs[k]
    && LoadTemplate(ws, ref, worlds[k]) == Some(t)
    && rec.name == ref.name && rec.parametersHash == InputToken(ref) && rec.version == TemplateVersion(t)
    && CaptureValues(t, DataFor(ws, ref), worlds[k].cluster) == Ok(rec.values)
  }

  /** Every frozen record of every reachable status has its hash, version and values from one capture. */
  lemma {:induction false} Provenance(ws: WorkspaceId, specs: seq<seq<Ref>>, worlds: seq<World>, statuses: seq<seq<Record>>,
                                      i: nat, name: string) returns (k: nat, ref: Ref, t: IntegrationTemplate)
    requires Run(ws, specs, worlds, statuses) && i < |statuses| && Find(statuses[i], name).Some?
    ensures k < i && CapturedAt(ws, specs, worlds, k, ref, t, Find(statuses[i], name).value)
    decreases i
  {
    hide LoadTemplate, CaptureValues, DataFor, TemplateVersion, IsToken, Reconciled;
    var refs := specs[i - 1];
    FindReconciled(ws, refs, statuses[i - 1], worlds[i - 1], name);
    var j :| 0 <= j < |refs| && refs[j].name == name;
    var before, after := Find(statuses[i - 1], name), Find(statuses[i], name);
    assert after == NextRecord(ws, refs[j], before, worlds[i - 1]);
    if after == before {
      k, ref, t := Provenance(ws, specs, worlds, statuses, i - 1, name);
    } else {
      k, ref, t := i - 1, refs[j], LoadTemplate(ws, refs[j], worlds[i - 1]).value;
    }
  }

  /** No record survives the removal of its reference. */
  lemma {:induction false} RemovedLeaveNothing(ws: WorkspaceId, specs: seq<seq<Ref>>, worlds: seq<World>, statuses: seq<seq<Record>>,
                                               i: nat, name: string)
    requires Run(ws, specs, worlds, statuses) && 0 < i < |statuses|
    requires Unreferenced(specs[i - 1], name)
    ensures forall r :: r in statuses[i] ==> r.name != name
  {
    hide Reconciled;
    FindReconciled(ws, specs[i - 1], statuses[i - 1], worlds[i - 1], name);
  }

  /** From step `i` on the reference keeps its inputs, and its template, whenever it can be read at
      all, still has the version that was captured. Resources may do as they like. */
  ghost predicate Undisturbed(ws: WorkspaceId, specs: seq<seq<Ref>>, worlds: seq<World>, i: nat, j: nat, rec: Record) {
    && i <= j <= |specs| && |specs| == |worlds|
    && forall k :: i <= k < j ==> MatchedIn(ws, specs[k], worlds[k], rec)
  }

  ghost predicate MatchedIn(ws: WorkspaceId, refs: seq<Ref>, world: World, rec: Record) {
    exists ref :: ref in refs && StillMatches(ws, ref, world, rec)
  }

  ghost predicate StillMatches(ws: WorkspaceId, ref: Ref, world: World, rec: Record) {
    && ref.name == rec.name && InputToken(ref) == rec.parametersHash
    && (LoadTemplate(ws, ref, world).Some? ==> TemplateVersion(LoadTemplate(ws, ref, world).value) == rec.version)
  }

  /** The freeze holds over every undisturbed stretch of a run. */
  lemma {:induction false} FreezeHolds(ws: WorkspaceId, specs: seq<seq<Ref>>, worlds: seq<World>, statuses: seq<seq<Record>>,
                                       i: nat, j: nat, rec: Record)
    requires Run(ws, specs, worlds, statuses) && Undisturbed(ws, specs, worlds, i, j, rec)
    requires Find(statuses[i], rec.name) == Some(rec)
    ensures Find(statuses[j], rec.name) == Some(rec)
    decreases j
  {
    hide LoadTemplate, CaptureValues, DataFor, TemplateVersion, IsToken, Reconciled;
    if i < j {
      assert MatchedIn(ws, specs[j - 1], worlds[j - 1], rec);
      FreezeHolds(ws, specs, worlds, statuses, i, j - 1, rec);
      var ref :| ref in specs[j - 1] && StillMatches(ws, ref, worlds[j - 1], rec);
      FindReconciled(ws, specs[j - 1], statuses[j - 1], worlds[j - 1], rec.name);
      assert Find(statuses[j], rec.name) == NextRecord(ws, ref, Some(rec), worlds[j - 1]);
    }
  }

  /** Exactly the records that are out of date are replaced, and only by a capture that succeeds. */
  lemma {:induction false} ReplacedExactly(ws: WorkspaceId, ref: Ref, existing: Option<Record>, world: World)
    ensures var next, t := NextRecord(ws, ref, existing, world), LoadTemplate(ws, ref, world);
            if t.Some? && !UpToDate(existing, ref, t.value) && CaptureValues(t.value, DataFor(ws, ref), world.cluster).Ok? then
              next == Some(Record(ref.name, InputToken(ref), TemplateVersion(t.value),
                                  CaptureValues(t.value, DataFor(ws, ref), world.cluster).value))
            else next == existing
  {
    hide LoadTemplate, CaptureValues, DataFor, TemplateVersion, IsToken;
  }

  /** A healthy reference has a record of its current inputs and template afterwards. */
  lemma {:induction false} HealthyIsUpToDate(ws: WorkspaceId, ref: Ref, existing: Option<Record>, world: World)
    ensures Healthy(ws, ref, existing, world) <==>
              && LoadTemplate(ws, ref, world).Some?
              && UpToDate(NextRecord(ws, ref, existing, world), ref, LoadTemplate(ws, ref, world).value)
  {
    hide LoadTemplate, CaptureValues, DataFor, TemplateVersion, IsToken;
  }

  /** In every run, a record that is out of date when its template can be read and captured is the
      capture of that step, whatever it held before. */
  lemma {:induction false} StaleIsReplaced(ws: WorkspaceId, specs: seq<seq<Ref>>, worlds: seq<World>, statuses: seq<seq<Record>>,
                                           i: nat, ref: Ref, t: IntegrationTemplate, values: map<string, string>)
    requires Run(ws, specs, worlds, statuses) && 0 < i < |statuses| && ref in specs[i - 1]
    requires LoadTemplate(ws, ref, worlds[i - 1]) == Some(t)
    requires CaptureValues(t, DataFor(ws, ref), worlds[i - 1].cluster) == Ok(values)
    requires !UpToDate(Find(statuses[i - 1], ref.name), ref, t)
    ensures Find(statuses[i], ref.name) == Some(Record(ref.name, InputToken(ref), TemplateVersion(t), values))
  {
    hide LoadTemplate, CaptureValues, DataFor, TemplateVersion, IsToken, Reconciled, NextRecord;
    FindReconciled(ws, specs[i - 1], statuses[i - 1], worlds[i - 1], ref.name);
    ReplacedExactly(ws, ref, Find(statuses[i - 1], ref.name), worlds[i - 1]);
  }

  /** In every run, a step that is healthy for a reference leaves its record up to date. */
  lemma {:induction false} HealthyStep(ws: WorkspaceId, specs: seq<seq<Ref>>, worlds: seq<World>, statuses: seq<seq<Record>>, i: nat, ref: Ref)
    requires Run(ws, specs, worlds, statuses) && 0 < i < |statuses| && ref in specs[i - 1]
    ensures Healthy(ws, ref, Find(statuses[i - 1], ref.name), worlds[i - 1]) <==>
              && LoadTemplate(ws, ref, worlds[i - 1]).Some?
              && UpToDate(Find(statuses[i], ref.name), ref, LoadTemplate(ws, ref, worlds[i - 1]).value)
  {
    hide LoadTemplate, CaptureValues, DataFor, TemplateVersion, IsToken, Reconciled, NextRecord, Healthy;
    FindReconciled(ws, specs[i - 1], statuses[i - 1], worlds[i - 1], ref.name);
    HealthyIsUpToDate(ws, ref, Find(statuses[i - 1], ref.name), worlds[i - 1]);
  }

  /** Every reference of a spec has a record of its current inputs and template. */
  ghost predicate AllUpToDate(ws: WorkspaceId, refs: seq<Ref>, world: World, records: seq<Record>) {
    forall i :: 0 <= i < |refs| ==>
      && LoadTemplate(ws, refs[i], world).Some?
      && UpToDate(Find(records, refs[i].name), refs[i], LoadTemplate(ws, refs[i], world).value)
  }

  lemma {:induction false} HealthyReconcile(ws: WorkspaceId, refs: seq<Ref>, records: seq<Record>, world: World)
    ensures UniqueRefs(refs) ==>
              (AllHealthy(ws, refs, |refs|, records, world) <==> AllUpToDate(ws, refs, world, Reconciled(ws, refs, records, world)))
  {
    hide LoadTemplate, UpToDate, Find, Reconciled, NextRecord, Healthy;
    forall i | 0 <= i < |refs| && UniqueRefs(refs)
      ensures Healthy(ws, refs[i], Find(records, refs[i].name), world) <==>
                && LoadTemplate(ws, refs[i], world).Some?
                && UpToDate(Find(Reconciled(ws, refs, records, world), refs[i].name), refs[i], LoadTemplate(ws, refs[i], world).value)
    {
      FindReconciled(ws, refs, records, world, refs[i].name);
      HealthyIsUpToDate(ws, refs[i], Find(records, refs[i].name), world);
    }
  }

  // ---------------------------------------------------------------- what the build renders

  /** `buildIntegrationPodModifications`: the frozen values on the template's pod shape. */
  ghost predicate Rendered(ws: WorkspaceId, ref: Ref, rec: Record, t: IntegrationTemplate, r: Result<PodMods<string>>)
    requires t.pod.Some?
  {
    Resolves(Frozen(rec.values), t.pod.value, DataFor(ws, ref), r)
  }

  /** Templates of one version are one template: a new generation for every change of the spec. */
  ghost predicate VersionsFixContent(ws: WorkspaceId, specs: seq<seq<Ref>>, worlds: seq<World>, t: IntegrationTemplate) {
    forall k, ref :: 0 <= k < |specs| && k < |worlds| && ref in specs[k] && LoadTemplate(ws, ref, worlds[k]).Some?
      && TemplateVersion(LoadTemplate(ws, ref, worlds[k]).value) == TemplateVersion(t)
      ==> LoadTemplate(ws, ref, worlds[k]).value == t
  }

  ghost predicate AllNulFree(specs: seq<seq<Ref>>) {
    forall k, ref :: 0 <= k < |specs| && ref in specs[k] ==> NulFreeRef(ref)
  }

  /** The overlay built at any point of any run, from a record that matches the inputs, is the overlay
      the capture rendered from the live resources, whatever became of them since. */
  lemma {:induction false} OverlayIsCapture(ws: WorkspaceId, specs: seq<seq<Ref>>, worlds: seq<World>, statuses: seq<seq<Record>>,
                                            i: nat, ref: Ref, t: IntegrationTemplate, built: Result<PodMods<string>>)
    returns (k: nat, live: Result<PodMods<string>>)
    requires Run(ws, specs, worlds, statuses) && i < |statuses| && Find(statuses[i], ref.name).Some?
    requires NulFreeRef(ref) && AllNulFree(specs) && VersionsFixContent(ws, specs, worlds, t)
    requires t.pod.Some? && GoodHandles(t)
    requires var rec := Find(statuses[i], ref.name).value;
             rec.parametersHash == InputToken(ref) && rec.version == TemplateVersion(t) && Rendered(ws, ref, rec, t, built)
    ensures k < i && Fetch(t.resourceRefs, DataFor(ws, ref), worlds[k].cluster).Ok?
    ensures Resolves(CaptureProvider(t, DataFor(ws, ref), worlds[k].cluster), t.pod.value, DataFor(ws, ref), live)
    ensures live.Ok? && built == live
  {
    hide CaptureValues, IsToken, Reconciled, Resolves, NulFreeRef, GoodHandles, Fetch, TemplateVersion, LoadTemplate;
    var rec := Find(statuses[i], ref.name).value;
    var past, t0;
    k, past, t0 := Provenance(ws, specs, worlds, statuses, i, ref.name);
    assert t0 == t;
    TokenIdentifies(past, ref, InputToken(past), InputToken(ref));
    assert DataFor(ws, past) == DataFor(ws, ref);
    assert CaptureValues(t, DataFor(ws, ref), worlds[k].cluster) == Ok(rec.values);
    live := LiveRender(t, DataFor(ws, ref), worlds[k].cluster, rec.values, built);
  }

  /** Step `i` of a run was healthy for a reference with template `t`. */
  ghost predicate HealthyAt(ws: WorkspaceId, specs: seq<seq<Ref>>, worlds: seq<World>, statuses: seq<seq<Record>>,
                            i: nat, ref: Ref, t: IntegrationTemplate) {
    && Run(ws, specs, worlds, statuses) && 0 < i < |statuses| && ref in specs[i - 1]
    && LoadTemplate(ws, ref, worlds[i - 1]) == Some(t)
    && Healthy(ws, ref, Find(statuses[i - 1], ref.name), worlds[i - 1])
  }

  lemma {:induction false} OneNulFree(specs: seq<seq<Ref>>, k: nat, ref: Ref)
    requires AllNulFree(specs) && k < |specs| && ref in specs[k]
    ensures NulFreeRef(ref)
  {
  }

  /** After a healthy step the build renders what a capture of the live resources rendered. */
  lemma {:induction false} HealthyBuild(ws: WorkspaceId, specs: seq<seq<Ref>>, worlds: seq<World>, statuses: seq<seq<Record>>,
                                        i: nat, ref: Ref, rec: Record, t: IntegrationTemplate, built: Result<PodMods<string>>)
    returns (k: nat, live: Result<PodMods<string>>)
    requires t.pod.Some? && GoodHandles(t) && Rendered(ws, ref, rec, t, built)
    requires HealthyAt(ws, specs, worlds, statuses, i, ref, t) && Find(statuses[i], ref.name) == Some(rec)
    requires AllNulFree(specs) && VersionsFixContent(ws, specs, worlds, t)
    ensures k < i && k < |worlds| && live.Ok? && built == live
    ensures Fetch(t.resourceRefs, DataFor(ws, ref), worlds[k].cluster).Ok?
    ensures Resolves(CaptureProvider(t, DataFor(ws, ref), worlds[k].cluster), t.pod.value, DataFor(ws, ref), live)
  {
    hide CaptureValues, IsToken, Reconciled, Resolves, NulFreeRef, GoodHandles, Fetch, TemplateVersion, LoadTemplate,
      Healthy, VersionsFixContent, Rendered, Find, DataFor, AllNulFree, CaptureProvider, InputToken;
    OneNulFree(specs, i - 1, ref);
    HealthyStep(ws, specs, worlds, statuses, i, ref);
    assert UpToDate(Find(statuses[i], ref.name), ref, t);
    k, live := OverlayIsCapture(ws, specs, worlds, statuses, i, ref, t, built);
  }

  lemma {:induction false} LiveRender(t: IntegrationTemplate, data: Data, cluster: Cluster, values: map<string, string>,
                                      built: Result<PodMods<string>>) returns (live: Result<PodMods<string>>)
    requires t.pod.Some? && GoodHandles(t) && CaptureValues(t, data, cluster) == Ok(values)
    requires Resolves(Frozen(values), t.pod.value, data, built)
    ensures Fetch(t.resourceRefs, data, cluster).Ok?
    ensures Resolves(CaptureProvider(t, data, cluster), t.pod.value, data, live) && live.Ok? && built == live
  {
    hide ResolveAll, GoodHandles, Fetch, PodFields, SamePod;
    ReplayEqualsCapture(t, data, cluster, values);
    live := built;
  }
}
