/** What a capture reads and keeps (internal/controller/resource_manager_integration.go,
    integration_template_resolver.go): which objects it fetches, when it succeeds, and that it records
    nothing but what those objects hold. */
module CaptureMeaning {
  import opened Text
  import opened Templates
  import opened TemplateMeaning
  import opened PodModifications
  import opened Capture

  /** The object a reference names: in the workspace's own namespace, under the name its template says. */
  ghost predicate Refers(ref: ResourceRef, data: Data, cluster: Cluster, name: string) {
    && Says(NoProvider, ref.objectName, data, name) && name != ""
    && (ref.kind, data.workspaceNamespace, name) in cluster.objects
  }

  lemma {:induction false} FetchesNamed(ref: ResourceRef, data: Data, cluster: Cluster)
    ensures FetchOne(ref, data, cluster).Ok? <==> exists name :: Refers(ref, data, cluster, name)
    ensures forall name :: Refers(ref, data, cluster, name) ==>
              FetchOne(ref, data, cluster) == Ok(cluster.objects[(ref.kind, data.workspaceNamespace, name)])
  {
    hide Resolve, Says;
    forall name
      ensures Resolve(NoProvider, ref.objectName, data).result == Ok(name) <==> Says(NoProvider, ref.objectName, data, name)
    {
      ResolveIsMeaning(NoProvider, ref.objectName, data, name);
    }
    if FetchOne(ref, data, cluster).Ok? {
      assert Refers(ref, data, cluster, Resolve(NoProvider, ref.objectName, data).result.value);
    }
  }

  /** The fetch succeeds exactly when every reference names an object. */
  lemma {:induction false} FetchSucceedsIff(refs: seq<ResourceRef>, data: Data, cluster: Cluster)
    ensures Fetch(refs, data, cluster).Ok? <==> forall i :: 0 <= i < |refs| ==> FetchOne(refs[i], data, cluster).Ok?
  {
    hide FetchOne;
    if refs != [] {
      var n := |refs| - 1;
      FetchSucceedsIff(refs[..n], data, cluster);
      assert forall i :: 0 <= i < n ==> refs[..n][i] == refs[i];
      LastFetched(refs, data, cluster);
      hide Fetch;
    }
  }

  lemma {:induction false} LastFetched(refs: seq<ResourceRef>, data: Data, cluster: Cluster)
    requires refs != []
    ensures var n := |refs| - 1;
            var r, front, last := Fetch(refs, data, cluster), Fetch(refs[..n], data, cluster), FetchOne(refs[n], data, cluster);
            && (r.Ok? <==> front.Ok? && last.Ok?)
            && (r.Ok? ==> r.value == front.value[refs[n].name := last.value])
  {
    hide FetchOne;
  }

  /** A handle stands for the object of its last reference. */
  lemma {:induction false} FetchIsLookup(refs: seq<ResourceRef>, data: Data, cluster: Cluster, i: nat)
    requires Fetch(refs, data, cluster).Ok? && i < |refs| && forall j :: i < j < |refs| ==> refs[j].name != refs[i].name
    ensures refs[i].name in Fetch(refs, data, cluster).value
    ensures FetchOne(refs[i], data, cluster) == Ok(Fetch(refs, data, cluster).value[refs[i].name])
    decreases |refs|
  {
    hide FetchOne, Fetch;
    var n := |refs| - 1;
    LastFetched(refs, data, cluster);
    if i < n {
      FetchIsLookup(refs[..n], data, cluster, i);
    }
  }

  lemma {:induction false} RecordedFrom(captured: map<string, string>, log: seq<Read>, key: string)
    requires key in Record(captured, log)
    ensures || (key in captured && Record(captured, log)[key] == captured[key])
            || exists i :: 0 <= i < |log| && key == CaptureKey(log[i].id, log[i].path) && Record(captured, log)[key] == log[i].value
    decreases log
  {
    hide CaptureKey;
    if log != [] {
      var first := CaptureKey(log[0].id, log[0].path);
      RecordedFrom(captured[first := log[0].value], log[1..], key);
      if i :| 0 <= i < |log[1..]| && key == CaptureKey(log[1..][i].id, log[1..][i].path)
              && Record(captured, log)[key] == log[1..][i].value {
        assert log[i + 1] == log[1..][i];
      } else if key == first {
        assert key == CaptureKey(log[0].id, log[0].path);
      }
    }
  }

  /** Every captured value is what a path finds in a fetched object, under the key of handle and path. */
  lemma {:induction false} CapturedIsServed(template: IntegrationTemplate, data: Data, cluster: Cluster, key: string)
    requires CaptureValues(template, data, cluster).Ok? && key in CaptureValues(template, data, cluster).value
    ensures Fetch(template.resourceRefs, data, cluster).Ok?
    ensures exists id, path :: && key == id + "|" + path
              && Provides(CaptureProvider(template, data, cluster), id, path, CaptureValues(template, data, cluster).value[key])
  {
    hide ResolveAll, Fetch, Record, Provides, CaptureFields;
    var p := CaptureProvider(template, data, cluster);
    var log := ResolveAll(p, CaptureFields(template), data).log;
    RecordedFrom(map[], log, key);
    var i :| 0 <= i < |log| && key == CaptureKey(log[i].id, log[i].path) && Record(map[], log)[key] == log[i].value;
    ResolveAllServed(p, CaptureFields(template), data);
    ServeIsMeaning(p, log[i].id, log[i].path, log[i].value);
  }

  /** A capture succeeds exactly when there is nothing to render, or every object is there and every field
      of pod and probe says something. */
  lemma {:induction false} CaptureSucceedsIff(template: IntegrationTemplate, data: Data, cluster: Cluster)
    ensures CaptureValues(template, data, cluster).Ok? <==>
              || (template.pod.None? && template.probe.None?)
              || (&& Fetch(template.resourceRefs, data, cluster).Ok?
                  && exists outputs :: AllSay(CaptureProvider(template, data, cluster), CaptureFields(template), data, outputs))
  {
    hide ResolveAll, Fetch, Record, AllSay, CaptureFields;
    if Fetch(template.resourceRefs, data, cluster).Ok? {
      var p := CaptureProvider(template, data, cluster);
      forall outputs
        ensures ResolveAll(p, CaptureFields(template), data).result == Ok(outputs) <==> AllSay(p, CaptureFields(template), data, outputs)
      {
        ResolveAllIsMeaning(p, CaptureFields(template), data, outputs);
      }
      if ResolveAll(p, CaptureFields(template), data).result.Ok? {
        assert AllSay(p, CaptureFields(template), data, ResolveAll(p, CaptureFields(template), data).result.value);
      }
    }
  }
}
