/** The pod changes an integration asks for, and the walk that resolves every templated field of them
    (internal/controller/integration_template_resolver.go, integration_helpers.go). The type parameter
    is a field's content: a template before resolution, a string after. */
module PodModifications {
  import opened Text
  import opened Templates
  import opened TemplateMeaning

  datatype EnvEntry<+F> = EnvEntry(name: string, value: F)
  datatype Mount<+F> = Mount(name: string, mountPath: F, subPath: F, subPathExpr: F)
  datatype Container<+F> = Container(name: string, image: F, command: seq<F>, args: seq<F>, workingDir: F,
                                     env: seq<EnvEntry<F>>, mounts: seq<Mount<F>>)
  datatype PrimaryMods<+F> = PrimaryMods(mergeEnv: seq<EnvEntry<F>>, mounts: seq<Mount<F>>)
  datatype PodMods<+F> = PodMods(additional: seq<Container<F>>, init: seq<Container<F>>, volumes: seq<string>,
                                 primary: Option<PrimaryMods<F>>)

  // ---------------------------------------------------------------- all templated fields, in walking order

  function EnvFields<F>(env: seq<EnvEntry<F>>): (fs: seq<F>)
    ensures |fs| == |env|
  {
    seq(|env|, i requires 0 <= i < |env| => env[i].value)
  }

  function MountFields<F>(mounts: seq<Mount<F>>): (fs: seq<F>)
    ensures |fs| == 3 * |mounts|
  {
    if mounts == [] then []
    else [mounts[0].mountPath, mounts[0].subPath, mounts[0].subPathExpr] + MountFields(mounts[1..])
  }

  function ContainerFields<F>(c: Container<F>): (fs: seq<F>) {
    [c.image] + c.command + c.args + [c.workingDir] + EnvFields(c.env) + MountFields(c.mounts)
  }

  function ContainersFields<F>(cs: seq<Container<F>>): (fs: seq<F>) {
    if cs == [] then [] else ContainerFields(cs[0]) + ContainersFields(cs[1..])
  }

  function PrimaryFields<F>(p: Option<PrimaryMods<F>>): (fs: seq<F>) {
    if p.None? then [] else EnvFields(p.value.mergeEnv) + MountFields(p.value.mounts)
  }

  function PodFields<F>(m: PodMods<F>): (fs: seq<F>) {
    ContainersFields(m.additional) + ContainersFields(m.init) + PrimaryFields(m.primary)
  }

  // ---------------------------------------------------------------- the same shape around new contents

  /** `b` is `a` with the templated fields replaced and everything else kept. */
  predicate SameMount<F, G>(a: Mount<F>, b: Mount<G>) {
    a.name == b.name
  }

  predicate SameContainer<F, G>(a: Container<F>, b: Container<G>) {
    && a.name == b.name && |a.command| == |b.command| && |a.args| == |b.args|
    && SameEnv(a.env, b.env) && SameMounts(a.mounts, b.mounts)
  }

  predicate SameEnv<F, G>(a: seq<EnvEntry<F>>, b: seq<EnvEntry<G>>) {
    |a| == |b| && forall i :: 0 <= i < |a| ==> a[i].name == b[i].name
  }

  predicate SameMounts<F, G>(a: seq<Mount<F>>, b: seq<Mount<G>>) {
    |a| == |b| && forall i :: 0 <= i < |a| ==> SameMount(a[i], b[i])
  }

  predicate SameContainers<F, G>(a: seq<Container<F>>, b: seq<Container<G>>) {
    |a| == |b| && forall i :: 0 <= i < |a| ==> SameContainer(a[i], b[i])
  }

  predicate SamePod<F, G>(a: PodMods<F>, b: PodMods<G>) {
    && SameContainers(a.additional, b.additional) && SameContainers(a.init, b.init) && a.volumes == b.volumes
    && a.primary.Some? == b.primary.Some?
    && (a.primary.Some? ==> SameEnv(a.primary.value.mergeEnv, b.primary.value.mergeEnv)
                            && SameMounts(a.primary.value.mounts, b.primary.value.mounts))
  }

  /** What resolving `mods` may return: the first failure, or the same shape around the outputs. */
  ghost predicate Resolves(p: Provider, mods: PodMods<Field>, data: Data, r: Result<PodMods<string>>) {
    var o := ResolveAll(p, PodFields(mods), data);
    if o.result.Err? then r == Err(o.result.failure)
    else r.Ok? && SamePod(mods, r.value) && PodFields(r.value) == o.result.value
  }

  // ---------------------------------------------------------------- shape and fields determine the whole

  lemma {:induction false} EnvDetermined<F>(a: seq<EnvEntry<F>>, b: seq<EnvEntry<F>>)
    requires SameEnv(a, b) && EnvFields(a) == EnvFields(b)
    ensures a == b
  {
    forall i | 0 <= i < |a| ensures a[i] == b[i] {
      assert EnvFields(a)[i] == a[i].value && EnvFields(b)[i] == b[i].value;
    }
  }

  lemma {:induction false} MountsDetermined<F>(a: seq<Mount<F>>, b: seq<Mount<F>>)
    requires SameMounts(a, b) && MountFields(a) == MountFields(b)
    ensures a == b
  {
    if a != [] {
      var fa, fb := MountFields(a), MountFields(b);
      assert fa[0] == a[0].mountPath && fa[1] == a[0].subPath && fa[2] == a[0].subPathExpr;
      assert fb[0] == b[0].mountPath && fb[1] == b[0].subPath && fb[2] == b[0].subPathExpr;
      assert fa[3..] == MountFields(a[1..]) && fb[3..] == MountFields(b[1..]);
      MountsDetermined(a[1..], b[1..]);
      assert a == [a[0]] + a[1..] && b == [b[0]] + b[1..];
    }
  }

  lemma {:induction false} Split<F>(a: seq<F>, b: seq<F>, c: seq<F>, d: seq<F>)
    requires |a| == |c| && a + b == c + d
    ensures a == c && b == d
  {
    assert a == (a + b)[..|a|] && c == (c + d)[..|c|];
    assert b == (a + b)[|a|..] && d == (c + d)[|c|..];
  }

  lemma {:induction false} ContainerLength<F, G>(a: Container<F>, b: Container<G>)
    requires SameContainer(a, b)
    ensures |ContainerFields(a)| == |ContainerFields(b)|
  {
  }

  lemma {:induction false} ContainerDetermined<F>(a: Container<F>, b: Container<F>)
    requires SameContainer(a, b) && ContainerFields(a) == ContainerFields(b)
    ensures a == b
  {
    var a1, b1 := [a.image] + a.command, [b.image] + b.command;
    var a2, b2 := a1 + a.args, b1 + b.args;
    var a3, b3 := a2 + [a.workingDir], b2 + [b.workingDir];
    Split(a3 + EnvFields(a.env), MountFields(a.mounts), b3 + EnvFields(b.env), MountFields(b.mounts));
    Split(a3, EnvFields(a.env), b3, EnvFields(b.env));
    Split(a2, [a.workingDir], b2, [b.workingDir]);
    Split(a1, a.args, b1, b.args);
    Split([a.image], a.command, [b.image], b.command);
    assert [a.workingDir][0] == [b.workingDir][0] && [a.image][0] == [b.image][0];
    EnvDetermined(a.env, b.env);
    MountsDetermined(a.mounts, b.mounts);
  }

  lemma {:induction false} ContainersLength<F, G>(a: seq<Container<F>>, b: seq<Container<G>>)
    requires SameContainers(a, b)
    ensures |ContainersFields(a)| == |ContainersFields(b)|
  {
    hide SameContainer, ContainerFields;
    if a != [] {
      ContainerLength(a[0], b[0]);
      ContainersLength(a[1..], b[1..]);
    }
  }

  lemma {:induction false} ContainersDetermined<F>(a: seq<Container<F>>, b: seq<Container<F>>)
    requires SameContainers(a, b) && ContainersFields(a) == ContainersFields(b)
    ensures a == b
  {
    hide SameContainer, ContainerFields;
    if a != [] {
      ContainerLength(a[0], b[0]);
      Split(ContainerFields(a[0]), ContainersFields(a[1..]), ContainerFields(b[0]), ContainersFields(b[1..]));
      ContainerDetermined(a[0], b[0]);
      ContainersDetermined(a[1..], b[1..]);
      assert a == [a[0]] + a[1..] && b == [b[0]] + b[1..];
    }
  }

  lemma {:induction false} PodDetermined<F>(a: PodMods<F>, b: PodMods<F>)
    requires SamePod(a, b) && PodFields(a) == PodFields(b)
    ensures a == b
  {
    hide SameContainers, ContainersFields, EnvFields, MountFields;
    ContainersLength(a.additional, b.additional);
    ContainersLength(a.init, b.init);
    Split(ContainersFields(a.additional) + ContainersFields(a.init), PrimaryFields(a.primary),
          ContainersFields(b.additional) + ContainersFields(b.init), PrimaryFields(b.primary));
    Split(ContainersFields(a.additional), ContainersFields(a.init), ContainersFields(b.additional), ContainersFields(b.init));
    ContainersDetermined(a.additional, b.additional);
    ContainersDetermined(a.init, b.init);
    if a.primary.Some? {
      var x, y := a.primary.value, b.primary.value;
      Split(EnvFields(x.mergeEnv), MountFields(x.mounts), EnvFields(y.mergeEnv), MountFields(y.mounts));
      EnvDetermined(x.mergeEnv, y.mergeEnv);
      MountsDetermined(x.mounts, y.mounts);
    }
  }

  lemma {:induction false} ShapesCompose(m: PodMods<Field>, a: PodMods<string>, b: PodMods<string>)
    requires SamePod(m, a) && SamePod(m, b)
    ensures SamePod(a, b)
  {
    forall i | 0 <= i < |a.additional| ensures SameContainer(a.additional[i], b.additional[i]) {
      assert SameContainer(m.additional[i], a.additional[i]) && SameContainer(m.additional[i], b.additional[i]);
    }
    forall i | 0 <= i < |a.init| ensures SameContainer(a.init[i], b.init[i]) {
      assert SameContainer(m.init[i], a.init[i]) && SameContainer(m.init[i], b.init[i]);
    }
  }

  /** The resolution of a pod modification is unique. */
  lemma {:induction false} ResolvesUnique(p: Provider, mods: PodMods<Field>, data: Data, r: Result<PodMods<string>>, q: Result<PodMods<string>>)
    requires Resolves(p, mods, data, r) && Resolves(p, mods, data, q)
    ensures r == q
  {
    hide ResolveAll, PodFields, SamePod;
    if r.Ok? {
      ShapesCompose(mods, r.value, q.value);
      PodDetermined(r.value, q.value);
    }
  }

  // ---------------------------------------------------------------- the resolver

  /** Recording a log of served values, later entries over earlier ones. */
  function Record(captured: map<string, string>, log: seq<Read>): map<string, string>
    decreases log
  {
    if log == [] then captured
    else Record(captured[CaptureKey(log[0].id, log[0].path) := log[0].value], log[1..])
  }

  lemma {:induction false} RecordAppend(captured: map<string, string>, a: seq<Read>, b: seq<Read>)
    ensures Record(captured, a + b) == Record(Record(captured, a), b)
    decreases a
  {
    if a == [] {
      assert a + b == b;
    } else {
      assert (a + b)[1..] == a[1..] + b;
      RecordAppend(captured[CaptureKey(a[0].id, a[0].path) := a[0].value], a[1..], b);
    }
  }

  /** Only a live provider records. */
  function Noted(p: Provider, captured: map<string, string>, log: seq<Read>): map<string, string> {
    if p.Live? then Record(captured, log) else captured
  }

  lemma {:induction false} NotedAppend(p: Provider, captured: map<string, string>, a: seq<Read>, b: seq<Read>)
    ensures Noted(p, captured, a + b) == Noted(p, Noted(p, captured, a), b)
  {
    if p.Live? {
      RecordAppend(captured, a, b);
    }
  }

  class Resolver {
    const provider: Provider
    var captured: map<string, string>

    constructor (provider: Provider)
      ensures this.provider == provider && captured == map[]
    {
      this.provider := provider;
      captured := map[];
    }

    /** `ResourceValueProvider.Value`. */
    method Value(id: string, path: string) returns (r: Result<string>)
      modifies this
      ensures r == Serve(provider, id, path)
      ensures captured == Noted(provider, old(captured), if r.Ok? then [Read(id, path, r.value)] else [])
    {
      r := Serve(provider, id, path);
      NothingNoted(provider, captured);
      if r.Ok? && provider.Live? {
        OneNoted(provider, captured, Read(id, path, r.value));
        captured := captured[CaptureKey(id, path) := r.value];
      }
    }

    method EvalExpr(e: Expr, data: Data) returns (r: Result<string>)
      modifies this
      ensures r == Eval(provider, e, data).result
      ensures captured == Noted(provider, old(captured), Eval(provider, e, data).log)
      decreases e
    {
      hide Serve, Record;
      match e
      case Resource(idExpr, pathExpr) =>
        ghost var before := captured;
        var id := EvalExpr(idExpr, data);
        if id.Err? {
          return id;
        }
        var path := EvalExpr(pathExpr, data);
        NotedAppend(provider, before, Eval(provider, idExpr, data).log, Eval(provider, pathExpr, data).log);
        if path.Err? {
          return path;
        }
        r := Value(id.value, path.value);
        NotedAppend(provider, before, Eval(provider, idExpr, data).log + Eval(provider, pathExpr, data).log,
                    if r.Ok? then [Read(id.value, path.value, r.value)] else []);
      case Str(s) =>
        NothingNoted(provider, captured);
        r := Ok(s);
      case WorkspaceName =>
        NothingNoted(provider, captured);
        r := Ok(data.workspaceName);
      case WorkspaceNamespace =>
        NothingNoted(provider, captured);
        r := Ok(data.workspaceNamespace);
      case UnknownField(field) =>
        NothingNoted(provider, captured);
        r := Err(NoSuchField(field));
      case Param(name) =>
        NothingNoted(provider, captured);
        r := if name in data.parameters then Ok(data.parameters[name]) else Err(MissingParameter(name));
      case Index(name) =>
        NothingNoted(provider, captured);
        r := Ok(if name in data.parameters then data.parameters[name] else "");
    }

    method RenderTemplate(t: Template, data: Data) returns (r: Result<string>)
      modifies this
      ensures r == Render(provider, t, data).result
      ensures captured == Noted(provider, old(captured), Render(provider, t, data).log)
      decreases t
    {
      hide Serve, Eval, Noted;
      ghost var before := captured;
      match t
      case Done =>
        NothingNoted(provider, captured);
        r := Ok("");
      case Raw(s, rest) =>
        var tail := RenderTemplate(rest, data);
        NotedAppend(provider, before, [], Render(provider, rest, data).log);
        NothingNoted(provider, before);
        r := if tail.Err? then tail else Ok(s + tail.value);
      case Action(e, rest) =>
        var head := EvalExpr(e, data);
        if head.Err? {
          return head;
        }
        var tail := RenderTemplate(rest, data);
        NotedAppend(provider, before, Eval(provider, e, data).log, Render(provider, rest, data).log);
        r := if tail.Err? then tail else Ok(head.value + tail.value);
      case If(cond, thn, els, rest) =>
        var c := EvalExpr(cond, data);
        if c.Err? {
          return c;
        }
        var taken := if c.value != "" then thn else els;
        var branch := RenderTemplate(taken, data);
        NotedAppend(provider, before, Eval(provider, cond, data).log, Render(provider, taken, data).log);
        if branch.Err? {
          return branch;
        }
        var tail := RenderTemplate(rest, data);
        NotedAppend(provider, before, Eval(provider, cond, data).log + Render(provider, taken, data).log,
                    Render(provider, rest, data).log);
        r := if tail.Err? then tail else Ok(branch.value + tail.value);
    }

    method ResolveTemplateExpression(f: Field, data: Data) returns (r: Result<string>)
      modifies this
      ensures r == Resolve(provider, f, data).result
      ensures forall output :: r == Ok(output) <==> Says(provider, f, data, output)
      ensures captured == Noted(provider, old(captured), Resolve(provider, f, data).log)
    {
      hide Render, Says;
      forall output
        ensures Resolve(provider, f, data).result == Ok(output) <==> Says(provider, f, data, output)
      {
        ResolveIsMeaning(provider, f, data, output);
      }
      NothingNoted(provider, captured);
      match f
      case Malformed => r := Err(BadSyntax);
      case Parsed(t) => r := RenderTemplate(t, data);
    }

    /** A loop over fields; the skipping of empty strings in the original changes nothing, since an
        empty template renders to the empty string. */
    method ResolveList(fs: seq<Field>, data: Data) returns (r: Result<seq<string>>)
      modifies this
      ensures r == ResolveAll(provider, fs, data).result
      ensures captured == Noted(provider, old(captured), ResolveAll(provider, fs, data).log)
    {
      hide Resolve, Noted;
      ghost var before := captured;
      NothingNoted(provider, captured);
      var out: seq<string> := [];
      for i := 0 to |fs|
        invariant ResolveAll(provider, fs[..i], data).result == Ok(out)
        invariant captured == Noted(provider, before, ResolveAll(provider, fs[..i], data).log)
      {
        var val := ResolveTemplateExpression(fs[i], data);
        ResolveNext(provider, fs, i, data);
        NotedAppend(provider, before, ResolveAll(provider, fs[..i], data).log, Resolve(provider, fs[i], data).log);
        if val.Err? {
          ResolveStops(provider, fs, i + 1, data);
          return Err(val.failure);
        }
        out := out + [val.value];
      }
      assert fs[..|fs|] == fs;
      r := Ok(out);
    }

    method ResolveEnv(env: seq<EnvEntry<Field>>, data: Data) returns (r: Result<seq<EnvEntry<string>>>)
      modifies this
      ensures var o := ResolveAll(provider, EnvFields(env), data);
              && captured == Noted(provider, old(captured), o.log)
              && if o.result.Err? then r == Err(o.result.failure)
                 else r.Ok? && SameEnv(env, r.value) && EnvFields(r.value) == o.result.value
    {
      hide ResolveAll, Noted;
      var vals := ResolveList(EnvFields(env), data);
      if vals.Err? {
        return Err(vals.failure);
      }
      r := Ok(seq(|env|, i requires 0 <= i < |env| => EnvEntry(env[i].name, vals.value[i])));
      assert EnvFields(r.value) == vals.value;
    }

    method ResolveVolumeMounts(mounts: seq<Mount<Field>>, data: Data) returns (r: Result<seq<Mount<string>>>)
      modifies this
      ensures var o := ResolveAll(provider, MountFields(mounts), data);
              && captured == Noted(provider, old(captured), o.log)
              && if o.result.Err? then r == Err(o.result.failure)
                 else r.Ok? && SameMounts(mounts, r.value) && MountFields(r.value) == o.result.value
    {
      hide ResolveAll, Noted;
      var vals := ResolveList(MountFields(mounts), data);
      if vals.Err? {
        return Err(vals.failure);
      }
      var out: seq<Mount<string>> := [];
      ghost var noted := captured;
      for i := 0 to |mounts|
        invariant captured == noted
        invariant |out| == i && SameMounts(mounts[..i], out) && MountFields(out) == vals.value[..3 * i]
      {
        var m := Mount(mounts[i].name, vals.value[3 * i], vals.value[3 * i + 1], vals.value[3 * i + 2]);
        MountFieldsSnoc(out, m);
        out := out + [m];
      }
      assert mounts[..|mounts|] == mounts && vals.value[..3 * |mounts|] == vals.value;
      r := Ok(out);
    }

    method ResolveContainerFields(c: Container<Field>, data: Data) returns (r: Result<Container<string>>)
      modifies this
      ensures var o := ResolveAll(provider, ContainerFields(c), data);
              && captured == Noted(provider, old(captured), o.log)
              && if o.result.Err? then r == Err(o.result.failure)
                 else r.Ok? && SameContainer(c, r.value) && ContainerFields(r.value) == o.result.value
    {
      hide ResolveAll, Noted, EnvFields, MountFields;
      ghost var before := captured;
      ghost var simple, envs, paths := [c.image] + c.command + c.args + [c.workingDir], EnvFields(c.env), MountFields(c.mounts);
      assert ContainerFields(c) == simple + envs + paths;
      ResolveAllAppend(provider, simple + envs, paths, data);
      ResolveAllAppend(provider, simple, envs, data);
      ghost var oa, ob, oc := ResolveAll(provider, simple, data), ResolveAll(provider, envs, data), ResolveAll(provider, paths, data);
      NotedAppend(provider, before, oa.log, ob.log);
      NotedAppend(provider, before, oa.log + ob.log, oc.log);
      var vals := ResolveList([c.image] + c.command + c.args + [c.workingDir], data);
      if vals.Err? {
        return Err(vals.failure);
      }
      var env := ResolveEnv(c.env, data);
      if env.Err? {
        return Err(env.failure);
      }
      var mounts := ResolveVolumeMounts(c.mounts, data);
      if mounts.Err? {
        return Err(mounts.failure);
      }
      var n, m := |c.command|, |c.args|;
      var v := vals.value;
      r := Ok(Container(c.name, v[0], v[1..n + 1], v[n + 1..n + m + 1], v[n + m + 1], env.value, mounts.value));
      assert [v[0]] + v[1..n + 1] + v[n + 1..n + m + 1] + [v[n + m + 1]] == v;
    }

    method ResolveContainers(cs: seq<Container<Field>>, data: Data) returns (r: Result<seq<Container<string>>>)
      modifies this
      ensures var o := ResolveAll(provider, ContainersFields(cs), data);
              && captured == Noted(provider, old(captured), o.log)
              && if o.result.Err? then r == Err(o.result.failure)
                 else r.Ok? && SameContainers(cs, r.value) && ContainersFields(r.value) == o.result.value
    {
      hide ResolveAll, Noted, ContainerFields, SameContainer;
      ghost var before := captured;
      AllDone(provider, data);
      NothingNoted(provider, captured);
      var out: seq<Container<string>> := [];
      for i := 0 to |cs|
        invariant ResolveAll(provider, ContainersFields(cs[..i]), data).result == Ok(ContainersFields(out))
        invariant |out| == i && SameContainers(cs[..i], out)
        invariant captured == Noted(provider, before, ResolveAll(provider, ContainersFields(cs[..i]), data).log)
      {
        var c := ResolveContainerFields(cs[i], data);
        ContainersSnoc(cs[..i], cs[i]);
        assert cs[..i + 1] == cs[..i] + [cs[i]];
        ResolveAllAppend(provider, ContainersFields(cs[..i]), ContainerFields(cs[i]), data);
        NotedAppend(provider, before, ResolveAll(provider, ContainersFields(cs[..i]), data).log, ResolveAll(provider, ContainerFields(cs[i]), data).log);
        if c.Err? {
          ContainersSplit(cs, i + 1);
          ResolveAllAppend(provider, ContainersFields(cs[..i + 1]), ContainersFields(cs[i + 1..]), data);
          return Err(c.failure);
        }
        ContainersSnoc(out, c.value);
        out := out + [c.value];
      }
      assert cs[..|cs|] == cs;
      r := Ok(out);
    }

    method ResolvePodModifications(mods: PodMods<Field>, data: Data) returns (r: Result<PodMods<string>>)
      modifies this
      ensures Resolves(provider, mods, data, r)
      ensures captured == Noted(provider, old(captured), ResolveAll(provider, PodFields(mods), data).log)
    {
      hide ResolveAll, Noted, ContainersFields, SameContainers, EnvFields, MountFields;
      ghost var before := captured;
      ghost var a, b, c := ContainersFields(mods.additional), ContainersFields(mods.init), PrimaryFields(mods.primary);
      ResolveAllAppend(provider, a + b, c, data);
      ResolveAllAppend(provider, a, b, data);
      NotedAppend(provider, before, ResolveAll(provider, a, data).log, ResolveAll(provider, b, data).log);
      NotedAppend(provider, before, ResolveAll(provider, a + b, data).log, ResolveAll(provider, c, data).log);
      var additional := ResolveContainers(mods.additional, data);
      if additional.Err? {
        return Err(additional.failure);
      }
      var init := ResolveContainers(mods.init, data);
      if init.Err? {
        return Err(init.failure);
      }
      var primary := ResolvePrimary(mods.primary, data);
      if primary.Err? {
        return Err(primary.failure);
      }
      r := Ok(PodMods(additional.value, init.value, mods.volumes, primary.value));
    }

    method ResolvePrimary(mods: Option<PrimaryMods<Field>>, data: Data) returns (r: Result<Option<PrimaryMods<string>>>)
      modifies this
      ensures var o := ResolveAll(provider, PrimaryFields(mods), data);
              && captured == Noted(provider, old(captured), o.log)
              && if o.result.Err? then r == Err(o.result.failure)
                 else
                   && r.Ok? && mods.Some? == r.value.Some? && PrimaryFields(r.value) == o.result.value
                   && (mods.Some? ==> SameEnv(mods.value.mergeEnv, r.value.value.mergeEnv)
                                      && SameMounts(mods.value.mounts, r.value.value.mounts))
    {
      hide ResolveAll, Noted, EnvFields, MountFields;
      if mods.None? {
        AllDone(provider, data);
        NothingNoted(provider, captured);
        return Ok(None);
      }
      ghost var before := captured;
      ghost var a, b := EnvFields(mods.value.mergeEnv), MountFields(mods.value.mounts);
      ResolveAllAppend(provider, a, b, data);
      NotedAppend(provider, before, ResolveAll(provider, a, data).log, ResolveAll(provider, b, data).log);
      var env := ResolveEnv(mods.value.mergeEnv, data);
      if env.Err? {
        return Err(env.failure);
      }
      var mounts := ResolveVolumeMounts(mods.value.mounts, data);
      if mounts.Err? {
        return Err(mounts.failure);
      }
      r := Ok(Some(PrimaryMods(env.value, mounts.value)));
    }
  }

  lemma {:induction false} AllDone(p: Provider, data: Data)
    ensures ResolveAll(p, [], data) == Outcome(Ok([]), [])
  {
  }

  lemma {:induction false} ResolveNext(p: Provider, fs: seq<Field>, i: nat, data: Data)
    requires i < |fs| && ResolveAll(p, fs[..i], data).result.Ok?
    ensures var o, v, o' := ResolveAll(p, fs[..i], data), Resolve(p, fs[i], data), ResolveAll(p, fs[..i + 1], data);
            && o'.log == o.log + v.log
            && o'.result == if v.result.Err? then Err(v.result.failure) else Ok(o.result.value + [v.result.value])
  {
    hide Resolve;
    assert fs[..i + 1] == fs[..i] + [fs[i]];
    ResolveAllAppend(p, fs[..i], [fs[i]], data);
    assert [fs[i]][1..] == [];
    var one, v := ResolveAll(p, [fs[i]], data), Resolve(p, fs[i], data);
    assert one.log == v.log;
    if v.result.Ok? {
      assert [v.result.value] + [] == [v.result.value];
      assert one.result == Ok([v.result.value]);
    }
  }

  lemma {:induction false} ResolveStops(p: Provider, fs: seq<Field>, i: nat, data: Data)
    requires i <= |fs| && ResolveAll(p, fs[..i], data).result.Err?
    ensures ResolveAll(p, fs, data) == ResolveAll(p, fs[..i], data)
  {
    hide ResolveAll;
    assert fs == fs[..i] + fs[i..];
    ResolveAllAppend(p, fs[..i], fs[i..], data);
  }

  lemma {:induction false} MountFieldsSnoc<F>(mounts: seq<Mount<F>>, m: Mount<F>)
    ensures MountFields(mounts + [m]) == MountFields(mounts) + [m.mountPath, m.subPath, m.subPathExpr]
  {
    if mounts == [] {
      assert mounts + [m] == [m] && [m][1..] == [];
    } else {
      MountFieldsSnoc(mounts[1..], m);
      assert (mounts + [m])[1..] == mounts[1..] + [m];
    }
  }

  lemma {:induction false} ContainersSnoc<F>(cs: seq<Container<F>>, c: Container<F>)
    ensures ContainersFields(cs + [c]) == ContainersFields(cs) + ContainerFields(c)
  {
    hide ContainerFields;
    if cs == [] {
      assert cs + [c] == [c] && [c][1..] == [];
    } else {
      ContainersSnoc(cs[1..], c);
      assert (cs + [c])[1..] == cs[1..] + [c];
    }
  }

  lemma {:induction false} ContainersSplit<F>(cs: seq<Container<F>>, i: nat)
    requires i <= |cs|
    ensures ContainersFields(cs) == ContainersFields(cs[..i]) + ContainersFields(cs[i..])
    decreases i
  {
    hide ContainerFields;
    if i == 0 {
      assert cs[0..] == cs;
    } else {
      ContainersSplit(cs, i - 1);
      ContainersSnoc(cs[..i - 1], cs[i - 1]);
      assert cs[..i] == cs[..i - 1] + [cs[i - 1]];
      assert cs[i - 1..][1..] == cs[i..];
    }
  }

  lemma {:induction false} OneNoted(p: Provider, captured: map<string, string>, read: Read)
    requires p.Live?
    ensures Noted(p, captured, [read]) == captured[CaptureKey(read.id, read.path) := read.value]
  {
    var next := captured[CaptureKey(read.id, read.path) := read.value];
    assert [read][1..] == [];
    assert Record(next, []) == next;
  }

  lemma {:induction false} NothingNoted(p: Provider, captured: map<string, string>)
    ensures Noted(p, captured, []) == captured
  {
  }
}
