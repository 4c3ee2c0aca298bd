/** Admission of integration templates and of references to them
    (internal/webhook/v1alpha1/integration_template_validation.go,
    integration_template_ref_validator.go): what passing admission guarantees about a later capture. */
module Validation {
  import opened Text
  import opened Templates
  import opened PodModifications
  import opened Capture

  // ---------------------------------------------------------------- the validator

  function Declared(template: IntegrationTemplate): (names: set<string>)
    ensures forall name :: name in names <==> exists i :: 0 <= i < |template.parameters| && template.parameters[i] == name
  {
    set i | 0 <= i < |template.parameters| :: template.parameters[i]
  }

  function Handles(template: IntegrationTemplate): (ids: set<string>)
    ensures forall id :: id in ids <==> exists i :: 0 <= i < |template.resourceRefs| && template.resourceRefs[i].name == id
  {
    set i | 0 <= i < |template.resourceRefs| :: template.resourceRefs[i].name
  }

  /** The data static validation renders with: declared names, empty values. */
  function CheckData(declared: set<string>): Data {
    Data("", "", map name | name in declared :: "")
  }

  predicate FieldPasses(p: Provider, declared: set<string>, f: Field) {
    Resolve(p, f, CheckData(declared)).result.Ok?
  }

  predicate FieldsPass(p: Provider, declared: set<string>, fs: seq<Field>) {
    forall i :: 0 <= i < |fs| ==> FieldPasses(p, declared, fs[i])
  }

  /** What admission accepts: object names without `resource`, everything else against the handles. */
  predicate Admissible(template: IntegrationTemplate, valid: string -> bool) {
    var declared, checker := Declared(template), Checker(Handles(template), valid);
    && (forall i :: 0 <= i < |template.resourceRefs| ==> FieldPasses(NoProvider, declared, template.resourceRefs[i].objectName))
    && FieldsPass(checker, declared, ProbeFields(template.probe))
    && (template.pod.Some? ==> FieldsPass(checker, declared, PodFields(template.pod.value)))
  }

  lemma {:induction false} PassParts(p: Provider, declared: set<string>, a: seq<Field>, b: seq<Field>)
    ensures FieldsPass(p, declared, a + b) <==> FieldsPass(p, declared, a) && FieldsPass(p, declared, b)
  {
    hide FieldPasses;
    assert forall i :: 0 <= i < |a| ==> (a + b)[i] == a[i];
    assert forall i :: 0 <= i < |b| ==> (a + b)[|a| + i] == b[i];
  }

  method ValidateFields(p: Provider, declared: set<string>, fs: seq<Field>) returns (ok: bool)
    ensures ok <==> FieldsPass(p, declared, fs)
  {
    hide FieldPasses;
    for i := 0 to |fs|
      invariant forall j :: 0 <= j < i ==> FieldPasses(p, declared, fs[j])
    {
      if !FieldPasses(p, declared, fs[i]) {
        return false;
      }
    }
    return true;
  }

  method ValidateVolumeMountTemplates(p: Provider, declared: set<string>, mounts: seq<Mount<Field>>) returns (ok: bool)
    ensures ok <==> FieldsPass(p, declared, MountFields(mounts))
  {
    hide FieldPasses, FieldsPass;
    PassParts(p, declared, [], []);
    assert FieldsPass(p, declared, []) by { NoFields(p, declared); }
    for i := 0 to |mounts|
      invariant FieldsPass(p, declared, MountFields(mounts[..i]))
    {
      var m := mounts[i];
      assert mounts[..i + 1] == mounts[..i] + [m];
      MountFieldsSnoc(mounts[..i], m);
      PassParts(p, declared, MountFields(mounts[..i]), [m.mountPath, m.subPath, m.subPathExpr]);
      var good := ValidateFields(p, declared, [m.mountPath, m.subPath, m.subPathExpr]);
      if !good {
        MountsSplit(mounts, i + 1);
        PassParts(p, declared, MountFields(mounts[..i + 1]), MountFields(mounts[i + 1..]));
        return false;
      }
    }
    assert mounts[..|mounts|] == mounts;
    return true;
  }

  lemma {:induction false} NoFields(p: Provider, declared: set<string>)
    ensures FieldsPass(p, declared, [])
  {
  }

  lemma {:induction false} MountsSplit(mounts: seq<Mount<Field>>, i: nat)
    requires i <= |mounts|
    ensures MountFields(mounts) == MountFields(mounts[..i]) + MountFields(mounts[i..])
    decreases i
  {
    if i == 0 {
      assert mounts[0..] == mounts;
    } else {
      MountsSplit(mounts, i - 1);
      MountFieldsSnoc(mounts[..i - 1], mounts[i - 1]);
      assert mounts[..i] == mounts[..i - 1] + [mounts[i - 1]];
      assert mounts[i - 1..][1..] == mounts[i..];
    }
  }

  method ValidateContainerTemplates(p: Provider, declared: set<string>, c: Container<Field>) returns (ok: bool)
    ensures ok <==> FieldsPass(p, declared, ContainerFields(c))
  {
    hide FieldsPass, EnvFields, MountFields;
    ghost var a := [c.image];
    ghost var b := a + c.command;
    ghost var d := b + c.args;
    ghost var e := d + [c.workingDir];
    ghost var f := e + EnvFields(c.env);
    assert ContainerFields(c) == f + MountFields(c.mounts);
    PassParts(p, declared, a, c.command);
    PassParts(p, declared, b, c.args);
    PassParts(p, declared, d, [c.workingDir]);
    PassParts(p, declared, e, EnvFields(c.env));
    PassParts(p, declared, f, MountFields(c.mounts));
    ok := ValidateFields(p, declared, [c.image]);
    if !ok { return; }
    ok := ValidateFields(p, declared, c.command);
    if !ok { return; }
    ok := ValidateFields(p, declared, c.args);
    if !ok { return; }
    ok := ValidateFields(p, declared, [c.workingDir]);
    if !ok { return; }
    ok := ValidateFields(p, declared, EnvFields(c.env));
    if !ok { return; }
    ok := ValidateVolumeMountTemplates(p, declared, c.mounts);
  }

  method ValidateContainers(p: Provider, declared: set<string>, cs: seq<Container<Field>>) returns (ok: bool)
    ensures ok <==> FieldsPass(p, declared, ContainersFields(cs))
  {
    hide FieldsPass, ContainerFields;
    assert FieldsPass(p, declared, []) by { NoFields(p, declared); }
    for i := 0 to |cs|
      invariant FieldsPass(p, declared, ContainersFields(cs[..i]))
    {
      assert cs[..i + 1] == cs[..i] + [cs[i]];
      ContainersSnoc(cs[..i], cs[i]);
      PassParts(p, declared, ContainersFields(cs[..i]), ContainerFields(cs[i]));
      var good := ValidateContainerTemplates(p, declared, cs[i]);
      if !good {
        ContainersSplit(cs, i + 1);
        PassParts(p, declared, ContainersFields(cs[..i + 1]), ContainersFields(cs[i + 1..]));
        return false;
      }
    }
    assert cs[..|cs|] == cs;
    return true;
  }

  method ValidateIntegrationTemplate(template: IntegrationTemplate, valid: string -> bool) returns (ok: bool)
    ensures ok <==> Admissible(template, valid)
  {
    hide FieldsPass, FieldPasses, ContainersFields, EnvFields, MountFields;
    var declared, checker := Declared(template), Checker(Handles(template), valid);
    for i := 0 to |template.resourceRefs|
      invariant forall j :: 0 <= j < i ==> FieldPasses(NoProvider, declared, template.resourceRefs[j].objectName)
    {
      if !FieldPasses(NoProvider, declared, template.resourceRefs[i].objectName) {
        return false;
      }
    }
    ok := ValidateFields(checker, declared, ProbeFields(template.probe));
    if !ok || template.pod.None? {
      return;
    }
    var pod := template.pod.value;
    PassParts(checker, declared, ContainersFields(pod.additional) + ContainersFields(pod.init), PrimaryFields(pod.primary));
    PassParts(checker, declared, ContainersFields(pod.additional), ContainersFields(pod.init));
    NoFields(checker, declared);
    ok := ValidateContainers(checker, declared, pod.additional);
    if !ok { return; }
    ok := ValidateContainers(checker, declared, pod.init);
    if !ok { return; }
    if pod.primary.Some? {
      PassParts(checker, declared, EnvFields(pod.primary.value.mergeEnv), MountFields(pod.primary.value.mounts));
      ok := ValidateFields(checker, declared, EnvFields(pod.primary.value.mergeEnv));
      if !ok { return; }
      ok := ValidateVolumeMountTemplates(checker, declared, pod.primary.value.mounts);
    }
  }

  /** Unicode white space, as `strings.TrimSpace` sees it. */
  predicate IsSpace(c: char) {
    || '\U{9}' <= c <= '\U{d}' || c in {' ', '\U{85}', '\U{a0}', '\U{1680}', '\U{2028}', '\U{2029}', '\U{202f}', '\U{205f}', '\U{3000}'}
    || '\U{2000}' <= c <= '\U{200a}'
  }

  predicate Blank(s: string) {
    forall i :: 0 <= i < |s| ==> IsSpace(s[i])
  }

  /** The workspace supplies every declared parameter, and none of them blank. */
  predicate ParametersSupplied(template: IntegrationTemplate, supplied: map<string, string>) {
    forall i :: 0 <= i < |template.parameters| ==> template.parameters[i] in supplied && !Blank(supplied[template.parameters[i]])
  }

  method ValidateWorkspaceIntegrationParameters(template: IntegrationTemplate, supplied: map<string, string>) returns (ok: bool)
    ensures ok <==> ParametersSupplied(template, supplied)
  {
    for i := 0 to |template.parameters|
      invariant forall j :: 0 <= j < i ==> template.parameters[j] in supplied && !Blank(supplied[template.parameters[j]])
    {
      if template.parameters[i] !in supplied {
        return false;
      }
      if Blank(supplied[template.parameters[i]]) {
        return false;
      }
    }
    return true;
  }

  // ---------------------------------------------------------------- what the check means

  /** Every `resource` call has constant arguments. */
  predicate ConstantArguments(e: Expr) {
    e.Resource? ==> e.id.Str? && e.path.Str?
  }

  predicate ConstantTemplate(t: Template) {
    match t
    case Done => true
    case Raw(_, rest) => ConstantTemplate(rest)
    case Action(e, rest) => ConstantArguments(e) && ConstantTemplate(rest)
    case If(c, a, b, rest) => ConstantArguments(c) && ConstantTemplate(a) && ConstantTemplate(b) && ConstantTemplate(rest)
  }

  /** No conditional anywhere. */
  predicate StraightLine(t: Template) {
    match t
    case Done => true
    case Raw(_, rest) => StraightLine(rest)
    case Action(_, rest) => StraightLine(rest)
    case If(_, _, _, _) => false
  }

  /** An expression that refers only to what is declared. `allowed` is None where `resource` is banned. */
  predicate WellScoped(e: Expr, declared: set<string>, allowed: Option<set<string>>, valid: string -> bool)
    requires ConstantArguments(e)
  {
    match e
    case UnknownField(_) => false
    case Param(name) => name in declared
    case Resource(id, path) => allowed.Some? && id.s in allowed.value && valid(path.s)
    case _ => true
  }

  /** Every expression is well scoped, in every branch. */
  predicate AllWellScoped(t: Template, declared: set<string>, allowed: Option<set<string>>, valid: string -> bool)
    requires ConstantTemplate(t)
  {
    match t
    case Done => true
    case Raw(_, rest) => AllWellScoped(rest, declared, allowed, valid)
    case Action(e, rest) => WellScoped(e, declared, allowed, valid) && AllWellScoped(rest, declared, allowed, valid)
    case If(c, a, b, rest) =>
      && WellScoped(c, declared, allowed, valid)
      && AllWellScoped(a, declared, allowed, valid) && AllWellScoped(b, declared, allowed, valid)
      && AllWellScoped(rest, declared, allowed, valid)
  }

  function CheckProvider(allowed: Option<set<string>>, valid: string -> bool): Provider {
    if allowed.Some? then Checker(allowed.value, valid) else NoProvider
  }

  lemma {:induction false} ConstantResource(p: Provider, e: Expr, data: Data)
    requires e.Resource? && ConstantArguments(e)
    ensures Eval(p, e, data).result == Serve(p, e.id.s, e.path.s)
  {
    assert Eval(p, e.id, data) == Outcome(Ok(e.id.s), []) && Eval(p, e.path, data) == Outcome(Ok(e.path.s), []);
  }

  /** On straight-line templates the rendering check is exactly the scope check. */
  lemma {:induction false} CheckIsScope(t: Template, declared: set<string>, allowed: Option<set<string>>, valid: string -> bool)
    requires StraightLine(t) && ConstantTemplate(t)
    ensures Render(CheckProvider(allowed, valid), t, CheckData(declared)).result.Ok? <==> AllWellScoped(t, declared, allowed, valid)
  {
    match t
    case Done =>
    case Raw(_, rest) => CheckIsScope(rest, declared, allowed, valid);
    case Action(e, rest) =>
      if e.Resource? { ConstantResource(CheckProvider(allowed, valid), e, CheckData(declared)); }
      CheckIsScope(rest, declared, allowed, valid);
  }

  /** Failures that no static check can foresee: they depend on the cluster. */
  predicate RunTimeOnly(r: Result<string>) {
    r.Ok? || r.failure.PathFailed?
  }

  /** A well-scoped template, conditionals included, can fail only on what a resource contains. */
  lemma {:induction false} ScopedNeverMisses(t: Template, declared: set<string>, allowed: set<string>, valid: string -> bool,
                                             resources: map<string, Object>, data: Data)
    requires ConstantTemplate(t) && AllWellScoped(t, declared, Some(allowed), valid)
    requires declared <= data.parameters.Keys && allowed <= resources.Keys
    ensures RunTimeOnly(Render(Live(resources, valid), t, data).result)
  {
    match t
    case Done =>
    case Raw(_, rest) => ScopedNeverMisses(rest, declared, allowed, valid, resources, data);
    case Action(e, rest) =>
      if e.Resource? { ConstantResource(Live(resources, valid), e, data); }
      ScopedNeverMisses(rest, declared, allowed, valid, resources, data);
    case If(c, a, b, rest) =>
      if c.Resource? { ConstantResource(Live(resources, valid), c, data); }
      ScopedNeverMisses(a, declared, allowed, valid, resources, data);
      ScopedNeverMisses(b, declared, allowed, valid, resources, data);
      ScopedNeverMisses(rest, declared, allowed, valid, resources, data);
  }

  /** Where `resource` is banned a well-scoped template always renders. */
  lemma {:induction false} ScopedNameRenders(t: Template, declared: set<string>, valid: string -> bool, data: Data)
    requires ConstantTemplate(t) && AllWellScoped(t, declared, None, valid) && declared <= data.parameters.Keys
    ensures Render(NoProvider, t, data).result.Ok?
  {
    match t
    case Done =>
    case Raw(_, rest) => ScopedNameRenders(rest, declared, valid, data);
    case Action(e, rest) => ScopedNameRenders(rest, declared, valid, data);
    case If(c, a, b, rest) =>
      ScopedNameRenders(a, declared, valid, data);
      ScopedNameRenders(b, declared, valid, data);
      ScopedNameRenders(rest, declared, valid, data);
  }

  /** Nothing that renders is turned away: on straight-line templates a rendering that succeeds with
      exactly the declared parameters and handles passed the check. */
  lemma {:induction false} RenderedIsScoped(t: Template, declared: set<string>, allowed: set<string>, valid: string -> bool,
                                            resources: map<string, Object>, data: Data)
    requires StraightLine(t) && ConstantTemplate(t)
    requires data.parameters.Keys == declared && resources.Keys == allowed
    requires Render(Live(resources, valid), t, data).result.Ok?
    ensures AllWellScoped(t, declared, Some(allowed), valid)
  {
    match t
    case Done =>
    case Raw(_, rest) => RenderedIsScoped(rest, declared, allowed, valid, resources, data);
    case Action(e, rest) =>
      if e.Resource? { ConstantResource(Live(resources, valid), e, data); }
      RenderedIsScoped(rest, declared, allowed, valid, resources, data);
  }

  // ---------------------------------------------------------------- which branch is taken

  /** What capture renders with: every declared parameter supplied and not blank, and a workspace that has
      a name and a namespace. */
  predicate CaptureData(declared: set<string>, data: Data) {
    && data.workspaceName != "" && data.workspaceNamespace != ""
    && forall name :: name in declared ==> name in data.parameters && !Blank(data.parameters[name])
  }

  /** Only a dynamic lookup of an undeclared name may or may not yield something at capture. */
  predicate Undecided(c: Expr, declared: set<string>) { c.Index? && c.name !in declared }

  /** Every expression a capture can reach is well scoped: a condition that can be evaluated holds, unless
      it is the empty string, as no value is empty at capture. */
  predicate Taken(t: Template, declared: set<string>, allowed: Option<set<string>>, valid: string -> bool)
    requires ConstantTemplate(t)
  {
    match t
    case Done => true
    case Raw(_, rest) => Taken(rest, declared, allowed, valid)
    case Action(e, rest) => WellScoped(e, declared, allowed, valid) && Taken(rest, declared, allowed, valid)
    case If(c, a, b, rest) =>
      && WellScoped(c, declared, allowed, valid)
      && (c != Str("") ==> Taken(a, declared, allowed, valid))
      && (c == Str("") || Undecided(c, declared) ==> Taken(b, declared, allowed, valid))
      && Taken(rest, declared, allowed, valid)
  }

  /** No condition on the way is undecided. */
  predicate Decided(t: Template, declared: set<string>) {
    match t
    case Done => true
    case Raw(_, rest) => Decided(rest, declared)
    case Action(_, rest) => Decided(rest, declared)
    case If(c, a, b, rest) =>
      !Undecided(c, declared) && (if c == Str("") then Decided(b, declared) else Decided(a, declared)) && Decided(rest, declared)
  }

  /** A condition that can be evaluated at capture is not empty, unless it is the empty string. */
  lemma {:induction false} NeverEmpty(p: Provider, c: Expr, declared: set<string>, data: Data)
    requires p.NoProvider? || p.Live?
    requires ConstantArguments(c) && CaptureData(declared, data) && !Undecided(c, declared)
    requires c.Param? ==> c.name in declared
    ensures var r := Eval(p, c, data).result; r.Ok? ==> (r.value == "" <==> c == Str(""))
  {
    if c.Resource? { ConstantResource(p, c, data); }
    assert Blank("");
  }

  /** A template scoped on what capture reaches can fail only on what a resource contains. */
  lemma {:induction false} TakenNeverMisses(t: Template, declared: set<string>, allowed: set<string>, valid: string -> bool,
                                            resources: map<string, Object>, data: Data)
    requires ConstantTemplate(t) && Taken(t, declared, Some(allowed), valid)
    requires CaptureData(declared, data) && allowed <= resources.Keys
    ensures RunTimeOnly(Render(Live(resources, valid), t, data).result)
  {
    hide CaptureData;
    var p := Live(resources, valid);
    match t
    case Done =>
    case Raw(_, rest) => TakenNeverMisses(rest, declared, allowed, valid, resources, data);
    case Action(e, rest) =>
      ScopedEval(e, declared, allowed, valid, resources, data);
      TakenNeverMisses(rest, declared, allowed, valid, resources, data);
    case If(c, a, b, rest) =>
      ScopedEval(c, declared, allowed, valid, resources, data);
      if !Undecided(c, declared) { NeverEmpty(p, c, declared, data); }
      if c != Str("") { TakenNeverMisses(a, declared, allowed, valid, resources, data); }
      if c == Str("") || Undecided(c, declared) { TakenNeverMisses(b, declared, allowed, valid, resources, data); }
      TakenNeverMisses(rest, declared, allowed, valid, resources, data);
  }

  lemma {:induction false} ScopedEval(e: Expr, declared: set<string>, allowed: set<string>, valid: string -> bool,
                                      resources: map<string, Object>, data: Data)
    requires ConstantArguments(e) && WellScoped(e, declared, Some(allowed), valid)
    requires CaptureData(declared, data) && allowed <= resources.Keys
    ensures RunTimeOnly(Eval(Live(resources, valid), e, data).result)
  {
    if e.Resource? { ConstantResource(Live(resources, valid), e, data); }
  }

  /** The same where `resource` is banned: such a template always renders. */
  lemma {:induction false} TakenNameRenders(t: Template, declared: set<string>, valid: string -> bool, data: Data)
    requires ConstantTemplate(t) && Taken(t, declared, None, valid) && CaptureData(declared, data)
    ensures Render(NoProvider, t, data).result.Ok?
  {
    match t
    case Done =>
    case Raw(_, rest) => TakenNameRenders(rest, declared, valid, data);
    case Action(e, rest) => TakenNameRenders(rest, declared, valid, data);
    case If(c, a, b, rest) =>
      if !Undecided(c, declared) { NeverEmpty(NoProvider, c, declared, data); }
      hide CaptureData;
      if c != Str("") { TakenNameRenders(a, declared, valid, data); }
      if c == Str("") || Undecided(c, declared) { TakenNameRenders(b, declared, valid, data); }
      TakenNameRenders(rest, declared, valid, data);
  }

  // ---------------------------------------------------------------- ... and no less will do

  function PathsOf(e: Expr): set<string> { if e.Resource? && e.path.Str? then {e.path.s} else {} }

  /** The paths a template reads. */
  function Paths(t: Template): set<string> {
    match t
    case Done => {}
    case Raw(_, rest) => Paths(rest)
    case Action(e, rest) => PathsOf(e) + Paths(rest)
    case If(c, a, b, rest) => PathsOf(c) + Paths(a) + Paths(b) + Paths(rest)
  }

  /** Resources in which every path is found, and data without anything undeclared. */
  function Rich(allowed: set<string>, paths: set<string>): map<string, Object> {
    map id | id in allowed :: map path | path in paths :: "1"
  }

  function Full(declared: set<string>): Data { Data("w", "n", map name | name in declared :: "1") }

  lemma {:induction false} FullIsData(declared: set<string>)
    ensures CaptureData(declared, Full(declared))
  {
    assert !IsSpace("1"[0]);
  }

  lemma {:induction false} RichEval(e: Expr, declared: set<string>, allowed: set<string>, valid: string -> bool, paths: set<string>)
    requires ConstantArguments(e) && PathsOf(e) <= paths
    ensures var r := Eval(Live(Rich(allowed, paths), valid), e, Full(declared)).result;
            if WellScoped(e, declared, Some(allowed), valid) then r.Ok? else r.Err? && !r.failure.PathFailed?
  {
    if e.Resource? { ConstantResource(Live(Rich(allowed, paths), valid), e, Full(declared)); }
  }

  /** There a template renders exactly when it is scoped on what is taken, and else fails statically. */
  lemma {:induction false} RichRender(t: Template, declared: set<string>, allowed: set<string>, valid: string -> bool, paths: set<string>)
    requires ConstantTemplate(t) && Decided(t, declared) && Paths(t) <= paths
    ensures var r := Render(Live(Rich(allowed, paths), valid), t, Full(declared)).result;
            if Taken(t, declared, Some(allowed), valid) then r.Ok? else r.Err? && !r.failure.PathFailed?
  {
    hide Rich, Full, Eval, WellScoped, CaptureData;
    match t
    case Done =>
    case Raw(_, rest) => RichRender(rest, declared, allowed, valid, paths);
    case Action(e, rest) =>
      RichEval(e, declared, allowed, valid, paths);
      RichRender(rest, declared, allowed, valid, paths);
    case If(c, a, b, rest) =>
      RichEval(c, declared, allowed, valid, paths);
      if WellScoped(c, declared, Some(allowed), valid) {
        assert c.Param? ==> c.name in declared by { ScopedParam(c, declared, allowed, valid); }
        FullIsData(declared);
        NeverEmpty(Live(Rich(allowed, paths), valid), c, declared, Full(declared));
        if c == Str("") {
          RichRender(b, declared, allowed, valid, paths);
        } else {
          RichRender(a, declared, allowed, valid, paths);
        }
        RichRender(rest, declared, allowed, valid, paths);
      }
  }

  lemma {:induction false} ScopedParam(c: Expr, declared: set<string>, allowed: set<string>, valid: string -> bool)
    requires ConstantArguments(c) && WellScoped(c, declared, Some(allowed), valid)
    ensures c.Param? ==> c.name in declared
  {
  }

  /** Capture never fails for a static reason, whatever the parameters and resources. */
  ghost predicate NeverStatic(t: Template, declared: set<string>, allowed: set<string>, valid: string -> bool) {
    forall resources: map<string, Object>, data: Data ::
      CaptureData(declared, data) && allowed <= resources.Keys ==> RunTimeOnly(Render(Live(resources, valid), t, data).result)
  }

  /** That is so exactly when every expression a capture reaches is well scoped. */
  lemma {:induction false} NeverStaticIff(t: Template, declared: set<string>, allowed: set<string>, valid: string -> bool)
    requires ConstantTemplate(t) && Decided(t, declared)
    ensures NeverStatic(t, declared, allowed, valid) <==> Taken(t, declared, Some(allowed), valid)
  {
    hide Render, Taken, CaptureData, RunTimeOnly;
    if Taken(t, declared, Some(allowed), valid) {
      forall resources: map<string, Object>, data: Data | CaptureData(declared, data) && allowed <= resources.Keys
        ensures RunTimeOnly(Render(Live(resources, valid), t, data).result)
      {
        TakenNeverMisses(t, declared, allowed, valid, resources, data);
      }
    } else {
      var resources, data := Rich(allowed, Paths(t)), Full(declared);
      FullIsData(declared);
      RichRender(t, declared, allowed, valid, Paths(t));
      assert !RunTimeOnly(Render(Live(resources, valid), t, data).result) by {
        FailsStatically(Render(Live(resources, valid), t, data).result);
      }
      assert allowed <= resources.Keys;
    }
  }

  lemma {:induction false} FailsStatically(r: Result<string>)
    requires r.Err? && !r.failure.PathFailed?
    ensures !RunTimeOnly(r)
  {
  }

  /** What admission looks at instead: it renders with empty values, so a condition fails unless it is a
      constant that is not empty. */
  predicate Checked(t: Template, declared: set<string>, allowed: Option<set<string>>, valid: string -> bool)
    requires ConstantTemplate(t)
  {
    match t
    case Done => true
    case Raw(_, rest) => Checked(rest, declared, allowed, valid)
    case Action(e, rest) => WellScoped(e, declared, allowed, valid) && Checked(rest, declared, allowed, valid)
    case If(c, a, b, rest) =>
      && WellScoped(c, declared, allowed, valid)
      && (if c.Str? && c.s != "" then Checked(a, declared, allowed, valid) else Checked(b, declared, allowed, valid))
      && Checked(rest, declared, allowed, valid)
  }

  lemma {:induction false} EmptyEval(e: Expr, declared: set<string>, allowed: Option<set<string>>, valid: string -> bool)
    requires ConstantArguments(e)
    ensures var r := Eval(CheckProvider(allowed, valid), e, CheckData(declared)).result;
            (r.Ok? <==> WellScoped(e, declared, allowed, valid)) && (r.Ok? ==> (r.value != "" <==> e.Str? && e.s != ""))
  {
    if e.Resource? { ConstantResource(CheckProvider(allowed, valid), e, CheckData(declared)); }
  }

  /** With conditionals too, the rendering check is exactly a scope check, of the branches it takes. */
  lemma {:induction false} CheckIsChecked(t: Template, declared: set<string>, allowed: Option<set<string>>, valid: string -> bool)
    requires ConstantTemplate(t)
    ensures Render(CheckProvider(allowed, valid), t, CheckData(declared)).result.Ok? <==> Checked(t, declared, allowed, valid)
  {
    hide Eval, WellScoped, CheckProvider, CheckData;
    match t
    case Done =>
    case Raw(_, rest) => CheckIsChecked(rest, declared, allowed, valid);
    case Action(e, rest) =>
      EmptyEval(e, declared, allowed, valid);
      CheckIsChecked(rest, declared, allowed, valid);
    case If(c, a, b, rest) =>
      EmptyEval(c, declared, allowed, valid);
      CheckIsChecked(a, declared, allowed, valid);
      CheckIsChecked(b, declared, allowed, valid);
      CheckIsChecked(rest, declared, allowed, valid);
  }

  /** A template that reads `typo` where the parameter `name` is set. */
  function Guarded(name: string, typo: string): (t: Template)
    ensures ConstantTemplate(t)
  {
    assert ConstantTemplate(Done) && ConstantTemplate(Action(Param(typo), Done));
    If(Param(name), Action(Param(typo), Done), Done, Done)
  }

  /** So admission does not look at the branch a supplied parameter takes: for every declared name there is
      a template it passes and capture cannot render, whatever is supplied. */
  lemma {:induction false} UntakenBranch(declared: set<string>, allowed: set<string>, valid: string -> bool, name: string, typo: string,
                                         resources: map<string, Object>, data: Data)
    requires name in declared && typo !in declared
    ensures var t := Guarded(name, typo); Checked(t, declared, Some(allowed), valid) && !Taken(t, declared, Some(allowed), valid)
    ensures CaptureData(declared, data) && typo !in data.parameters ==>
              Render(Live(resources, valid), Guarded(name, typo), data).result == Err(MissingParameter(typo))
  {
    var t := Guarded(name, typo);
    assert Checked(Done, declared, Some(allowed), valid) && !Taken(t.thn, declared, Some(allowed), valid);
    if CaptureData(declared, data) && typo !in data.parameters {
      NeverEmpty(Live(resources, valid), Param(name), declared, data);
      assert Render(Live(resources, valid), t.thn, data).result == Err(MissingParameter(typo));
    }
  }

  /** A well-scoped template, conditionals included, passes the rendering check. */
  lemma {:induction false} ScopedPasses(t: Template, declared: set<string>, allowed: Option<set<string>>, valid: string -> bool)
    requires ConstantTemplate(t) && AllWellScoped(t, declared, allowed, valid)
    ensures Render(CheckProvider(allowed, valid), t, CheckData(declared)).result.Ok?
  {
    match t
    case Done =>
    case Raw(_, rest) => ScopedPasses(rest, declared, allowed, valid);
    case Action(e, rest) =>
      if e.Resource? { ConstantResource(CheckProvider(allowed, valid), e, CheckData(declared)); }
      ScopedPasses(rest, declared, allowed, valid);
    case If(c, a, b, rest) =>
      if c.Resource? { ConstantResource(CheckProvider(allowed, valid), c, CheckData(declared)); }
      ScopedPasses(a, declared, allowed, valid);
      ScopedPasses(b, declared, allowed, valid);
      ScopedPasses(rest, declared, allowed, valid);
  }

  // ---------------------------------------------------------------- whole templates

  /** A field that refers only to what is declared, in every branch. */
  predicate ScopedField(f: Field, declared: set<string>, allowed: Option<set<string>>, valid: string -> bool) {
    f.Parsed? && ConstantTemplate(f.t) && AllWellScoped(f.t, declared, allowed, valid)
  }

  ghost predicate ScopedTemplate(template: IntegrationTemplate, valid: string -> bool) {
    var declared, allowed := Declared(template), Some(Handles(template));
    && (forall i :: 0 <= i < |template.resourceRefs| ==> ScopedField(template.resourceRefs[i].objectName, declared, None, valid))
    && forall i :: 0 <= i < |CaptureFields(template)| ==> ScopedField(CaptureFields(template)[i], declared, allowed, valid)
  }

  predicate PlainField(f: Field) {
    f.Parsed? ==> StraightLine(f.t) && ConstantTemplate(f.t)
  }

  ghost predicate PlainTemplate(template: IntegrationTemplate) {
    && (forall i :: 0 <= i < |template.resourceRefs| ==> PlainField(template.resourceRefs[i].objectName))
    && forall i :: 0 <= i < |CaptureFields(template)| ==> PlainField(CaptureFields(template)[i])
  }

  /** Admission of a whole template, as one condition on each field. */
  lemma {:induction false} AdmissibleFields(template: IntegrationTemplate, valid: string -> bool)
    ensures Admissible(template, valid) <==>
              && (forall i :: 0 <= i < |template.resourceRefs| ==>
                    FieldPasses(NoProvider, Declared(template), template.resourceRefs[i].objectName))
              && FieldsPass(Checker(Handles(template), valid), Declared(template), CaptureFields(template))
  {
    hide FieldPasses, PodFields;
    var checker := Checker(Handles(template), valid);
    var podFields := if template.pod.Some? then PodFields(template.pod.value) else [];
    PassParts(checker, Declared(template), podFields, ProbeFields(template.probe));
    NoFields(checker, Declared(template));
  }

  lemma {:induction false} FieldScopePasses(f: Field, declared: set<string>, allowed: Option<set<string>>, valid: string -> bool)
    ensures ScopedField(f, declared, allowed, valid) ==> FieldPasses(CheckProvider(allowed, valid), declared, f)
    ensures PlainField(f) ==> (FieldPasses(CheckProvider(allowed, valid), declared, f) <==> ScopedField(f, declared, allowed, valid))
  {
    hide Render, AllWellScoped, ConstantTemplate, StraightLine;
    if ScopedField(f, declared, allowed, valid) {
      ScopedPasses(f.t, declared, allowed, valid);
    }
    if f.Parsed? && PlainField(f) {
      CheckIsScope(f.t, declared, allowed, valid);
    }
  }

  /** Templates scoped in every branch are admitted, and of straight-line templates with constant
      `resource` arguments only those. */
  lemma {:induction false} ScopedIsAdmitted(template: IntegrationTemplate, valid: string -> bool)
    ensures ScopedTemplate(template, valid) ==> Admissible(template, valid)
    ensures PlainTemplate(template) ==> (Admissible(template, valid) <==> ScopedTemplate(template, valid))
  {
    hide FieldPasses, ScopedField, PlainField, CaptureFields, Admissible;
    AdmissibleFields(template, valid);
    var declared, allowed := Declared(template), Some(Handles(template));
    forall i | 0 <= i < |template.resourceRefs| {
      FieldScopePasses(template.resourceRefs[i].objectName, declared, None, valid);
    }
    forall i | 0 <= i < |CaptureFields(template)| {
      FieldScopePasses(CaptureFields(template)[i], declared, allowed, valid);
    }
  }

  lemma {:induction false} FieldsNeverMiss(fs: seq<Field>, declared: set<string>, allowed: set<string>, valid: string -> bool,
                                           resources: map<string, Object>, data: Data)
    requires forall i :: 0 <= i < |fs| ==> ScopedField(fs[i], declared, Some(allowed), valid)
    requires declared <= data.parameters.Keys && allowed <= resources.Keys
    ensures var r := ResolveAll(Live(resources, valid), fs, data).result; r.Ok? || r.failure.PathFailed?
  {
    hide Render, AllWellScoped, ConstantTemplate;
    if fs != [] {
      assert ScopedField(fs[0], declared, Some(allowed), valid);
      ScopedNeverMisses(fs[0].t, declared, allowed, valid, resources, data);
      FieldsNeverMiss(fs[1..], declared, allowed, valid, resources, data);
    }
  }

  lemma {:induction false} FetchNeverMisses(template: IntegrationTemplate, n: nat, data: Data, cluster: Cluster)
    requires ScopedTemplate(template, cluster.valid) && Declared(template) <= data.parameters.Keys
    requires n <= |template.resourceRefs|
    ensures var r := Fetch(template.resourceRefs[..n], data, cluster); r.Ok? || r.failure in {EmptyName, NotFetched}
    decreases n
  {
    if n > 0 {
      hide Render, AllWellScoped, ConstantTemplate, PodFields;
      FetchNeverMisses(template, n - 1, data, cluster);
      assert template.resourceRefs[..n][..n - 1] == template.resourceRefs[..n - 1];
      var f, declared := template.resourceRefs[n - 1].objectName, Declared(template);
      assert ScopedField(f, declared, None, cluster.valid);
      ScopedNameRenders(f.t, declared, cluster.valid, data);
    }
  }

  /** A field scoped on what a capture reaches. */
  predicate TakenField(f: Field, declared: set<string>, allowed: Option<set<string>>, valid: string -> bool) {
    f.Parsed? && ConstantTemplate(f.t) && Taken(f.t, declared, allowed, valid)
  }

  ghost predicate TakenTemplate(template: IntegrationTemplate, valid: string -> bool) {
    var declared, allowed := Declared(template), Some(Handles(template));
    && (forall i :: 0 <= i < |template.resourceRefs| ==> TakenField(template.resourceRefs[i].objectName, declared, None, valid))
    && forall i :: 0 <= i < |CaptureFields(template)| ==> TakenField(CaptureFields(template)[i], declared, allowed, valid)
  }

  lemma {:induction false} TakenFieldsNeverMiss(fs: seq<Field>, declared: set<string>, allowed: set<string>, valid: string -> bool,
                                                resources: map<string, Object>, data: Data)
    requires forall i :: 0 <= i < |fs| ==> TakenField(fs[i], declared, Some(allowed), valid)
    requires CaptureData(declared, data) && allowed <= resources.Keys
    ensures var r := ResolveAll(Live(resources, valid), fs, data).result; r.Ok? || r.failure.PathFailed?
  {
    hide Render, Taken, ConstantTemplate, CaptureData;
    if fs != [] {
      assert TakenField(fs[0], declared, Some(allowed), valid);
      TakenNeverMisses(fs[0].t, declared, allowed, valid, resources, data);
      TakenFieldsNeverMiss(fs[1..], declared, allowed, valid, resources, data);
    }
  }

  lemma {:induction false} TakenFetch(template: IntegrationTemplate, n: nat, data: Data, cluster: Cluster)
    requires TakenTemplate(template, cluster.valid) && CaptureData(Declared(template), data) && n <= |template.resourceRefs|
    ensures var r := Fetch(template.resourceRefs[..n], data, cluster); r.Ok? || r.failure in {EmptyName, NotFetched}
    decreases n
  {
    if n > 0 {
      hide Render, Taken, ConstantTemplate, PodFields, CaptureData;
      TakenFetch(template, n - 1, data, cluster);
      assert template.resourceRefs[..n][..n - 1] == template.resourceRefs[..n - 1];
      var f, declared := template.resourceRefs[n - 1].objectName, Declared(template);
      assert TakenField(f, declared, None, cluster.valid);
      TakenNameRenders(f.t, declared, cluster.valid, data);
    }
  }

  lemma {:induction false} SuppliedData(template: IntegrationTemplate, data: Data)
    requires ParametersSupplied(template, data.parameters) && data.workspaceName != "" && data.workspaceNamespace != ""
    ensures CaptureData(Declared(template), data)
  {
  }

  /** Whole captures: scoped on what is taken is enough for an admitted reference. */
  lemma {:induction false} TakenIsSound(template: IntegrationTemplate, data: Data, cluster: Cluster)
    requires TakenTemplate(template, cluster.valid) && ParametersSupplied(template, data.parameters)
    requires data.workspaceName != "" && data.workspaceNamespace != ""
    ensures var r := CaptureValues(template, data, cluster);
            r.Ok? || r.failure in {EmptyName, NotFetched} || r.failure.PathFailed?
  {
    hide ResolveAll, TakenField, PodFields, Record, CaptureData, ParametersSupplied;
    var declared, refs := Declared(template), template.resourceRefs;
    SuppliedData(template, data);
    TakenFetch(template, |refs|, data, cluster);
    assert refs[..|refs|] == refs;
    var resources := Fetch(refs, data, cluster);
    if resources.Ok? {
      assert Handles(template) <= resources.value.Keys;
      TakenFieldsNeverMiss(CaptureFields(template), declared, Handles(template), cluster.valid, resources.value, data);
    }
  }

  /** Scoped in every branch is more than that. */
  lemma {:induction false} ScopedIsTaken(t: Template, declared: set<string>, allowed: Option<set<string>>, valid: string -> bool)
    requires ConstantTemplate(t) && AllWellScoped(t, declared, allowed, valid)
    ensures Taken(t, declared, allowed, valid)
  {
    hide WellScoped;
    match t
    case Done =>
    case Raw(_, rest) => ScopedIsTaken(rest, declared, allowed, valid);
    case Action(_, rest) => ScopedIsTaken(rest, declared, allowed, valid);
    case If(_, a, b, rest) =>
      ScopedIsTaken(a, declared, allowed, valid);
      ScopedIsTaken(b, declared, allowed, valid);
      ScopedIsTaken(rest, declared, allowed, valid);
  }

  /** Admission is sound: a capture of a template scoped in every branch, conditionals included, for an
      admitted reference fails only because of the cluster, never for an undeclared parameter or handle,
      an unknown field, a syntax error or a malformed JSONPath. */
  lemma {:induction false} ScopedIsSound(template: IntegrationTemplate, data: Data, cluster: Cluster)
    requires ScopedTemplate(template, cluster.valid) && ParametersSupplied(template, data.parameters)
    ensures var r := CaptureValues(template, data, cluster);
            r.Ok? || r.failure in {EmptyName, NotFetched} || r.failure.PathFailed?
  {
    hide ResolveAll, ScopedField, PodFields, Record;
    var declared, refs := Declared(template), template.resourceRefs;
    assert declared <= data.parameters.Keys;
    FetchNeverMisses(template, |refs|, data, cluster);
    assert refs[..|refs|] == refs;
    var resources := Fetch(refs, data, cluster);
    if resources.Ok? {
      assert Handles(template) <= resources.value.Keys;
      FieldsNeverMiss(CaptureFields(template), declared, Handles(template), cluster.valid, resources.value, data);
    }
  }

  /** For straight-line templates with constant `resource` arguments being admitted is enough. */
  lemma {:induction false} AdmissionIsSound(template: IntegrationTemplate, data: Data, cluster: Cluster)
    requires Admissible(template, cluster.valid) && PlainTemplate(template)
    requires ParametersSupplied(template, data.parameters)
    ensures var r := CaptureValues(template, data, cluster);
            r.Ok? || r.failure in {EmptyName, NotFetched} || r.failure.PathFailed?
  {
    hide CaptureValues, Admissible, ScopedTemplate, PlainTemplate;
    ScopedIsAdmitted(template, cluster.valid);
    ScopedIsSound(template, data, cluster);
  }
}
