/** Admission of workspaces that refer to a template (internal/webhook/v1alpha1/template_validator.go,
    spec_comparator.go, image_validator.go, resource_validator.go, storage_validator.go,
    volume_validator.go, initcontainer_validator.go, env_validator.go, idle_shutdown_validator.go): each
    check, the decision on updates, and what every run of accepted requests keeps. */
module Admission {
  import opened Text

  /** A Go slice: semantic equality does not tell nil from empty, reflective equality does. */
  datatype Slice = Nil | List(items: seq<string>)

  function Items(s: Slice): seq<string> { if s.Nil? then [] else s.items }

  /** The request of the idle detection; `action` stands for its path, port, transport and parsing. */
  datatype HttpGet = HttpGet(action: string, headers: Slice)

  datatype Idle = Idle(enabled: bool, timeout: int, detection: Option<HttpGet>)

  datatype Resources = Resources(requests: map<string, int>, limits: map<string, int>)

  datatype Ref = Ref(name: string, namespace: string)

  /** A workspace spec; `rest` stands for the fields no template constrains. */
  datatype Spec = Spec(templateRef: Option<Ref>, desiredStatus: string, image: string, resources: Option<Resources>,
    storage: Option<int>, volumes: seq<string>, initContainers: seq<string>, env: seq<(string, string)>,
    idle: Option<Idle>, rest: string)

  datatype Range = Range(min: int, max: int)

  datatype EnvRequirement = EnvRequirement(name: string, required: Option<bool>, regex: string)

  datatype IdlePolicy = IdlePolicy(allow: Option<bool>, min: Option<int>, max: Option<int>)

  datatype Template = Template(allowCustomImages: Option<bool>, allowedImages: seq<string>, defaultImage: string,
    bounds: map<string, Range>, minStorage: Option<int>, maxStorage: Option<int>, allowSecondaryStorages: Option<bool>,
    allowCustomInitContainers: Option<bool>, defaultInitContainers: seq<string>, envRequirements: seq<EnvRequirement>,
    idlePolicy: Option<IdlePolicy>, defaultIdle: Option<Idle>)

  /** Regular expression matching; None when the expression does not compile. */
  type Matcher = (string, string) -> Option<bool>

  datatype Violation =
    | ImageNotAllowed | LimitBelowRequest(name: string) | BelowMin(name: string) | AboveMax(name: string)
    | StorageOutOfBounds | VolumesNotAllowed | InitContainersNotAllowed | LabelMissing
    | EnvMissing(name: string) | EnvMismatch(name: string) | IdleNotAllowed | IdleOutOfBounds

  // ---------------------------------------------------------------- what a template allows

  predicate ImageOk(image: string, t: Template) {
    || t.allowCustomImages == Some(true)
    || (if t.allowedImages == [] then image == t.defaultImage else image in t.allowedImages)
  }

  predicate LimitOk(r: Resources, name: string) {
    name in r.requests && name in r.limits ==> r.requests[name] <= r.limits[name]
  }

  predicate InRange(amounts: map<string, int>, name: string, range: Range) {
    name in amounts ==> range.min <= amounts[name] <= range.max
  }

  ghost predicate WithinBounds(amounts: map<string, int>, bounds: map<string, Range>) {
    forall name :: name in bounds ==> InRange(amounts, name, bounds[name])
  }

  ghost predicate ResourcesOk(r: Resources, t: Template) {
    LimitOk(r, "cpu") && LimitOk(r, "memory") && WithinBounds(r.requests, t.bounds) && WithinBounds(r.limits, t.bounds)
  }

  predicate StorageOk(size: int, t: Template) {
    (t.minStorage.Some? ==> t.minStorage.value <= size) && (t.maxStorage.Some? ==> size <= t.maxStorage.value)
  }

  predicate VolumesOk(volumes: seq<string>, t: Template) { volumes == [] || t.allowSecondaryStorages != Some(false) }

  predicate InitContainersOk(cs: seq<string>, t: Template) {
    cs == [] || t.allowCustomInitContainers == Some(true) || cs == t.defaultInitContainers
  }

  /** The value of a variable: the last one of its name. */
  function EnvValue(env: seq<(string, string)>, name: string): Option<string> {
    if env == [] then None
    else if env[|env| - 1].0 == name then Some(env[|env| - 1].1)
    else EnvValue(env[..|env| - 1], name)
  }

  /** What the scan finds: the last entry of that name, if there is one. */
  lemma {:induction false} EnvValueIsLast(env: seq<(string, string)>, name: string)
    ensures EnvValue(env, name).None? <==> forall i :: 0 <= i < |env| ==> env[i].0 != name
    ensures forall i :: 0 <= i < |env| && env[i].0 == name && (forall j :: i < j < |env| ==> env[j].0 != name) ==>
              EnvValue(env, name) == Some(env[i].1)
  {
    if env != [] {
      var n := |env| - 1;
      EnvValueIsLast(env[..n], name);
      assert forall i :: 0 <= i < n ==> env[..n][i] == env[i];
    }
  }

  predicate RequirementOk(value: Option<string>, req: EnvRequirement, matches: Matcher) {
    && (req.required == Some(true) ==> value.Some?)
    && (value.Some? && req.regex != "" ==> matches(req.regex, value.value) == Some(true))
  }

  ghost predicate EnvOk(env: seq<(string, string)>, t: Template, matches: Matcher) {
    forall i :: 0 <= i < |t.envRequirements| ==>
      RequirementOk(EnvValue(env, t.envRequirements[i].name), t.envRequirements[i], matches)
  }

  predicate Locked(t: Template) {
    t.idlePolicy.Some? && t.idlePolicy.value.allow == Some(false) && t.defaultIdle.Some?
  }

  /** The bounds on the timeout: a locked policy pins a side it does not declare to the default. */
  function LowerBound(t: Template): Option<int>
    requires t.idlePolicy.Some?
  {
    if t.idlePolicy.value.min.Some? then t.idlePolicy.value.min
    else if Locked(t) then Some(t.defaultIdle.value.timeout) else None
  }

  function UpperBound(t: Template): Option<int>
    requires t.idlePolicy.Some?
  {
    if t.idlePolicy.value.max.Some? then t.idlePolicy.value.max
    else if Locked(t) then Some(t.defaultIdle.value.timeout) else None
  }

  predicate TimeoutOk(timeout: int, t: Template)
    requires t.idlePolicy.Some?
  {
    (LowerBound(t).Some? ==> LowerBound(t).value <= timeout) && (UpperBound(t).Some? ==> timeout <= UpperBound(t).value)
  }

  /** Reflectively equal but for the timeout. */
  predicate SameStructure(a: Idle, b: Idle) { a.(timeout := 0) == b.(timeout := 0) }

  predicate IdleOk(idle: Option<Idle>, t: Template) {
    t.idlePolicy.Some? ==>
      && (Locked(t) ==> idle.Some? && SameStructure(idle.value, t.defaultIdle.value))
      && (idle.Some? && idle.value.enabled ==> TimeoutOk(idle.value.timeout, t))
  }

  /** All constraints but the one on idle shutdown. */
  ghost predicate OtherwiseWithin(spec: Spec, t: Template, matches: Matcher) {
    && (spec.image != "" ==> ImageOk(spec.image, t))
    && (spec.resources.Some? ==> ResourcesOk(spec.resources.value, t))
    && (spec.storage.Some? && spec.storage.value != 0 ==> StorageOk(spec.storage.value, t))
    && VolumesOk(spec.volumes, t)
    && InitContainersOk(spec.initContainers, t)
    && EnvOk(spec.env, t, matches)
  }

  /** The constraints of a template on a spec; labels are metadata and not among them. */
  ghost predicate Within(spec: Spec, t: Template, matches: Matcher) {
    OtherwiseWithin(spec, t, matches) && IdleOk(spec.idle, t)
  }

  // ---------------------------------------------------------------- the constraints, said outright

  predicate LastEntry(env: seq<(string, string)>, i: int, name: string) {
    0 <= i < |env| && env[i].0 == name && forall j :: i < j < |env| ==> env[j].0 != name
  }

  ghost predicate RequirementMet(env: seq<(string, string)>, req: EnvRequirement, matches: Matcher) {
    && (req.required == Some(true) ==> exists i :: 0 <= i < |env| && env[i].0 == req.name)
    && (req.regex != "" ==> forall i :: LastEntry(env, i, req.name) ==> matches(req.regex, env[i].1) == Some(true))
  }

  ghost predicate AmountsFit(r: Resources, bounds: map<string, Range>) {
    && (forall name :: name in r.requests && name in r.limits && name in ["cpu", "memory"] ==> r.requests[name] <= r.limits[name])
    && (forall name :: name in bounds && name in r.requests ==> bounds[name].min <= r.requests[name] <= bounds[name].max)
    && (forall name :: name in bounds && name in r.limits ==> bounds[name].min <= r.limits[name] <= bounds[name].max)
  }

  ghost predicate IdleFits(idle: Option<Idle>, policy: IdlePolicy, default: Option<Idle>) {
    var locked := policy.allow == Some(false) && default.Some?;
    && (locked ==> idle.Some? && idle.value.enabled == default.value.enabled && idle.value.detection == default.value.detection)
    && (idle.Some? && idle.value.enabled ==>
          var timeout := idle.value.timeout;
          && (policy.min.Some? ==> timeout >= policy.min.value)
          && (policy.max.Some? ==> timeout <= policy.max.value)
          && (locked && policy.min.None? ==> timeout >= default.value.timeout)
          && (locked && policy.max.None? ==> timeout <= default.value.timeout))
  }

  /** What it takes to fit a template. */
  ghost predicate Fits(spec: Spec, t: Template, matches: Matcher) {
    && (spec.image != "" && t.allowCustomImages != Some(true) ==>
          spec.image in t.allowedImages || (t.allowedImages == [] && spec.image == t.defaultImage))
    && (spec.resources.Some? ==> AmountsFit(spec.resources.value, t.bounds))
    && (spec.storage.Some? && spec.storage.value != 0 ==>
          !(t.minStorage.Some? && spec.storage.value < t.minStorage.value) && !(t.maxStorage.Some? && spec.storage.value > t.maxStorage.value))
    && !(spec.volumes != [] && t.allowSecondaryStorages == Some(false))
    && (spec.initContainers != [] && t.allowCustomInitContainers != Some(true) ==> spec.initContainers == t.defaultInitContainers)
    && (forall req :: req in t.envRequirements ==> RequirementMet(spec.env, req, matches))
    && (t.idlePolicy.Some? ==> IdleFits(spec.idle, t.idlePolicy.value, t.defaultIdle))
  }

  lemma {:induction false} RequirementIsMet(env: seq<(string, string)>, req: EnvRequirement, matches: Matcher)
    ensures RequirementOk(EnvValue(env, req.name), req, matches) <==> RequirementMet(env, req, matches)
  {
    hide EnvValue;
    EnvValueIsLast(env, req.name);
    if EnvValue(env, req.name).Some? {
      var i := LastIndex(env, req.name);
      assert LastEntry(env, i, req.name);
    }
  }

  lemma {:induction false} LastIndex(env: seq<(string, string)>, name: string) returns (i: nat)
    requires exists k :: 0 <= k < |env| && env[k].0 == name
    ensures LastEntry(env, i, name)
  {
    var n := |env| - 1;
    if env[n].0 == name {
      i := n;
    } else {
      var k :| 0 <= k < |env| && env[k].0 == name;
      assert env[..n][k].0 == name;
      i := LastIndex(env[..n], name);
      assert forall j :: 0 <= j < n ==> env[..n][j] == env[j];
    }
  }

  lemma {:induction false} AmountsAreOk(r: Resources, t: Template)
    ensures ResourcesOk(r, t) <==> AmountsFit(r, t.bounds)
  {
    assert "cpu" in ["cpu", "memory"] && "memory" in ["cpu", "memory"];
    assert ResourcesOk(r, t) ==>
             forall name :: name in t.bounds ==> InRange(r.requests, name, t.bounds[name]) && InRange(r.limits, name, t.bounds[name]);
  }

  lemma {:induction false} IdleIsOk(idle: Option<Idle>, t: Template)
    ensures IdleOk(idle, t) <==> (t.idlePolicy.Some? ==> IdleFits(idle, t.idlePolicy.value, t.defaultIdle))
  {
  }

  /** The checks together say exactly that. */
  lemma {:induction false} WithinIsFits(spec: Spec, t: Template, matches: Matcher)
    ensures Within(spec, t, matches) <==> Fits(spec, t, matches)
  {
    hide ResourcesOk, AmountsFit, IdleOk, IdleFits, RequirementOk, RequirementMet, EnvValue;
    if spec.resources.Some? {
      AmountsAreOk(spec.resources.value, t);
    }
    IdleIsOk(spec.idle, t);
    forall i | 0 <= i < |t.envRequirements|
      ensures RequirementOk(EnvValue(spec.env, t.envRequirements[i].name), t.envRequirements[i], matches)
              <==> RequirementMet(spec.env, t.envRequirements[i], matches)
    {
      RequirementIsMet(spec.env, t.envRequirements[i], matches);
    }
  }

  // ---------------------------------------------------------------- the checks

  method ValidateImageAllowed(image: string, t: Template) returns (violations: seq<Violation>)
    ensures violations == if ImageOk(image, t) then [] else [ImageNotAllowed]
  {
    if t.allowCustomImages == Some(true) {
      return [];
    }
    var effective := t.allowedImages;
    if |t.allowedImages| == 0 {
      effective := [t.defaultImage];
    }
    for i := 0 to |effective|
      invariant image !in effective[..i]
    {
      if image == effective[i] {
        return [];
      }
    }
    assert effective[..|effective|] == effective;
    return [ImageNotAllowed];
  }

  method ValidateResourceListBounds(amounts: map<string, int>, bounds: map<string, Range>) returns (violations: seq<Violation>)
    ensures violations == [] <==> WithinBounds(amounts, bounds)
    ensures forall v :: v in violations ==> BreaksBound(v, amounts, bounds)
  {
    violations := [];
    var names := bounds.Keys;
    while names != {}
      invariant names <= bounds.Keys
      invariant violations == [] <==> forall name :: name in bounds && name !in names ==> InRange(amounts, name, bounds[name])
      invariant forall v :: v in violations ==> BreaksBound(v, amounts, bounds)
      decreases |names|
    {
      var name :| name in names;
      var range := bounds[name];
      if name in amounts {
        if amounts[name] < range.min {
          violations := violations + [BelowMin(name)];
        }
        if amounts[name] > range.max {
          violations := violations + [AboveMax(name)];
        }
      }
      assert InRange(amounts, name, range) <==> !(name in amounts && (amounts[name] < range.min || amounts[name] > range.max));
      names := names - {name};
    }
  }

  /** A violation names a bound that is really broken. */
  predicate BreaksBound(v: Violation, amounts: map<string, int>, bounds: map<string, Range>) {
    match v
    case BelowMin(name) => name in amounts && name in bounds && amounts[name] < bounds[name].min
    case AboveMax(name) => name in amounts && name in bounds && amounts[name] > bounds[name].max
    case _ => false
  }

  method ValidateResourceBounds(r: Resources, t: Template) returns (violations: seq<Violation>)
    ensures violations == [] <==> ResourcesOk(r, t)
  {
    violations := [];
    if "cpu" in r.requests && "cpu" in r.limits && r.limits["cpu"] < r.requests["cpu"] {
      violations := violations + [LimitBelowRequest("cpu")];
    }
    if "memory" in r.requests && "memory" in r.limits && r.limits["memory"] < r.requests["memory"] {
      violations := violations + [LimitBelowRequest("memory")];
    }
    var requests := ValidateResourceListBounds(r.requests, t.bounds);
    violations := violations + requests;
    var limits := ValidateResourceListBounds(r.limits, t.bounds);
    violations := violations + limits;
  }

  method ValidateStorageSize(size: int, t: Template) returns (violations: seq<Violation>)
    ensures violations == if StorageOk(size, t) then [] else [StorageOutOfBounds]
  {
    if t.minStorage.Some? && size < t.minStorage.value {
      return [StorageOutOfBounds];
    }
    if t.maxStorage.Some? && size > t.maxStorage.value {
      return [StorageOutOfBounds];
    }
    return [];
  }

  method ValidateInitContainers(cs: seq<string>, t: Template) returns (violations: seq<Violation>)
    ensures violations == if InitContainersOk(cs, t) then [] else [InitContainersNotAllowed]
  {
    if |cs| == 0 {
      return [];
    }
    if t.allowCustomInitContainers == Some(true) {
      return [];
    }
    if |cs| == |t.defaultInitContainers| {
      var allMatch := true;
      for i := 0 to |cs|
        invariant allMatch
        invariant cs[..i] == t.defaultInitContainers[..i]
      {
        if cs[i] != t.defaultInitContainers[i] {
          allMatch := false;
          break;
        }
      }
      if allMatch {
        assert cs == cs[..|cs|] && t.defaultInitContainers == t.defaultInitContainers[..|cs|];
        return [];
      }
    }
    return [InitContainersNotAllowed];
  }

  method ValidateEnvRequirements(env: seq<(string, string)>, t: Template, matches: Matcher) returns (violations: seq<Violation>)
    ensures violations == [] <==> EnvOk(env, t, matches)
  {
    if |t.envRequirements| == 0 {
      return [];
    }
    var values: map<string, string> := map[];
    for i := 0 to |env|
      invariant forall name :: (name in values <==> EnvValue(env[..i], name).Some?)
      invariant forall name :: name in values ==> EnvValue(env[..i], name) == Some(values[name])
    {
      assert env[..i + 1][..i] == env[..i];
      values := values[env[i].0 := env[i].1];
    }
    assert env[..|env|] == env;
    violations := [];
    for i := 0 to |t.envRequirements|
      invariant violations == [] <==>
        forall j :: 0 <= j < i ==> RequirementOk(EnvValue(env, t.envRequirements[j].name), t.envRequirements[j], matches)
    {
      var req := t.envRequirements[i];
      var isSet := req.name in values;
      if req.required == Some(true) && !isSet {
        violations := violations + [EnvMissing(req.name)];
        continue;
      }
      if isSet && req.regex != "" {
        var matched := matches(req.regex, values[req.name]);
        if matched.None? {
          violations := violations + [EnvMismatch(req.name)];
          continue;
        }
        if !matched.value {
          violations := violations + [EnvMismatch(req.name)];
        }
      }
    }
  }

  method ValidateIdleTimeoutBounds(timeout: int, t: Template) returns (violations: seq<Violation>)
    requires t.idlePolicy.Some?
    ensures violations == if TimeoutOk(timeout, t) then [] else [IdleOutOfBounds]
  {
    var policy := t.idlePolicy.value;
    var minTimeout, hasMin := 0, false;
    if policy.min.Some? {
      minTimeout, hasMin := policy.min.value, true;
    }
    var maxTimeout, hasMax := 0, false;
    if policy.max.Some? {
      maxTimeout, hasMax := policy.max.value, true;
    }
    var allowOverride := policy.allow.None? || policy.allow.value;
    if !allowOverride && t.defaultIdle.Some? {
      if !hasMin {
        minTimeout, hasMin := t.defaultIdle.value.timeout, true;
      }
      if !hasMax {
        maxTimeout, hasMax := t.defaultIdle.value.timeout, true;
      }
    }
    var belowMin := hasMin && timeout < minTimeout;
    var aboveMax := hasMax && timeout > maxTimeout;
    if !belowMin && !aboveMax {
      return [];
    }
    return [IdleOutOfBounds];
  }

  method ValidateIdleShutdownOverrides(idle: Option<Idle>, t: Template) returns (violations: seq<Violation>)
    ensures violations == [] <==> IdleOk(idle, t)
    ensures IdleNotAllowed in violations <==> Locked(t) && (idle.None? || !SameStructure(idle.value, t.defaultIdle.value))
  {
    if t.idlePolicy.None? {
      return [];
    }
    var policy := t.idlePolicy.value;
    var allowOverride := policy.allow.None? || policy.allow.value;
    violations := [];
    if !allowOverride && t.defaultIdle.Some? {
      if idle.None? {
        return [IdleNotAllowed];
      }
      if idle.value.(timeout := 0) != t.defaultIdle.value.(timeout := 0) {
        violations := violations + [IdleNotAllowed];
      }
    }
    if idle.Some? && idle.value.enabled {
      var timeout := ValidateIdleTimeoutBounds(idle.value.timeout, t);
      violations := violations + timeout;
    }
  }

  // ---------------------------------------------------------------- create and update

  /** What does not change between requests: the templates, the namespaces and the matcher. */
  datatype World = World(templates: map<Ref, Template>, namespace: string, shared: string, matches: Matcher)

  predicate NamespaceOk(w: World, ref: Ref) {
    ref.namespace == "" || ref.namespace == w.namespace || (w.shared != "" && ref.namespace == w.shared)
  }

  /** A spec is within the template it refers to, if any. */
  ghost predicate Admissible(w: World, spec: Spec) {
    spec.templateRef.Some? ==>
      && NamespaceOk(w, spec.templateRef.value)
      && spec.templateRef.value in w.templates
      && Within(spec, w.templates[spec.templateRef.value], w.matches)
  }

  /** `labelsOk` is the outcome of the label requirements, which look at metadata. */
  method ValidateCreateWorkspace(w: World, spec: Spec, labelsOk: bool) returns (accepted: bool)
    ensures accepted <==> Admissible(w, spec) && (spec.templateRef.Some? ==> labelsOk)
    ensures accepted <==> (spec.templateRef.Some? ==>
              var ref := spec.templateRef.value;
              && (ref.namespace in ["", w.namespace] || ref.namespace == w.shared)
              && ref in w.templates && Fits(spec, w.templates[ref], w.matches) && labelsOk)
  {
    hide Fits, Within;
    if spec.templateRef.Some? && spec.templateRef.value in w.templates {
      WithinIsFits(spec, w.templates[spec.templateRef.value], w.matches);
    }
    if spec.templateRef.None? {
      return true;
    }
    var ref := spec.templateRef.value;
    if !NamespaceOk(w, ref) {
      return false;
    }
    if ref !in w.templates {
      return false;
    }
    var violations := CollectViolations(spec, w.templates[ref], w.matches);
    if !labelsOk {
      violations := violations + [LabelMissing];
    }
    return |violations| == 0;
  }

  method CollectViolations(spec: Spec, t: Template, matches: Matcher) returns (violations: seq<Violation>)
    ensures violations == [] <==> Within(spec, t, matches)
  {
    hide ImageOk, ResourcesOk, StorageOk, InitContainersOk, EnvOk, IdleOk;
    violations := [];
    if spec.image != "" {
      var image := ValidateImageAllowed(spec.image, t);
      violations := violations + image;
    }
    if spec.resources.Some? {
      var resources := ValidateResourceBounds(spec.resources.value, t);
      violations := violations + resources;
    }
    if spec.storage.Some? && spec.storage.value != 0 {
      var storage := ValidateStorageSize(spec.storage.value, t);
      violations := violations + storage;
    }
    if |spec.volumes| != 0 && t.allowSecondaryStorages == Some(false) {
      violations := violations + [VolumesNotAllowed];
    }
    var initContainers := ValidateInitContainers(spec.initContainers, t);
    violations := violations + initContainers;
    var env := ValidateEnvRequirements(spec.env, t, matches);
    violations := violations + env;
    var idle := ValidateIdleShutdownOverrides(spec.idle, t);
    violations := violations + idle;
  }

  /** Semantic equality: slices compare by their items. */
  predicate SameIdle(a: Option<Idle>, b: Option<Idle>) {
    match (a, b)
    case (Some(x), Some(y)) =>
      && x.enabled == y.enabled && x.timeout == y.timeout
      && (match (x.detection, y.detection)
          case (Some(g), Some(h)) => g.action == h.action && Items(g.headers) == Items(h.headers)
          case (None, None) => true
          case _ => false)
    case (None, None) => true
    case _ => false
  }

  predicate SameSpec(a: Spec, b: Spec) {
    a.(idle := None) == b.(idle := None) && SameIdle(a.idle, b.idle)
  }

  const STOPPED := "Stopped"

  /** The updates that are let through without looking at the template. */
  predicate Unchecked(was: Spec, spec: Spec) {
    || spec.templateRef.None?
    || SameSpec(was, spec)
    || (spec.desiredStatus == STOPPED && was.desiredStatus != STOPPED && SameSpec(was.(desiredStatus := STOPPED), spec))
  }

  ghost predicate UpdateAccepted(w: World, was: Spec, spec: Spec, labelsOk: bool) {
    Unchecked(was, spec) || (Admissible(w, spec) && labelsOk)
  }

  /** The decision on an update, as the source takes it; only the name tells one templateRef from another. */
  method ValidateUpdateWorkspace(w: World, was: Spec, spec: Spec, labelsOk: bool) returns (accepted: bool)
    ensures accepted <==> UpdateAccepted(w, was, spec, labelsOk)
    ensures spec.templateRef.None? || spec == was ==> accepted
    ensures was.desiredStatus != STOPPED && spec == was.(desiredStatus := STOPPED) ==> accepted
    ensures spec.templateRef.Some? && labelsOk && Admissible(w, spec) ==> accepted
    ensures accepted && spec.templateRef.Some? && !(Admissible(w, spec) && labelsOk) ==>
              was.(desiredStatus := spec.desiredStatus, idle := spec.idle) == spec && SameIdle(was.idle, spec.idle)
              && (spec.desiredStatus == was.desiredStatus || spec.desiredStatus == STOPPED)
  {
    hide Admissible;
    assert SameIdle(was.idle, was.idle);
    var refDeleted := was.templateRef.Some? && spec.templateRef.None?;
    var refAdded := was.templateRef.None? && spec.templateRef.Some?;
    var refChanged := was.templateRef.Some? && spec.templateRef.Some? && was.templateRef.value.name != spec.templateRef.value.name;
    if refDeleted {
      return true;
    }
    if refChanged {
      assert !SameSpec(was, spec) && !SameSpec(was.(desiredStatus := STOPPED), spec);
      accepted := ValidateCreateWorkspace(w, spec, labelsOk);
      return;
    }
    if refAdded {
      assert !SameSpec(was, spec) && !SameSpec(was.(desiredStatus := STOPPED), spec);
      accepted := ValidateCreateWorkspace(w, spec, labelsOk);
      return;
    }
    if spec.templateRef.None? {
      return true;
    }
    if SameSpec(was, spec) {
      return true;
    }
    if spec.desiredStatus == STOPPED && was.desiredStatus != STOPPED && OnlyDesiredStatusChanged(was, spec) {
      return true;
    }
    accepted := ValidateCreateWorkspace(w, spec, labelsOk);
  }

  predicate OnlyDesiredStatusChanged(was: Spec, spec: Spec) {
    was.desiredStatus != spec.desiredStatus && SameSpec(was.(desiredStatus := spec.desiredStatus), spec)
  }

  // ---------------------------------------------------------------- runs of accepted requests

  /** The header list of the idle detection, if there is one. */
  function Headers(spec: Spec): Option<Slice> {
    if spec.idle.Some? && spec.idle.value.detection.Some? then Some(spec.idle.value.detection.value.headers) else None
  }

  /** The template the spec refers to locks the idle configuration. */
  predicate Locks(w: World, spec: Spec) {
    spec.templateRef.Some? && spec.templateRef.value in w.templates && Locked(w.templates[spec.templateRef.value])
  }

  lemma {:induction false} SameForm(a: Option<Idle>, b: Option<Idle>)
    requires SameIdle(a, b)
    ensures a == b || (a.Some? && b.Some? && a.value.detection.Some? && b.value.detection.Some?
                       && a.value.detection.value.headers != b.value.detection.value.headers)
  {
  }

  /** The semantic reading of the idle lock: a nil and an empty header list count as the same. */
  predicate IdleOkSemantically(idle: Option<Idle>, t: Template) {
    t.idlePolicy.Some? ==>
      && (Locked(t) ==> idle.Some? && SameIdle(Some(idle.value.(timeout := 0)), Some(t.defaultIdle.value.(timeout := 0))))
      && (idle.Some? && idle.value.enabled ==> TimeoutOk(idle.value.timeout, t))
  }

  ghost predicate AdmissibleSemantically(w: World, spec: Spec) {
    spec.templateRef.Some? ==>
      && NamespaceOk(w, spec.templateRef.value)
      && spec.templateRef.value in w.templates
      && OtherwiseWithin(spec, w.templates[spec.templateRef.value], w.matches)
      && IdleOkSemantically(spec.idle, w.templates[spec.templateRef.value])
  }

  lemma {:induction false} Weaken(w: World, spec: Spec)
    requires Admissible(w, spec)
    ensures AdmissibleSemantically(w, spec)
  {
    hide ImageOk, ResourcesOk, StorageOk, VolumesOk, InitContainersOk, EnvOk, TimeoutOk;
  }

  lemma {:induction false} SameKeeps(w: World, a: Spec, b: Spec)
    requires AdmissibleSemantically(w, a) && SameSpec(a, b)
    ensures AdmissibleSemantically(w, b)
  {
    hide ImageOk, ResourcesOk, StorageOk, VolumesOk, InitContainersOk, EnvOk, TimeoutOk;
  }

  /** An accepted update of a spec that is within its template gives another, up to the form of an empty
      header list. */
  lemma {:induction false} UpdateStaysWithin(w: World, was: Spec, spec: Spec)
    requires AdmissibleSemantically(w, was) && (Unchecked(was, spec) || Admissible(w, spec))
    ensures AdmissibleSemantically(w, spec)
  {
    hide Within, OtherwiseWithin, IdleOkSemantically, SameSpec;
    if Unchecked(was, spec) {
      if SameSpec(was, spec) {
        SameKeeps(w, was, spec);
      } else if spec.templateRef.Some? {
        StatusIsFree(w, was);
        SameKeeps(w, was.(desiredStatus := STOPPED), spec);
      }
    } else {
      Weaken(w, spec);
    }
  }

  /** No constraint looks at the desired status. */
  lemma {:induction false} StatusIsFree(w: World, spec: Spec)
    requires AdmissibleSemantically(w, spec)
    ensures AdmissibleSemantically(w, spec.(desiredStatus := STOPPED))
  {
    hide ImageOk, ResourcesOk, StorageOk, VolumesOk, InitContainersOk, EnvOk, IdleOkSemantically;
  }

  /** A run: an accepted create and accepted updates, each seen with the outcome of the label check. */
  ghost predicate Run(w: World, specs: seq<Spec>, labelsOk: seq<bool>) {
    && |specs| == |labelsOk| > 0
    && Admissible(w, specs[0]) && (specs[0].templateRef.Some? ==> labelsOk[0])
    && forall i :: 0 < i < |specs| ==> UpdateAccepted(w, specs[i - 1], specs[i], labelsOk[i])
  }

  /** Over every run, in spite of the two bypasses. */
  lemma {:induction false} RunsStayWithin(w: World, specs: seq<Spec>, labelsOk: seq<bool>, k: nat)
    requires Run(w, specs, labelsOk) && k < |specs|
    ensures AdmissibleSemantically(w, specs[k])
  {
    hide Admissible, AdmissibleSemantically, Unchecked;
    if k == 0 {
      Weaken(w, specs[0]);
    } else {
      RunsStayWithin(w, specs, labelsOk, k - 1);
      assert UpdateAccepted(w, specs[k - 1], specs[k], labelsOk[k]);
      UpdateStaysWithin(w, specs[k - 1], specs[k]);
    }
  }

  /** The reflective comparison of the idle lock is lost in one way only: an unchecked update, under a
      template that locks, turns a nil header list into an empty one or back. */
  lemma {:induction false} LockIsLostIff(w: World, was: Spec, spec: Spec)
    requires Admissible(w, was) && (Unchecked(was, spec) || Admissible(w, spec))
    ensures !Admissible(w, spec) <==> Unchecked(was, spec) && Locks(w, spec) && Headers(spec) != Headers(was)
  {
    hide ImageOk, ResourcesOk, StorageOk, VolumesOk, InitContainersOk, EnvOk, TimeoutOk;
    if spec.templateRef.Some? && Unchecked(was, spec) {
      SameForm(was.idle, spec.idle);
    }
  }

  /** A run in which no update does that keeps every constraint as the validator reads it. */
  lemma {:induction false} RunsStayAdmissible(w: World, specs: seq<Spec>, labelsOk: seq<bool>, k: nat)
    requires Run(w, specs, labelsOk) && k < |specs|
    requires forall i :: 0 < i < |specs| && Locks(w, specs[i]) ==> Headers(specs[i]) == Headers(specs[i - 1])
    ensures Admissible(w, specs[k])
  {
    hide Admissible, Unchecked, Locks, Headers;
    if k > 0 {
      RunsStayAdmissible(w, specs, labelsOk, k - 1);
      assert UpdateAccepted(w, specs[k - 1], specs[k], labelsOk[k]);
      LockIsLostIff(w, specs[k - 1], specs[k]);
    }
  }

  /** One such update: the header list goes from nil to empty, which is no change, and the lock, which
      the same configuration would have to pass again, now rejects it. */
  lemma {:induction false} EmptyHeaders()
    ensures exists w: World, was: Spec, spec: Spec ::
      Admissible(w, was) && UpdateAccepted(w, was, spec, false) && !Admissible(w, spec)
  {
    var idle := Idle(true, 30, Some(HttpGet("/api/idle", Nil)));
    var idle' := Idle(true, 30, Some(HttpGet("/api/idle", List([]))));
    var t := Template(None, [], "image", map[], None, None, None, None, [], [], Some(IdlePolicy(Some(false), None, None)), Some(idle));
    var ref := Ref("locked", "");
    var w := World(map[ref := t], "default", "", (regex, value) => None);
    var was := Spec(Some(ref), "Running", "image", None, None, [], [], [], Some(idle), "");
    var spec := was.(idle := Some(idle'));
    assert Within(was, t, w.matches);
    LockIsLostIff(w, was, spec);
    assert Admissible(w, was) && UpdateAccepted(w, was, spec, false) && !Admissible(w, spec);
  }

  // ---------------------------------------------------------------- templates that admit their own defaults

  predicate ImageConsistent(t: Template) {
    t.allowCustomImages == Some(true) || t.allowedImages == [] || t.defaultImage in t.allowedImages
  }

  predicate StorageConsistent(t: Template) {
    t.minStorage.Some? && t.maxStorage.Some? ==> t.minStorage.value <= t.maxStorage.value
  }

  ghost predicate BoundsConsistent(t: Template) {
    forall name :: name in t.bounds ==> t.bounds[name].min <= t.bounds[name].max
  }

  /** The timeout is within the bounds the policy declares. */
  predicate Declared(p: IdlePolicy, timeout: int) {
    (p.min.Some? ==> p.min.value <= timeout) && (p.max.Some? ==> timeout <= p.max.value)
  }

  predicate IdleConsistent(t: Template) {
    t.idlePolicy.Some? ==>
      var p := t.idlePolicy.value;
      && (p.min.Some? && p.max.Some? ==> p.min.value <= p.max.value)
      && (p.allow == Some(false) ==> t.defaultIdle.Some?)
      && (t.defaultIdle.Some? && t.defaultIdle.value.enabled ==> Declared(p, t.defaultIdle.value.timeout))
  }

  ghost predicate Consistent(t: Template) {
    ImageConsistent(t) && StorageConsistent(t) && BoundsConsistent(t) && IdleConsistent(t)
  }

  method ValidateTemplateImageConsistency(t: Template) returns (ok: bool)
    ensures ok <==> ImageConsistent(t)
  {
    if t.allowCustomImages == Some(true) {
      return true;
    }
    if |t.allowedImages| == 0 {
      return true;
    }
    for i := 0 to |t.allowedImages|
      invariant t.defaultImage !in t.allowedImages[..i]
    {
      if t.defaultImage == t.allowedImages[i] {
        return true;
      }
    }
    assert t.allowedImages[..|t.allowedImages|] == t.allowedImages;
    return false;
  }

  method ValidateTemplateResourceBoundsConsistency(t: Template) returns (ok: bool)
    ensures ok <==> BoundsConsistent(t)
  {
    var names := t.bounds.Keys;
    while names != {}
      invariant names <= t.bounds.Keys
      invariant forall name :: name in t.bounds && name !in names ==> t.bounds[name].min <= t.bounds[name].max
      decreases |names|
    {
      var name :| name in names;
      if t.bounds[name].min > t.bounds[name].max {
        return false;
      }
      names := names - {name};
    }
    return true;
  }

  method ValidateIdleShutdownPolicyConsistency(t: Template) returns (ok: bool)
    ensures ok <==> IdleConsistent(t)
  {
    if t.idlePolicy.None? {
      return true;
    }
    var policy := t.idlePolicy.value;
    if policy.min.Some? && policy.max.Some? && policy.min.value > policy.max.value {
      return false;
    }
    if policy.allow.Some? && !policy.allow.value && t.defaultIdle.None? {
      return false;
    }
    if t.defaultIdle.Some? && t.defaultIdle.value.enabled {
      if policy.min.Some? && t.defaultIdle.value.timeout < policy.min.value {
        return false;
      }
      if policy.max.Some? && t.defaultIdle.value.timeout > policy.max.value {
        return false;
      }
    }
    return true;
  }

  method ValidateTemplateConsistency(t: Template) returns (ok: bool)
    ensures ok <==> Consistent(t)
  {
    hide ImageConsistent, BoundsConsistent, IdleConsistent;
    var image := ValidateTemplateImageConsistency(t);
    if !image {
      return false;
    }
    if t.minStorage.Some? && t.maxStorage.Some? && t.minStorage.value > t.maxStorage.value {
      return false;
    }
    var bounds := ValidateTemplateResourceBoundsConsistency(t);
    if !bounds {
      return false;
    }
    ok := ValidateIdleShutdownPolicyConsistency(t);
  }

  /** A spec with what it leaves open filled from the template. */
  function Defaulted(spec: Spec, t: Template): Spec {
    spec.(image := if spec.image == "" then t.defaultImage else spec.image,
          idle := if spec.idle.None? then t.defaultIdle else spec.idle,
          initContainers := if spec.initContainers == [] then t.defaultInitContainers else spec.initContainers)
  }

  /** A workspace while defaults are applied to it. */
  class Draft {
    var spec: Spec

    constructor (spec: Spec)
      ensures this.spec == spec
    {
      this.spec := spec;
    }

    /** The applicators for core, lifecycle and init containers, in turn. */
    method ApplyTemplateDefaults(t: Template)
      modifies this
      ensures spec == Defaulted(old(spec), t)
    {
      if spec.image == "" && t.defaultImage != "" {
        spec := spec.(image := t.defaultImage);
      }
      if spec.idle.None? && t.defaultIdle.Some? {
        spec := spec.(idle := t.defaultIdle);
      }
      if |spec.initContainers| > 0 || |t.defaultInitContainers| == 0 {
        return;
      }
      spec := spec.(initContainers := t.defaultInitContainers);
    }
  }

  /** The image check of a template is exactly that its default is allowed. */
  lemma {:induction false} DefaultImageOkIff(t: Template)
    ensures ImageOk(t.defaultImage, t) <==> ImageConsistent(t)
  {
  }

  /** The default idle shutdown passes the lock and the bounds, those a locked policy adds included,
      exactly when it is off or within the bounds the policy declares. */
  lemma {:induction false} DefaultIdleOkIff(t: Template)
    ensures IdleOk(t.defaultIdle, t) <==>
              (t.idlePolicy.Some? && t.defaultIdle.Some? && t.defaultIdle.value.enabled ==>
                 Declared(t.idlePolicy.value, t.defaultIdle.value.timeout))
  {
  }

  /** Under a consistent template that forbids overrides every admitted idle shutdown is the default's, up
      to its timeout. */
  lemma {:induction false} ForbiddenIsLocked(t: Template, idle: Option<Idle>)
    requires Consistent(t) && t.idlePolicy.Some? && t.idlePolicy.value.allow == Some(false) && IdleOk(idle, t)
    ensures t.defaultIdle.Some? && idle.Some? && idle.value == t.defaultIdle.value.(timeout := idle.value.timeout)
  {
    hide BoundsConsistent, TimeoutOk;
  }

  /** A consistent template admits its own defaults: a workspace that leaves image, idle shutdown and
      init containers open is rejected for none of them. */
  lemma {:induction false} DefaultsAreAdmitted(t: Template, spec: Spec, w: World, ref: Ref)
    requires Consistent(t) && spec.image == "" && spec.idle.None? && spec.initContainers == []
    requires ref in w.templates && w.templates[ref] == t && NamespaceOk(w, ref) && spec.templateRef == Some(ref)
    ensures Admissible(w, Defaulted(spec, t)) <==>
              && (spec.resources.Some? ==> ResourcesOk(spec.resources.value, t))
              && (spec.storage.Some? && spec.storage.value != 0 ==> StorageOk(spec.storage.value, t))
              && VolumesOk(spec.volumes, t) && EnvOk(spec.env, t, w.matches)
  {
    hide ResourcesOk, StorageOk, VolumesOk, EnvOk;
    DefaultImageOkIff(t);
    DefaultIdleOkIff(t);
  }

  /** The consistency of bounds is exactly that some amount satisfies them. */
  lemma {:induction false} ConsistentBoundsAdmit(t: Template)
    ensures StorageConsistent(t) <==> exists size :: StorageOk(size, t)
    ensures BoundsConsistent(t) <==> forall name :: name in t.bounds ==> exists n :: InRange(map[name := n], name, t.bounds[name])
  {
    if StorageConsistent(t) {
      var size := if t.minStorage.Some? then t.minStorage.value else if t.maxStorage.Some? then t.maxStorage.value else 0;
      assert StorageOk(size, t);
    }
    forall name | name in t.bounds
      ensures t.bounds[name].min <= t.bounds[name].max <==> exists n :: InRange(map[name := n], name, t.bounds[name])
    {
      if t.bounds[name].min <= t.bounds[name].max {
        assert InRange(map[name := t.bounds[name].min], name, t.bounds[name]);
      }
    }
  }
}
