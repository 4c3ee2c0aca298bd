/** The template language of integrations and its rendering against a provider of resource values
    (internal/controller/integration_template_resolver.go). */
module Templates {
  import opened Text

  /** A pipeline that yields a string. `Index` is the dynamic-key form, which never fails. */
  datatype Expr =
    | Str(s: string)
    | WorkspaceName
    | WorkspaceNamespace
    | UnknownField(field: string)
    | Param(name: string)
    | Index(name: string)
    | Resource(id: Expr, path: Expr)

  datatype Template =
    | Done
    | Raw(s: string, rest: Template)
    | Action(e: Expr, rest: Template)
    | If(cond: Expr, thn: Template, els: Template, rest: Template)

  /** A templated string field of a resource: text that does not parse, or a template. The empty
      string is `Parsed(Done)`. */
  datatype Field = Malformed | Parsed(t: Template)

  datatype Data = Data(workspaceName: string, workspaceNamespace: string, parameters: map<string, string>)

  datatype Failure =
    | BadSyntax
    | NoSuchField(field: string)
    | MissingParameter(name: string)
    | NotAllowed
    | UnknownResource(id: string)
    | BadPath(path: string)
    | PathFailed(id: string, path: string)
    | NotFrozen(key: string)
    | EmptyName
    | NotFetched

  datatype Result<+T> = Ok(value: T) | Err(failure: Failure)

  /** A fetched resource: what each JSONPath that finds something in it yields. */
  type Object = map<string, string>

  /** Who answers `{{ resource id path }}`. `valid` is JSONPath syntax. */
  datatype Provider =
    | NoProvider
    | Live(resources: map<string, Object>, valid: string -> bool)
    | Frozen(values: map<string, string>)
    | Checker(allowed: set<string>, valid: string -> bool)

  function CaptureKey(id: string, path: string): string {
    id + "|" + path
  }

  function Serve(p: Provider, id: string, path: string): Result<string> {
    match p
    case NoProvider => Err(NotAllowed)
    case Live(resources, valid) =>
      if id !in resources then Err(UnknownResource(id))
      else if !valid(path) then Err(BadPath(path))
      else if path !in resources[id] || resources[id][path] == "" then Err(PathFailed(id, path))
      else Ok(resources[id][path])
    case Frozen(values) =>
      if CaptureKey(id, path) in values then Ok(values[CaptureKey(id, path)]) else Err(NotFrozen(CaptureKey(id, path)))
    case Checker(allowed, valid) =>
      if id !in allowed then Err(UnknownResource(id)) else if !valid(path) then Err(BadPath(path)) else Ok("")
  }

  /** A value that was served while rendering. */
  datatype Read = Read(id: string, path: string, value: string)

  datatype Outcome<+T> = Outcome(result: Result<T>, log: seq<Read>)

  function Eval(p: Provider, e: Expr, data: Data): Outcome<string> {
    match e
    case Str(s) => Outcome(Ok(s), [])
    case WorkspaceName => Outcome(Ok(data.workspaceName), [])
    case WorkspaceNamespace => Outcome(Ok(data.workspaceNamespace), [])
    case UnknownField(f) => Outcome(Err(NoSuchField(f)), [])
    case Param(n) => Outcome(if n in data.parameters then Ok(data.parameters[n]) else Err(MissingParameter(n)), [])
    case Index(n) => Outcome(Ok(if n in data.parameters then data.parameters[n] else ""), [])
    case Resource(idExpr, pathExpr) =>
      var id := Eval(p, idExpr, data);
      if id.result.Err? then id
      else
        var path := Eval(p, pathExpr, data);
        if path.result.Err? then Outcome(path.result, id.log + path.log)
        else
          var served := Serve(p, id.result.value, path.result.value);
          Outcome(served, id.log + path.log +
                    if served.Ok? then [Read(id.result.value, path.result.value, served.value)] else [])
  }

  /** First `a`, then what follows from its value. */
  function Then(a: Outcome<string>, b: Outcome<string>): Outcome<string> {
    if a.result.Err? then a
    else if b.result.Err? then Outcome(b.result, a.log + b.log)
    else Outcome(Ok(a.result.value + b.result.value), a.log + b.log)
  }

  /** Rendering stops at the first failure. A condition holds when its value is not empty. */
  function Render(p: Provider, t: Template, data: Data): Outcome<string> {
    match t
    case Done => Outcome(Ok(""), [])
    case Raw(s, rest) => Then(Outcome(Ok(s), []), Render(p, rest, data))
    case Action(e, rest) => Then(Eval(p, e, data), Render(p, rest, data))
    case If(cond, thn, els, rest) =>
      var c := Eval(p, cond, data);
      if c.result.Err? then c
      else
        var branch := if c.result.value != "" then Render(p, thn, data) else Render(p, els, data);
        Then(Outcome(branch.result, c.log + branch.log), Render(p, rest, data))
  }

  /** `ResolveTemplateExpression`. */
  function Resolve(p: Provider, f: Field, data: Data): Outcome<string> {
    match f
    case Malformed => Outcome(Err(BadSyntax), [])
    case Parsed(t) => Render(p, t, data)
  }

  /** A list of fields, in order, up to the first failure. */
  function ResolveAll(p: Provider, fs: seq<Field>, data: Data): (o: Outcome<seq<string>>)
    ensures o.result.Ok? ==> |o.result.value| == |fs|
  {
    if fs == [] then Outcome(Ok([]), [])
    else
      var first := Resolve(p, fs[0], data);
      if first.result.Err? then Outcome(Err(first.result.failure), first.log)
      else
        var rest := ResolveAll(p, fs[1..], data);
        Outcome(if rest.result.Err? then rest.result else Ok([first.result.value] + rest.result.value), first.log + rest.log)
  }

  lemma {:induction false} ResolveAllAppend(p: Provider, a: seq<Field>, b: seq<Field>, data: Data)
    ensures var oa, ob, o := ResolveAll(p, a, data), ResolveAll(p, b, data), ResolveAll(p, a + b, data);
            if oa.result.Err? then o == oa
            else
              && o.log == oa.log + ob.log
              && o.result == if ob.result.Err? then ob.result else Ok(oa.result.value + ob.result.value)
  {
    if a == [] {
      assert a + b == b;
      assert [] + ResolveAll(p, b, data).log == ResolveAll(p, b, data).log;
      if ResolveAll(p, b, data).result.Ok? {
        assert [] + ResolveAll(p, b, data).result.value == ResolveAll(p, b, data).result.value;
      }
    } else {
      assert (a + b)[0] == a[0] && (a + b)[1..] == a[1..] + b;
      ResolveAllAppend(p, a[1..], b, data);
      var first, oa, ob := Resolve(p, a[0], data), ResolveAll(p, a[1..], data), ResolveAll(p, b, data);
      assert first.log + (oa.log + ob.log) == first.log + oa.log + ob.log;
      if first.result.Ok? && oa.result.Ok? && ob.result.Ok? {
        assert [first.result.value] + (oa.result.value + ob.result.value) == [first.result.value] + oa.result.value + ob.result.value;
      }
    }
  }

  // ---------------------------------------------------------------- two providers that agree

  /** `q` serves every value that was read. */
  ghost predicate Serves(q: Provider, log: seq<Read>) {
    forall i :: 0 <= i < |log| ==> Serve(q, log[i].id, log[i].path) == Ok(log[i].value)
  }

  lemma {:induction false} ServesParts(q: Provider, a: seq<Read>, b: seq<Read>)
    requires Serves(q, a + b)
    ensures Serves(q, a) && Serves(q, b)
  {
    hide Serve;
    assert forall i :: 0 <= i < |a| ==> (a + b)[i] == a[i];
    assert forall i :: 0 <= i < |b| ==> (a + b)[|a| + i] == b[i];
  }

  lemma {:induction false} EvalAgrees(p: Provider, q: Provider, e: Expr, data: Data)
    requires Eval(p, e, data).result.Ok? && Serves(q, Eval(p, e, data).log)
    ensures Eval(q, e, data) == Eval(p, e, data)
  {
    hide Serve;
    match e
    case Resource(idExpr, pathExpr) =>
      var id, path := Eval(p, idExpr, data), Eval(p, pathExpr, data);
      var read := Read(id.result.value, path.result.value, Eval(p, e, data).result.value);
      ServesParts(q, id.log + path.log, [read]);
      ServesParts(q, id.log, path.log);
      EvalAgrees(p, q, idExpr, data);
      EvalAgrees(p, q, pathExpr, data);
      assert [read][0] == read;
    case _ =>
  }

  lemma {:induction false} RenderAgrees(p: Provider, q: Provider, t: Template, data: Data)
    requires Render(p, t, data).result.Ok? && Serves(q, Render(p, t, data).log)
    ensures Render(q, t, data) == Render(p, t, data)
  {
    hide Serve, Serves, Eval;
    match t
    case Done =>
    case Raw(s, rest) =>
      ServesParts(q, [], Render(p, rest, data).log);
      RenderAgrees(p, q, rest, data);
    case Action(e, rest) =>
      ServesParts(q, Eval(p, e, data).log, Render(p, rest, data).log);
      EvalAgrees(p, q, e, data);
      RenderAgrees(p, q, rest, data);
    case If(cond, thn, els, rest) =>
      var c := Eval(p, cond, data);
      var taken := if c.result.value != "" then thn else els;
      ServesParts(q, c.log + Render(p, taken, data).log, Render(p, rest, data).log);
      ServesParts(q, c.log, Render(p, taken, data).log);
      EvalAgrees(p, q, cond, data);
      RenderAgrees(p, q, taken, data);
      RenderAgrees(p, q, rest, data);
  }

  /** A provider that serves what another one served renders the same output. */
  lemma {:induction false} ResolveAllAgrees(p: Provider, q: Provider, fs: seq<Field>, data: Data)
    requires ResolveAll(p, fs, data).result.Ok? && Serves(q, ResolveAll(p, fs, data).log)
    ensures ResolveAll(q, fs, data) == ResolveAll(p, fs, data)
  {
    hide Serve, Serves, Render;
    if fs != [] {
      ServesParts(q, Resolve(p, fs[0], data).log, ResolveAll(p, fs[1..], data).log);
      RenderAgrees(p, q, fs[0].t, data);
      ResolveAllAgrees(p, q, fs[1..], data);
    }
  }

  // ---------------------------------------------------------------- reads are what the provider serves

  lemma {:induction false} EvalServed(p: Provider, e: Expr, data: Data)
    ensures Serves(p, Eval(p, e, data).log)
  {
    hide Serve;
    match e
    case Resource(idExpr, pathExpr) =>
      EvalServed(p, idExpr, data);
      EvalServed(p, pathExpr, data);
    case _ =>
  }

  lemma {:induction false} RenderServed(p: Provider, t: Template, data: Data)
    ensures Serves(p, Render(p, t, data).log)
  {
    hide Serve, Eval;
    match t
    case Done =>
    case Raw(s, rest) =>
      RenderServed(p, rest, data);
    case Action(e, rest) =>
      EvalServed(p, e, data);
      RenderServed(p, rest, data);
    case If(cond, thn, els, rest) =>
      EvalServed(p, cond, data);
      RenderServed(p, thn, data);
      RenderServed(p, els, data);
      RenderServed(p, rest, data);
  }

  lemma {:induction false} ResolveAllServed(p: Provider, fs: seq<Field>, data: Data)
    ensures Serves(p, ResolveAll(p, fs, data).log)
  {
    hide Serve, Render;
    if fs != [] {
      if fs[0].Parsed? {
        RenderServed(p, fs[0].t, data);
      }
      ResolveAllServed(p, fs[1..], data);
    }
  }
}
