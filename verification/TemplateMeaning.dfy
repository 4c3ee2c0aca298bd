/** What a rendered template says, independently of how it is rendered
    (internal/controller/integration_template_resolver.go): the text each pipeline stands for, the list of
    texts a template expands to, and on what parts of the data the output depends. */
module TemplateMeaning {
  import opened Text
  import opened Templates

  // ---------------------------------------------------------------- values

  /** The provider has this text for the path of the resource: live, what the path finds, if that is not
      empty; frozen, what was recorded under handle and path; while checking, nothing but the permission. */
  ghost predicate Provides(p: Provider, id: string, path: string, v: string) {
    match p
    case NoProvider => false
    case Live(resources, valid) => id in resources && valid(path) && path in resources[id] && v == resources[id][path] != ""
    case Frozen(values) => id + "|" + path in values && v == values[id + "|" + path]
    case Checker(allowed, valid) => id in allowed && valid(path) && v == ""
  }

  lemma {:induction false} ServeIsMeaning(p: Provider, id: string, path: string, v: string)
    ensures Serve(p, id, path) == Ok(v) <==> Provides(p, id, path, v)
  {
  }

  /** The pipeline stands for the text `v`. */
  ghost predicate StandsFor(p: Provider, e: Expr, data: Data, v: string) {
    match e
    case Str(s) => v == s
    case WorkspaceName => v == data.workspaceName
    case WorkspaceNamespace => v == data.workspaceNamespace
    case UnknownField(_) => false
    case Param(n) => n in data.parameters && v == data.parameters[n]
    case Index(n) => if n in data.parameters then v == data.parameters[n] else v == ""
    case Resource(id, path) => exists i, j :: StandsFor(p, id, data, i) && StandsFor(p, path, data, j) && Provides(p, i, j, v)
  }

  /** Evaluation succeeds with exactly the text the pipeline stands for. */
  lemma {:induction false} EvalIsMeaning(p: Provider, e: Expr, data: Data, v: string)
    ensures Eval(p, e, data).result == Ok(v) <==> StandsFor(p, e, data, v)
  {
    hide Serve, Provides;
    match e
    case Resource(idExpr, pathExpr) =>
      forall i, j
        ensures Serve(p, i, j) == Ok(v) <==> Provides(p, i, j, v)
      {
        ServeIsMeaning(p, i, j, v);
      }
      forall i
        ensures Eval(p, idExpr, data).result == Ok(i) <==> StandsFor(p, idExpr, data, i)
      {
        EvalIsMeaning(p, idExpr, data, i);
      }
      forall j
        ensures Eval(p, pathExpr, data).result == Ok(j) <==> StandsFor(p, pathExpr, data, j)
      {
        EvalIsMeaning(p, pathExpr, data, j);
      }
    case _ =>
  }

  // ---------------------------------------------------------------- expansion

  /** With every pipeline replaced by the text it stands for and every conditional by the branch it takes,
      the template is this list of texts. */
  ghost predicate Expands(p: Provider, t: Template, data: Data, texts: seq<string>) {
    match t
    case Done => texts == []
    case Raw(s, rest) => texts != [] && texts[0] == s && Expands(p, rest, data, texts[1..])
    case Action(e, rest) => texts != [] && StandsFor(p, e, data, texts[0]) && Expands(p, rest, data, texts[1..])
    case If(cond, thn, els, rest) =>
      exists v, k :: && StandsFor(p, cond, data, v) && 0 <= k <= |texts|
                     && Expands(p, if v != "" then thn else els, data, texts[..k]) && Expands(p, rest, data, texts[k..])
  }

  function Joined(texts: seq<string>): string {
    if texts == [] then "" else texts[0] + Joined(texts[1..])
  }

  lemma {:induction false} JoinedParts(a: seq<string>, b: seq<string>)
    ensures Joined(a + b) == Joined(a) + Joined(b)
  {
    if a == [] {
      assert a + b == b;
    } else {
      assert (a + b)[1..] == a[1..] + b;
      JoinedParts(a[1..], b);
    }
  }

  /** A template that is text only. */
  function Plain(texts: seq<string>): Template {
    if texts == [] then Done else Raw(texts[0], Plain(texts[1..]))
  }

  /** Text renders to itself, in order, whatever the data and the provider. */
  lemma {:induction false} PlainRenders(p: Provider, texts: seq<string>, data: Data)
    ensures Render(p, Plain(texts), data) == Outcome(Ok(Joined(texts)), [])
  {
    if texts != [] {
      PlainRenders(p, texts[1..], data);
    }
  }

  /** Rendering succeeds with the texts of an expansion, one after the other. */
  lemma {:induction false} RenderExpands(p: Provider, t: Template, data: Data) returns (texts: seq<string>)
    requires Render(p, t, data).result.Ok?
    ensures Expands(p, t, data, texts) && Render(p, t, data).result.value == Joined(texts)
  {
    hide Eval, StandsFor;
    match t
    case Done => texts := [];
    case Raw(s, rest) =>
      var more := RenderExpands(p, rest, data);
      texts := [s] + more;
      assert texts[1..] == more;
    case Action(e, rest) =>
      var v := Eval(p, e, data).result.value;
      EvalIsMeaning(p, e, data, v);
      var more := RenderExpands(p, rest, data);
      texts := [v] + more;
      assert texts[1..] == more;
    case If(cond, thn, els, rest) =>
      var v := Eval(p, cond, data).result.value;
      EvalIsMeaning(p, cond, data, v);
      var branch := RenderExpands(p, if v != "" then thn else els, data);
      var more := RenderExpands(p, rest, data);
      texts := branch + more;
      assert texts[..|branch|] == branch && texts[|branch|..] == more;
      JoinedParts(branch, more);
  }

  /** And with those of every expansion, so that the output is unique. */
  lemma {:induction false} ExpandsRenders(p: Provider, t: Template, data: Data, texts: seq<string>)
    requires Expands(p, t, data, texts)
    ensures Render(p, t, data).result == Ok(Joined(texts))
  {
    hide Eval, StandsFor;
    match t
    case Done =>
    case Raw(s, rest) => ExpandsRenders(p, rest, data, texts[1..]);
    case Action(e, rest) =>
      EvalIsMeaning(p, e, data, texts[0]);
      ExpandsRenders(p, rest, data, texts[1..]);
    case If(cond, thn, els, rest) =>
      var v, k :| && StandsFor(p, cond, data, v) && 0 <= k <= |texts|
                  && Expands(p, if v != "" then thn else els, data, texts[..k]) && Expands(p, rest, data, texts[k..]);
      EvalIsMeaning(p, cond, data, v);
      ExpandsRenders(p, if v != "" then thn else els, data, texts[..k]);
      ExpandsRenders(p, rest, data, texts[k..]);
      JoinedParts(texts[..k], texts[k..]);
      assert texts == texts[..k] + texts[k..];
  }

  /** The output of a field. */
  ghost predicate Says(p: Provider, f: Field, data: Data, output: string) {
    f.Parsed? && exists texts :: Expands(p, f.t, data, texts) && output == Joined(texts)
  }

  /** A field resolves exactly to what it says. */
  lemma {:induction false} ResolveIsMeaning(p: Provider, f: Field, data: Data, output: string)
    ensures Resolve(p, f, data).result == Ok(output) <==> Says(p, f, data, output)
  {
    hide Render, Expands;
    if Says(p, f, data, output) {
      var texts :| Expands(p, f.t, data, texts) && output == Joined(texts);
      ExpandsRenders(p, f.t, data, texts);
    }
    if Resolve(p, f, data).result == Ok(output) {
      var texts := RenderExpands(p, f.t, data);
    }
  }

  ghost predicate AllSay(p: Provider, fs: seq<Field>, data: Data, outputs: seq<string>) {
    |outputs| == |fs| && forall i :: 0 <= i < |fs| ==> Says(p, fs[i], data, outputs[i])
  }

  /** A list of fields resolves exactly to what each of them says. */
  lemma {:induction false} ResolveAllIsMeaning(p: Provider, fs: seq<Field>, data: Data, outputs: seq<string>)
    ensures ResolveAll(p, fs, data).result == Ok(outputs) <==> AllSay(p, fs, data, outputs)
  {
    hide Resolve, Says;
    if fs == [] {
    } else if outputs == [] {
      hide ResolveAll;
      assert ResolveAll(p, fs, data).result != Ok(outputs);
    } else {
      ResolveIsMeaning(p, fs[0], data, outputs[0]);
      ResolveAllIsMeaning(p, fs[1..], data, outputs[1..]);
      SayFirst(p, fs, data, outputs);
      assert outputs == [outputs[0]] + outputs[1..];
    }
  }

  lemma {:induction false} SayFirst(p: Provider, fs: seq<Field>, data: Data, outputs: seq<string>)
    requires fs != [] && outputs != []
    ensures AllSay(p, fs, data, outputs) <==> Says(p, fs[0], data, outputs[0]) && AllSay(p, fs[1..], data, outputs[1..])
  {
    hide Says;
    if Says(p, fs[0], data, outputs[0]) && AllSay(p, fs[1..], data, outputs[1..]) {
      forall i | 0 <= i < |fs|
        ensures Says(p, fs[i], data, outputs[i])
      {
        assert i > 0 ==> fs[i] == fs[1..][i - 1] && outputs[i] == outputs[1..][i - 1];
      }
    }
  }

  /** Replacing a template by its expansion leaves the output, for any provider and any data. */
  lemma {:induction false} ExpansionIsPlain(p: Provider, t: Template, data: Data, texts: seq<string>, q: Provider, other: Data)
    requires Expands(p, t, data, texts)
    ensures Render(p, t, data).result == Render(q, Plain(texts), other).result
  {
    ExpandsRenders(p, t, data, texts);
    PlainRenders(q, texts, other);
  }

  // ---------------------------------------------------------------- what the output depends on

  predicate Uses(e: Expr, leaf: Expr) {
    e == leaf || (e.Resource? && (Uses(e.id, leaf) || Uses(e.path, leaf)))
  }

  predicate Mentions(t: Template, leaf: Expr) {
    match t
    case Done => false
    case Raw(_, rest) => Mentions(rest, leaf)
    case Action(e, rest) => Uses(e, leaf) || Mentions(rest, leaf)
    case If(cond, thn, els, rest) => Uses(cond, leaf) || Mentions(thn, leaf) || Mentions(els, leaf) || Mentions(rest, leaf)
  }

  predicate SameParameter(a: Data, b: Data, n: string) {
    (n in a.parameters <==> n in b.parameters) && (n in a.parameters ==> a.parameters[n] == b.parameters[n])
  }

  /** The two give the leaf the same text. */
  predicate AgreeOn(a: Data, b: Data, leaf: Expr) {
    match leaf
    case WorkspaceName => a.workspaceName == b.workspaceName
    case WorkspaceNamespace => a.workspaceNamespace == b.workspaceNamespace
    case Param(n) => SameParameter(a, b, n)
    case Index(n) => SameParameter(a, b, n)
    case _ => true
  }

  lemma {:induction false} EvalDependsOn(p: Provider, e: Expr, a: Data, b: Data)
    requires forall leaf :: Uses(e, leaf) ==> AgreeOn(a, b, leaf)
    ensures Eval(p, e, a) == Eval(p, e, b)
  {
    hide AgreeOn, Serve;
    match e
    case Resource(id, path) =>
      assert forall leaf :: Uses(id, leaf) || Uses(path, leaf) ==> Uses(e, leaf);
      EvalDependsOn(p, id, a, b);
      EvalDependsOn(p, path, a, b);
    case _ =>
      LeafAgrees(p, e, a, b);
  }

  lemma {:induction false} LeafAgrees(p: Provider, e: Expr, a: Data, b: Data)
    requires !e.Resource? && AgreeOn(a, b, e)
    ensures Eval(p, e, a) == Eval(p, e, b)
  {
  }

  /** Output, failure and reads depend on no part of the data that the template does not mention: not on
      the name, the namespace or a parameter that no pipeline names. */
  lemma {:induction false} RenderDependsOn(p: Provider, t: Template, a: Data, b: Data)
    requires forall leaf :: Mentions(t, leaf) ==> AgreeOn(a, b, leaf)
    ensures Render(p, t, a) == Render(p, t, b)
  {
    hide AgreeOn, Eval, Uses, Serve;
    match t
    case Done =>
    case Raw(s, rest) =>
      assert forall leaf :: Mentions(rest, leaf) ==> Mentions(t, leaf);
      RenderDependsOn(p, rest, a, b);
    case Action(e, rest) =>
      assert forall leaf :: Uses(e, leaf) || Mentions(rest, leaf) ==> Mentions(t, leaf);
      EvalDependsOn(p, e, a, b);
      RenderDependsOn(p, rest, a, b);
    case If(cond, thn, els, rest) =>
      assert forall leaf :: Uses(cond, leaf) || Mentions(thn, leaf) || Mentions(els, leaf) || Mentions(rest, leaf) ==> Mentions(t, leaf);
      EvalDependsOn(p, cond, a, b);
      RenderDependsOn(p, thn, a, b);
      RenderDependsOn(p, els, a, b);
      RenderDependsOn(p, rest, a, b);
  }

  // ---------------------------------------------------------------- why it fails

  /** The failure is a field that does not exist, a parameter that is missing, or the provider's. */
  ghost predicate Caused(p: Provider, data: Data, f: Failure, named: Expr -> bool) {
    match f
    case NoSuchField(field) => named(UnknownField(field))
    case MissingParameter(n) => named(Param(n)) && n !in data.parameters
    case _ => exists id, path :: Serve(p, id, path) == Err(f)
  }

  lemma {:induction false} EvalFails(p: Provider, e: Expr, data: Data)
    ensures var r := Eval(p, e, data).result; r.Err? ==> Caused(p, data, r.failure, leaf => Uses(e, leaf))
  {
    match e
    case Resource(id, path) =>
      EvalFails(p, id, data);
      EvalFails(p, path, data);
      ServeFails(p, Eval(p, id, data).result, Eval(p, path, data).result);
    case _ =>
  }

  lemma {:induction false} ServeFails(p: Provider, id: Result<string>, path: Result<string>)
    ensures id.Ok? && path.Ok? && Serve(p, id.value, path.value).Err? ==>
              var f := Serve(p, id.value, path.value).failure; !f.NoSuchField? && !f.MissingParameter?
  {
  }

  lemma {:induction false} RenderFails(p: Provider, t: Template, data: Data)
    ensures var r := Render(p, t, data).result; r.Err? ==> Caused(p, data, r.failure, leaf => Mentions(t, leaf))
  {
    hide Eval, Uses, Serve;
    match t
    case Done =>
    case Raw(_, rest) => RenderFails(p, rest, data);
    case Action(e, rest) =>
      EvalFails(p, e, data);
      RenderFails(p, rest, data);
    case If(cond, thn, els, rest) =>
      EvalFails(p, cond, data);
      RenderFails(p, thn, data);
      RenderFails(p, els, data);
      RenderFails(p, rest, data);
  }
}
