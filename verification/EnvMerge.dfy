/** Merging environment variables into the primary container
    (internal/controller/deployment_builder_integration.go, deployment_builder_access.go), on Go slices
    that share their backing array with the workspace. */
module EnvMerge {
  import opened Text

  /** `source` is a ValueFrom. */
  datatype EnvVar = EnvVar(name: string, value: string, source: Option<string>)

  /** An integration replaces the whole entry; an access strategy only its value. */
  datatype Op = Integration(name: string, value: string) | Strategy(name: string, value: string)

  function Overwrite(e: EnvVar, op: Op): EnvVar {
    match op
    case Integration(n, v) => EnvVar(n, v, None)
    case Strategy(n, v) => e.(value := v)
  }

  /** The first index of a name, or the length. */
  function IndexOf(env: seq<EnvVar>, name: string): (i: nat)
    ensures i <= |env|
    ensures i < |env| ==> env[i].name == name
    ensures forall j :: 0 <= j < i ==> env[j].name != name
  {
    if env == [] then 0 else if env[0].name == name then 0 else 1 + IndexOf(env[1..], name)
  }

  function MergeOne(env: seq<EnvVar>, op: Op): seq<EnvVar> {
    var i := IndexOf(env, op.name);
    if i < |env| then env[i := Overwrite(env[i], op)] else env + [EnvVar(op.name, op.value, None)]
  }

  function Merge(env: seq<EnvVar>, ops: seq<Op>): (r: seq<EnvVar>)
    ensures |r| >= |env|
  {
    if ops == [] then env else MergeOne(Merge(env, ops[..|ops| - 1]), ops[|ops| - 1])
  }

  lemma {:induction false} MergeAppend(env: seq<EnvVar>, a: seq<Op>, b: seq<Op>)
    ensures Merge(env, a + b) == Merge(Merge(env, a), b)
    decreases |b|
  {
    hide MergeOne;
    if b == [] {
      assert a + b == a;
    } else {
      assert (a + b)[..|a + b| - 1] == a + b[..|b| - 1];
      MergeAppend(env, a, b[..|b| - 1]);
    }
  }

  // ---------------------------------------------------------------- what a merge gives each name

  /** The value the last operation on `name` asks for. */
  function LastValue(ops: seq<Op>, name: string, default: string): string {
    if ops == [] then default
    else if ops[|ops| - 1].name == name then ops[|ops| - 1].value
    else LastValue(ops[..|ops| - 1], name, default)
  }

  predicate Names(ops: seq<Op>, name: string) {
    exists i :: 0 <= i < |ops| && ops[i].name == name
  }

  predicate Integrates(ops: seq<Op>, name: string) {
    exists i :: 0 <= i < |ops| && ops[i] == Integration(name, ops[i].value)
  }

  /** What all operations together make of one entry. */
  function Outcome(ops: seq<Op>, e: EnvVar): EnvVar {
    EnvVar(e.name, LastValue(ops, e.name, e.value), if Integrates(ops, e.name) then None else e.source)
  }

  lemma {:induction false} LastValueSnoc(ops: seq<Op>, op: Op, name: string, default: string)
    ensures LastValue(ops + [op], name, default) == if op.name == name then op.value else LastValue(ops, name, default)
  {
    assert (ops + [op])[..|ops|] == ops;
  }

  lemma {:induction false} IntegratesSnoc(ops: seq<Op>, op: Op, name: string)
    ensures Integrates(ops + [op], name) <==> Integrates(ops, name) || op == Integration(name, op.value)
  {
    var all := ops + [op];
    assert all[|ops|] == op;
    if Integrates(ops, name) {
      var i :| 0 <= i < |ops| && ops[i] == Integration(name, ops[i].value);
      assert all[i] == ops[i];
    }
  }

  lemma {:induction false} OutcomeSnoc(ops: seq<Op>, op: Op, e: EnvVar)
    ensures Outcome(ops + [op], e) == if op.name == e.name then Overwrite(Outcome(ops, e), op) else Outcome(ops, e)
  {
    hide LastValue, Integrates;
    LastValueSnoc(ops, op, e.name, e.value);
    IntegratesSnoc(ops, op, e.name);
  }

  /** The entries of the base list keep their places; each first entry of a name becomes its outcome. */
  lemma {:induction false} MergeBase(env: seq<EnvVar>, ops: seq<Op>, i: nat)
    requires i < |env|
    ensures Merge(env, ops)[i] == if IndexOf(env, env[i].name) == i then Outcome(ops, env[i]) else env[i]
    ensures IndexOf(Merge(env, ops), env[i].name) == IndexOf(env, env[i].name)
    decreases |ops|
  {
    hide Outcome, Overwrite;
    if ops == [] {
      NoOps(env[i]);
    } else {
      var n := |ops| - 1;
      var front, op := ops[..n], ops[n];
      assert ops == front + [op];
      var m := Merge(env, front);
      MergeBase(env, front, i);
      OutcomeSnoc(front, op, env[i]);
      NamesKept(m, op);
      SameIndex(m, MergeOne(m, op), env[i].name);
    }
  }

  lemma {:induction false} NoOps(e: EnvVar)
    ensures Outcome([], e) == e
  {
  }

  lemma {:induction false} NamesKept(env: seq<EnvVar>, op: Op)
    ensures |MergeOne(env, op)| >= |env|
    ensures forall i :: 0 <= i < |env| ==> MergeOne(env, op)[i].name == env[i].name
  {
  }

  lemma {:induction false} SameIndex(a: seq<EnvVar>, b: seq<EnvVar>, name: string)
    requires |a| <= |b| && (forall i :: 0 <= i < |a| ==> a[i].name == b[i].name) && IndexOf(a, name) < |a|
    ensures IndexOf(b, name) == IndexOf(a, name)
  {
    var i, j := IndexOf(a, name), IndexOf(b, name);
    assert b[i].name == name;
    assert j <= i;
  }

  /** A name the base list lacks is added, once, with the last value asked for. */
  lemma {:induction false} MergeAdded(env: seq<EnvVar>, ops: seq<Op>, name: string)
    requires IndexOf(env, name) == |env|
    ensures var m := Merge(env, ops); var i := IndexOf(m, name);
            if Names(ops, name) then i < |m| && m[i] == EnvVar(name, LastValue(ops, name, ""), None) else i == |m|
    decreases |ops|
  {
    if ops != [] {
      var n := |ops| - 1;
      var front, op := ops[..n], ops[n];
      assert ops == front + [op];
      var m := Merge(env, front);
      MergeAdded(env, front, name);
      NamesKept(m, op);
      if Names(front, name) {
        SameIndex(m, MergeOne(m, op), name);
        var j :| 0 <= j < |front| && front[j].name == name;
        assert ops[j].name == name;
      } else if op.name == name {
        assert ops[n].name == name;
        var m' := MergeOne(m, op);
        assert m'[|m|].name == name;
        assert forall j :: 0 <= j < |m| ==> m'[j].name != name;
        assert IndexOf(m', name) == |m|;
        assert LastValue(ops, name, "") == op.value;
      } else {
        assert !Names(ops, name) by {
          if j :| 0 <= j < |ops| && ops[j].name == name { assert j < n && front[j].name == name; }
        }
        var m' := MergeOne(m, op);
        assert forall j :: 0 <= j < |m'| ==> m'[j].name != name;
      }
    }
  }

  predicate Distinct(env: seq<EnvVar>) {
    forall i, j :: 0 <= i < j < |env| ==> env[i].name != env[j].name
  }

  /** Merging introduces no duplicate names. */
  lemma {:induction false} MergeDistinct(env: seq<EnvVar>, ops: seq<Op>)
    requires Distinct(env)
    ensures Distinct(Merge(env, ops))
    decreases |ops|
  {
    if ops != [] {
      MergeDistinct(env, ops[..|ops| - 1]);
    }
  }

  /** Which layer wins: the strategy's value, else the last integration's, else the workspace's entry.
      A strategy keeps the ValueFrom of a workspace entry it overwrites, so such an entry ends up with
      both a value and a source. */
  lemma {:induction false} Layers(env: seq<EnvVar>, integrations: seq<Op>, strategy: seq<Op>, name: string)
    requires forall i :: 0 <= i < |integrations| ==> integrations[i].Integration?
    requires forall i :: 0 <= i < |strategy| ==> strategy[i].Strategy?
    ensures var m := Merge(env, integrations + strategy); var i := IndexOf(m, name);
            && (i < |m| <==> IndexOf(env, name) < |env| || Names(integrations, name) || Names(strategy, name))
            && (Names(strategy, name) ==> m[i].value == LastValue(strategy, name, ""))
            && (Names(strategy, name) ==>
                  (m[i].source.Some? <==>
                     !Names(integrations, name) && IndexOf(env, name) < |env| && env[IndexOf(env, name)].source.Some?))
            && (!Names(strategy, name) && Names(integrations, name) ==> m[i] == EnvVar(name, LastValue(integrations, name, ""), None))
            && (!Names(strategy, name) && !Names(integrations, name) && i < |m| ==> m[i] == env[IndexOf(env, name)])
  {
    var ops := integrations + strategy;
    OpsParts(integrations, strategy, name);
    var b := IndexOf(env, name);
    if b < |env| {
      MergeBase(env, ops, b);
      LastValueParts(integrations, strategy, name, env[b].value);
    } else {
      MergeAdded(env, ops, name);
      LastValueParts(integrations, strategy, name, "");
    }
  }

  lemma {:induction false} OpsParts(a: seq<Op>, b: seq<Op>, name: string)
    requires (forall i :: 0 <= i < |a| ==> a[i].Integration?) && (forall i :: 0 <= i < |b| ==> b[i].Strategy?)
    ensures Names(a + b, name) <==> Names(a, name) || Names(b, name)
    ensures Integrates(a + b, name) <==> Names(a, name)
  {
    var ops := a + b;
    if i :| 0 <= i < |a| && a[i].name == name {
      assert ops[i] == a[i] == Integration(name, ops[i].value);
      assert Integrates(ops, name);
    }
    if i :| 0 <= i < |b| && b[i].name == name {
      assert ops[|a| + i] == b[i];
    }
    if i :| 0 <= i < |ops| && ops[i].name == name {
      if i < |a| { assert a[i].name == name; } else { assert b[i - |a|].name == name; }
    }
    if i :| 0 <= i < |ops| && ops[i] == Integration(name, ops[i].value) {
      if i < |a| { assert a[i].name == name; } else { assert b[i - |a|].Strategy?; }
    }
  }

  lemma {:induction false} LastValueParts(a: seq<Op>, b: seq<Op>, name: string, default: string)
    ensures LastValue(a + b, name, default) == if Names(b, name) then LastValue(b, name, "") else LastValue(a, name, default)
    ensures Names(a, name) ==> LastValue(a, name, default) == LastValue(a, name, "")
    ensures !Names(a, name) ==> LastValue(a, name, default) == default
    decreases |a| + |b|
  {
    LastValueDefault(a, name, default, "");
    if b == [] {
      assert a + b == a;
    } else {
      var n := |b| - 1;
      assert (a + b)[..|a + b| - 1] == a + b[..n] && (a + b)[|a + b| - 1] == b[n];
      LastValueParts(a, b[..n], name, default);
      if b[n].name != name {
        if i :| 0 <= i < |b| && b[i].name == name { assert b[..n][i].name == name; }
        if i :| 0 <= i < n && b[..n][i].name == name { assert b[i].name == name; }
      }
    }
  }

  lemma {:induction false} LastValueDefault(a: seq<Op>, name: string, x: string, y: string)
    ensures Names(a, name) ==> LastValue(a, name, x) == LastValue(a, name, y)
    ensures !Names(a, name) ==> LastValue(a, name, x) == x
  {
    if a != [] {
      var n := |a| - 1;
      LastValueDefault(a[..n], name, x, y);
      if a[n].name != name {
        if i :| 0 <= i < |a| && a[i].name == name { assert a[..n][i].name == name; }
        if i :| 0 <= i < n && a[..n][i].name == name { assert a[i].name == name; }
      }
    }
  }

  // ---------------------------------------------------------------- merging again over a half-overwritten base

  lemma {:induction false} OutcomeAgain(ops: seq<Op>, k: nat, e: EnvVar)
    requires k <= |ops|
    ensures Outcome(ops, Outcome(ops[..k], e)) == Outcome(ops, e)
  {
    var n := e.name;
    LastValueDefault(ops, n, LastValue(ops[..k], n, e.value), e.value);
    LastValueDefault(ops[..k], n, e.value, "");
    if i :| 0 <= i < k && ops[..k][i].name == n { assert ops[i].name == n; }
    if Integrates(ops[..k], n) {
      var i :| 0 <= i < k && ops[..k][i] == Integration(n, ops[..k][i].value);
      assert ops[i] == Integration(n, ops[i].value);
    }
  }

  /** `env` with the first `k` operations written into its own entries. */
  function Overwritten(env: seq<EnvVar>, ops: seq<Op>, k: nat): (r: seq<EnvVar>)
    requires k <= |ops|
    ensures |r| == |env|
  {
    Merge(env, ops[..k])[..|env|]
  }

  lemma {:induction false} OverwrittenNames(env: seq<EnvVar>, ops: seq<Op>, k: nat)
    requires k <= |ops|
    ensures forall i :: 0 <= i < |env| ==> Overwritten(env, ops, k)[i].name == env[i].name
  {
    forall i | 0 <= i < |env| ensures Overwritten(env, ops, k)[i].name == env[i].name { MergeBase(env, ops[..k], i); }
  }

  /** A merge depends on the names and the outcomes of the base entries only. */
  lemma {:induction false} MergeSame(a: seq<EnvVar>, b: seq<EnvVar>, ops: seq<Op>)
    requires |a| == |b| && forall i :: 0 <= i < |a| ==> a[i].name == b[i].name
    ensures |Merge(a, ops)| == |Merge(b, ops)|
    ensures forall i :: 0 <= i < |Merge(a, ops)| ==> Merge(a, ops)[i].name == Merge(b, ops)[i].name
    ensures forall i :: |a| <= i < |Merge(a, ops)| ==> Merge(a, ops)[i] == Merge(b, ops)[i]
    decreases |ops|
  {
    if ops != [] {
      var front, op := ops[..|ops| - 1], ops[|ops| - 1];
      MergeSame(a, b, front);
      var x, y := Merge(a, front), Merge(b, front);
      var i, j := IndexOf(x, op.name), IndexOf(y, op.name);
      assert i == j;
    }
  }

  /** Building twice from one workspace gives one result: merging over entries that an earlier merge of
      the same operations has already overwritten changes nothing. */
  lemma {:induction false} MergeAgain(env: seq<EnvVar>, ops: seq<Op>, k: nat)
    requires k <= |ops|
    ensures Merge(Overwritten(env, ops, k), ops) == Merge(env, ops)
  {
    hide Outcome;
    var w := Overwritten(env, ops, k);
    OverwrittenNames(env, ops, k);
    MergeSame(w, env, ops);
    forall i | 0 <= i < |env| ensures Merge(w, ops)[i] == Merge(env, ops)[i] {
      MergeBase(env, ops, i);
      MergeBase(w, ops, i);
      MergeBase(env, ops[..k], i);
      OutcomeAgain(ops, k, env[i]);
      assert IndexOf(w, env[i].name) == IndexOf(env, env[i].name) by { SameIndex(env, w, env[i].name); }
    }
  }

  // ---------------------------------------------------------------- slices

  /** A Go slice: a length within a backing array, whose size is the capacity. */
  datatype Slice = Slice(arr: array<EnvVar>, len: nat)

  ghost predicate SliceOk(s: Slice) {
    s.len <= s.arr.Length
  }

  /** `setEnv`, and the inner loop of `addAccessStrategyEnvToContainer`: overwrite the entry of that
      name, or append, which writes into spare capacity or moves to a new array. */
  method SetEnv(s: Slice, op: Op) returns (r: Slice)
    requires SliceOk(s)
    modifies s.arr
    ensures SliceOk(r) && r.len >= s.len && (r.arr == s.arr || fresh(r.arr))
    ensures r.arr[..r.len] == MergeOne(old(s.arr[..s.len]), op)
    ensures r.arr != s.arr ==> s.arr[..] == old(s.arr[..])
  {
    ghost var env := s.arr[..s.len];
    for i := 0 to s.len
      invariant s.arr[..] == old(s.arr[..])
      invariant forall j :: 0 <= j < i ==> s.arr[j].name != op.name
    {
      if s.arr[i].name == op.name {
        assert env[i].name == op.name && IndexOf(env, op.name) == i;
        s.arr[i] := Overwrite(s.arr[i], op);
        return s;
      }
    }
    assert IndexOf(env, op.name) == |env|;
    var entry := EnvVar(op.name, op.value, None);
    if s.len < s.arr.Length {
      s.arr[s.len] := entry;
      r := Slice(s.arr, s.len + 1);
      assert r.arr[..s.len] == env;
    } else {
      var capacity :| capacity > s.len;
      var grown := new EnvVar[capacity](i => entry);
      for i := 0 to s.len
        invariant grown[..i] == env[..i] && s.arr[..] == old(s.arr[..]) && grown[s.len] == entry
      {
        grown[i] := s.arr[i];
      }
      r := Slice(grown, s.len + 1);
      assert grown[..s.len] == env;
    }
  }

  /** `base` still holds its entries with the first `k` operations written into them. */
  ghost predicate Holds(base: Slice, was: seq<EnvVar>, ops: seq<Op>, k: nat)
    reads base.arr
  {
    SliceOk(base) && |was| == base.len && k <= |ops| && base.arr[..base.len] == Overwritten(was, ops, k)
  }

  /** The slice `s` grew out of `base`: as long as it shares the array, every operation so far has also
      been written into the base. */
  ghost predicate GrownFrom(base: Slice, was: seq<EnvVar>, ops: seq<Op>, s: Slice)
    reads base.arr, s.arr
  {
    && SliceOk(base) && SliceOk(s) && |was| == base.len && s.len >= base.len
    && s.arr[..s.len] == Merge(was, ops)
    && (s.arr == base.arr || exists k :: Holds(base, was, ops, k))
  }

  /** Merges `more` into a slice that already took `ops`. */
  method MergeInto(base: Slice, ghost was: seq<EnvVar>, ghost ops: seq<Op>, s: Slice, more: seq<Op>) returns (r: Slice)
    requires GrownFrom(base, was, ops, s)
    modifies s.arr
    ensures GrownFrom(base, was, ops + more, r) && (r.arr == s.arr || fresh(r.arr))
  {
    hide Merge, MergeOne, Overwritten;
    r := s;
    assert ops + more[..0] == ops;
    for i := 0 to |more|
      invariant GrownFrom(base, was, ops + more[..i], r)
      invariant r.arr == s.arr || fresh(r.arr)
    {
      ghost var soFar := ops + more[..i];
      MergeSnoc(was, soFar, more[i]);
      ghost var before := r;
      label L:
      r := SetEnv(r, more[i]);
      assert ops + more[..i + 1] == soFar + [more[i]];
      if before.arr == base.arr && r.arr != base.arr {
        SharedBase(was, soFar, base.arr[..before.len]);
        assert base.arr[..base.len] == base.arr[..before.len][..base.len];
        OverwrittenGrow(was, soFar, more[i], |soFar|);
        assert Holds(base, was, soFar + [more[i]], |soFar|);
      } else if before.arr != base.arr {
        ghost var k :| old@L(Holds(base, was, soFar, k));
        OverwrittenGrow(was, soFar, more[i], k);
        assert Holds(base, was, soFar + [more[i]], k);
      }
    }
    assert more[..|more|] == more;
  }

  lemma {:induction false} MergeSnoc(env: seq<EnvVar>, ops: seq<Op>, op: Op)
    ensures Merge(env, ops + [op]) == MergeOne(Merge(env, ops), op)
  {
    assert (ops + [op])[..|ops + [op]| - 1] == ops;
  }

  lemma {:induction false} SharedBase(was: seq<EnvVar>, ops: seq<Op>, contents: seq<EnvVar>)
    requires contents == Merge(was, ops)
    ensures contents[..|was|] == Overwritten(was, ops, |ops|)
  {
    assert ops[..|ops|] == ops;
  }

  lemma {:induction false} OverwrittenGrow(was: seq<EnvVar>, ops: seq<Op>, op: Op, k: nat)
    requires k <= |ops|
    ensures Overwritten(was, ops + [op], k) == Overwritten(was, ops, k)
  {
    assert (ops + [op])[..k] == ops[..k];
  }

  /** However a build ends, the workspace is left with some of the operations written into its entries. */
  lemma {:induction false} BaseAfter(base: Slice, was: seq<EnvVar>, ops: seq<Op>, s: Slice)
    requires GrownFrom(base, was, ops, s)
    ensures exists k :: Holds(base, was, ops, k)
  {
    if s.arr == base.arr {
      SharedBase(was, ops, s.arr[..s.len]);
      assert base.arr[..base.len] == s.arr[..s.len][..base.len];
      assert Holds(base, was, ops, |ops|);
    }
  }
}
