/** The text that identifies an integration reference (internal/controller/resource_manager_integration.go,
    api/v1alpha1/workspace_types.go). The original hashes it; here the text itself is the identity. */
module CanonicalInput {
  import opened Text

  datatype Parameter = Parameter(name: string, value: string)
  datatype Ref = Ref(name: string, namespace: string, parameters: seq<Parameter>)

  const NUL := "\0"

  predicate NulFree(s: string) {
    '\0' !in s
  }

  /** `ParametersMap`: later entries win. */
  function ParametersMap(parameters: seq<Parameter>): map<string, string> {
    if parameters == [] then map[]
    else
      var last := parameters[|parameters| - 1];
      ParametersMap(parameters[..|parameters| - 1])[last.name := last.value]
  }

  predicate UniqueNames(parameters: seq<Parameter>) {
    forall i, j :: 0 <= i < j < |parameters| ==> parameters[i].name != parameters[j].name
  }

  lemma {:induction false} MapOfUnique(ps: seq<Parameter>, n: string)
    requires UniqueNames(ps)
    ensures n in ParametersMap(ps) <==> exists i :: 0 <= i < |ps| && ps[i].name == n
    ensures forall i :: 0 <= i < |ps| ==> ps[i].name in ParametersMap(ps) && ParametersMap(ps)[ps[i].name] == ps[i].value
  {
    if ps != [] {
      var front, last := ps[..|ps| - 1], ps[|ps| - 1];
      assert ps == front + [last];
      MapOfUnique(front, n);
      if n == last.name {
        assert ps[|ps| - 1].name == n;
      } else if i :| 0 <= i < |ps| && ps[i].name == n {
        assert front[i].name == n;
      }
      forall i | 0 <= i < |front| ensures ps[i].name in ParametersMap(ps) && ParametersMap(ps)[ps[i].name] == ps[i].value {
        assert front[i] == ps[i];
      }
    }
  }

  // ---------------------------------------------------------------- sorted keys

  predicate Increasing(ks: seq<string>) {
    forall i, j :: 0 <= i < j < |ks| ==> Less(ks[i], ks[j])
  }

  /** `ks` lists `keys` in increasing order. */
  ghost predicate SortedKeys(ks: seq<string>, keys: set<string>) {
    Increasing(ks) && forall k :: k in keys <==> k in ks
  }

  /** There is only one such list. */
  lemma {:induction false} SortedKeysUnique(a: seq<string>, b: seq<string>, keys: set<string>)
    requires SortedKeys(a, keys) && SortedKeys(b, keys)
    ensures a == b
  {
    hide Less;
    if a == [] {
      assert forall k :: k in keys <==> k in a;
      assert forall i :: 0 <= i < |b| ==> b[i] in keys;
    } else {
      assert a[0] in keys && a[0] in b;
      assert b[0] in keys && b[0] in a;
      var i :| 0 <= i < |b| && b[i] == a[0];
      var j :| 0 <= j < |a| && a[j] == b[0];
      if i > 0 && j > 0 { LessTotal(a[0], b[0]); }
      assert a[0] == b[0];
      SortedTail(a, keys);
      SortedTail(b, keys);
      SortedKeysUnique(a[1..], b[1..], keys - {a[0]});
      assert a == [a[0]] + a[1..] && b == [b[0]] + b[1..];
    }
  }

  lemma {:induction false} SortedTail(a: seq<string>, keys: set<string>)
    requires SortedKeys(a, keys) && a != []
    ensures SortedKeys(a[1..], keys - {a[0]})
  {
    hide Less;
    forall i | 0 < i < |a| ensures a[i] != a[0] { LessTotal(a[0], a[i]); }
    assert forall k :: k in a[1..] ==> k in a;
    forall k | k in keys - {a[0]} ensures k in a[1..] {
      var i :| 0 <= i < |a| && a[i] == k;
      assert a[1..][i - 1] == k;
    }
  }

  function InsertKey(k: string, ks: seq<string>): (r: seq<string>) {
    if ks == [] || Less(k, ks[0]) then [k] + ks else [ks[0]] + InsertKey(k, ks[1..])
  }

  lemma {:induction false} InsertKeySorted(k: string, ks: seq<string>, keys: set<string>)
    requires SortedKeys(ks, keys) && k !in keys
    ensures SortedKeys(InsertKey(k, ks), keys + {k})
  {
    hide Less;
    if ks == [] {
    } else if Less(k, ks[0]) {
      forall i | 0 < i < |ks| ensures Less(k, ks[i]) { LessTransitive(k, ks[0], ks[i]); }
    } else {
      assert ks[0] in keys;
      LessTotal(k, ks[0]);
      SortedTail(ks, keys);
      InsertKeySorted(k, ks[1..], keys - {ks[0]});
      var r := InsertKey(k, ks[1..]);
      forall x | x in r ensures Less(ks[0], x) {
        if x != k {
          assert x in keys - {ks[0]};
          assert x in ks[1..];
        }
      }
      assert forall x :: x in [ks[0]] + r <==> x == ks[0] || x in r;
    }
  }

  lemma {:induction false} SortedKeysExist(keys: set<string>) returns (ks: seq<string>)
    ensures SortedKeys(ks, keys)
    decreases keys
  {
    if keys == {} {
      ks := [];
    } else {
      var k :| k in keys;
      ks := SortedKeysExist(keys - {k});
      InsertKeySorted(k, ks, keys - {k});
      ks := InsertKey(k, ks);
      assert keys - {k} + {k} == keys;
    }
  }

  // ---------------------------------------------------------------- the token

  function EncodeParameters(ks: seq<string>, m: map<string, string>): string
    requires forall k :: k in ks ==> k in m
  {
    if ks == [] then "" else Entry(ks[0], m[ks[0]]) + EncodeParameters(ks[1..], m)
  }

  function Entry(k: string, v: string): string {
    "p" + NUL + k + NUL + v + NUL
  }

  lemma {:induction false} EntryParts(k: string, v: string, rest: string)
    ensures Entry(k, v) + rest == "p" + NUL + (k + NUL + (v + NUL + rest))
  {
  }

  function Encode(namespace: string, name: string, ks: seq<string>, m: map<string, string>): string
    requires forall k :: k in ks ==> k in m
  {
    "ref" + NUL + (namespace + NUL + (name + NUL + EncodeParameters(ks, m)))
  }

  ghost predicate IsTokenBy(ref: Ref, ks: seq<string>, token: string) {
    var m := ParametersMap(ref.parameters);
    SortedKeys(ks, m.Keys) && (forall k :: k in ks ==> k in m) && token == Encode(ref.namespace, ref.name, ks, m)
  }

  /** The input token of a reference, independent of the order of its parameters. */
  ghost predicate IsToken(ref: Ref, token: string) {
    exists ks :: IsTokenBy(ref, ks, token)
  }

  lemma {:induction false} TokenUnique(ref: Ref, a: string, b: string)
    requires IsToken(ref, a) && IsToken(ref, b)
    ensures a == b
  {
    hide SortedKeys;
    var x :| IsTokenBy(ref, x, a);
    var y :| IsTokenBy(ref, y, b);
    SortedKeysUnique(x, y, ParametersMap(ref.parameters).Keys);
  }

  /** The text fed to the digest: sort the names, then write them out one by one. */
  method Token(ref: Ref) returns (token: string)
    ensures IsToken(ref, token)
  {
    hide SortedKeys, Entry;
    var m := ParametersMap(ref.parameters);
    var keys := CollectSorted(m.Keys);
    KeysInSet(keys, m.Keys);
    token := "ref" + NUL + ref.namespace + NUL + ref.name + NUL;
    ghost var head := token;
    for i := 0 to |keys|
      invariant forall k :: k in keys[..i] ==> k in m
      invariant token == head + EncodeParameters(keys[..i], m)
    {
      token := token + Entry(keys[i], m[keys[i]]);
      EncodeSnoc(keys[..i], keys[i], m);
      assert keys[..i + 1] == keys[..i] + [keys[i]];
    }
    assert keys[..|keys|] == keys;
    assert token == Encode(ref.namespace, ref.name, keys, m);
    assert IsTokenBy(ref, keys, token);
  }

  method CollectSorted(keys: set<string>) returns (ks: seq<string>)
    ensures SortedKeys(ks, keys)
  {
    hide Less;
    ks := [];
    var rest := keys;
    while rest != {}
      invariant rest <= keys
      invariant SortedKeys(ks, keys - rest)
      decreases rest
    {
      var k :| k in rest;
      InsertKeySorted(k, ks, keys - rest);
      ks := InsertKey(k, ks);
      assert keys - rest + {k} == keys - (rest - {k});
      rest := rest - {k};
    }
    assert keys - {} == keys;
  }

  lemma {:induction false} KeysInSet(ks: seq<string>, keys: set<string>)
    requires SortedKeys(ks, keys)
    ensures forall k :: k in ks <==> k in keys
  {
    hide Less;
  }

  lemma {:induction false} EncodeSnoc(ks: seq<string>, k: string, m: map<string, string>)
    requires (forall x :: x in ks ==> x in m) && k in m
    ensures EncodeParameters(ks + [k], m) == EncodeParameters(ks, m) + Entry(k, m[k])
  {
    hide Entry;
    if ks == [] {
      assert ks + [k] == [k] && [k][1..] == [];
    } else {
      assert (ks + [k])[1..] == ks[1..] + [k];
      EncodeSnoc(ks[1..], k, m);
    }
  }

  // ---------------------------------------------------------------- reading the token back

  lemma {:induction false} SplitAtNul(a: string, x: string, b: string, y: string)
    requires NulFree(a) && NulFree(b) && a + NUL + x == b + NUL + y
    ensures a == b && x == y
  {
    var t := a + NUL + x;
    assert t[|a|] == '\0' && t[|b|] == '\0';
    assert forall i :: 0 <= i < |a| ==> t[i] == a[i];
    assert forall i :: 0 <= i < |b| ==> t[i] == b[i];
    assert !(|a| < |b|) && !(|b| < |a|);
    assert t[..|a|] == a && t[..|b|] == b && t[|a| + 1..] == x && t[|b| + 1..] == y;
  }

  ghost predicate NulFreeMap(m: map<string, string>) {
    forall k :: k in m ==> NulFree(k) && NulFree(m[k])
  }

  lemma {:induction false} ParametersDecoded(a: seq<string>, m: map<string, string>, b: seq<string>, n: map<string, string>)
    requires (forall k :: k in a ==> k in m) && (forall k :: k in b ==> k in n) && NulFreeMap(m) && NulFreeMap(n)
    requires EncodeParameters(a, m) == EncodeParameters(b, n)
    ensures a == b && forall k :: k in a ==> m[k] == n[k]
  {
    hide NulFree, Entry;
    if a == [] && b != [] {
      EntryParts(b[0], n[b[0]], EncodeParameters(b[1..], n));
    } else if a != [] && b == [] {
      EntryParts(a[0], m[a[0]], EncodeParameters(a[1..], m));
    } else if a != [] {
      EntryParts(a[0], m[a[0]], EncodeParameters(a[1..], m));
      EntryParts(b[0], n[b[0]], EncodeParameters(b[1..], n));
      var ra := m[a[0]] + NUL + EncodeParameters(a[1..], m);
      var rb := n[b[0]] + NUL + EncodeParameters(b[1..], n);
      assert NulFree("p") by { PlainP(); }
      SplitAtNul("p", a[0] + NUL + ra, "p", b[0] + NUL + rb);
      SplitAtNul(a[0], ra, b[0], rb);
      SplitAtNul(m[a[0]], EncodeParameters(a[1..], m), n[b[0]], EncodeParameters(b[1..], n));
      ParametersDecoded(a[1..], m, b[1..], n);
      assert a == [a[0]] + a[1..] && b == [b[0]] + b[1..];
    }
  }

  lemma {:induction false} PlainP()
    ensures NulFree("p") && NulFree("ref")
  {
  }

  ghost predicate NulFreeRef(ref: Ref) {
    NulFree(ref.namespace) && NulFree(ref.name) && NulFreeMap(ParametersMap(ref.parameters))
  }

  /** Two references have one token exactly when they agree on namespace, name and parameter map. */
  lemma {:induction false} TokenIdentifies(a: Ref, b: Ref, ta: string, tb: string)
    requires NulFreeRef(a) && NulFreeRef(b) && IsToken(a, ta) && IsToken(b, tb)
    ensures ta == tb <==>
              a.namespace == b.namespace && a.name == b.name && ParametersMap(a.parameters) == ParametersMap(b.parameters)
  {
    hide SortedKeys, NulFree, NulFreeMap, ParametersMap;
    var m, n := ParametersMap(a.parameters), ParametersMap(b.parameters);
    var x :| IsTokenBy(a, x, ta);
    var y :| IsTokenBy(b, y, tb);
    if ta == tb {
      PlainP();
      var pa, pb := EncodeParameters(x, m), EncodeParameters(y, n);
      SplitAtNul("ref", a.namespace + NUL + (a.name + NUL + pa), "ref", b.namespace + NUL + (b.name + NUL + pb));
      SplitAtNul(a.namespace, a.name + NUL + pa, b.namespace, b.name + NUL + pb);
      SplitAtNul(a.name, pa, b.name, pb);
      ParametersDecoded(x, m, y, n);
      KeysInSet(x, m.Keys);
      KeysInSet(y, n.Keys);
      assert m == n;
    } else if a.namespace == b.namespace && a.name == b.name && m == n {
      SortedKeysUnique(x, y, m.Keys);
    }
  }

  /** Listing the parameters in another order gives the same map, hence the same token. */
  lemma {:induction false} OrderIrrelevant(ps: seq<Parameter>, qs: seq<Parameter>)
    requires UniqueNames(ps) && UniqueNames(qs) && forall p :: p in ps <==> p in qs
    ensures ParametersMap(ps) == ParametersMap(qs)
  {
    hide ParametersMap;
    var m, n := ParametersMap(ps), ParametersMap(qs);
    forall k | k in m ensures k in n && n[k] == m[k] { Contained(ps, qs, k); }
    forall k | k in n ensures k in m && m[k] == n[k] { Contained(qs, ps, k); }
    assert m.Keys == n.Keys;
  }

  lemma {:induction false} Contained(ps: seq<Parameter>, qs: seq<Parameter>, k: string)
    requires UniqueNames(ps) && UniqueNames(qs) && (forall p :: p in ps ==> p in qs) && k in ParametersMap(ps)
    ensures k in ParametersMap(qs) && ParametersMap(qs)[k] == ParametersMap(ps)[k]
  {
    hide ParametersMap;
    MapOfUnique(ps, k);
    MapOfUnique(qs, k);
    var i :| 0 <= i < |ps| && ps[i].name == k;
    assert ps[i] in qs;
    var j :| 0 <= j < |qs| && qs[j] == ps[i];
  }

  lemma {:induction false} MapOfOne(p: Parameter)
    ensures ParametersMap([p]) == map[p.name := p.value]
  {
    assert [p][..0] == [];
    assert ParametersMap([p][..0]) == map[];
  }

  lemma {:induction false} MapOfTwo(p: Parameter, q: Parameter)
    requires p.name != q.name
    ensures ParametersMap([p, q]) == map[p.name := p.value, q.name := q.value]
  {
    MapOfOne(p);
    assert [p, q][..1] == [p];
  }

  lemma {:induction false} EncodeOne(k: string, m: map<string, string>)
    requires k in m
    ensures EncodeParameters([k], m) == Entry(k, m[k])
  {
    assert [] + [k] == [k];
    EncodeSnoc([], k, m);
    assert EncodeParameters([], m) == "";
  }

  /** A NUL in a value can make two different references share a token. */
  lemma {:induction false} NulCollides(a: Ref, b: Ref)
    requires a == Ref("n", "", [Parameter("k", NUL + "p" + NUL + "x" + NUL)])
    requires b == Ref("n", "", [Parameter("k", ""), Parameter("x", "")])
    ensures ParametersMap(a.parameters) != ParametersMap(b.parameters)
    ensures exists t :: IsToken(a, t) && IsToken(b, t)
  {
    assert Less("k", "x") by { assert "k"[0] < "x"[0]; }
    hide Less, EncodeParameters, ParametersMap;
    var v := NUL + "p" + NUL + "x" + NUL;
    MapOfOne(Parameter("k", v));
    MapOfTwo(Parameter("k", ""), Parameter("x", ""));
    var m, n := ParametersMap(a.parameters), ParametersMap(b.parameters);
    assert "x" in n && "x" !in m;
    assert SortedKeys(["k"], m.Keys) && SortedKeys(["k", "x"], n.Keys);
    EncodeOne("k", m);
    EncodeOne("k", n);
    assert ["k"] + ["x"] == ["k", "x"];
    EncodeSnoc(["k"], "x", n);
    assert Entry("k", v) == Entry("k", "") + Entry("x", "");
    assert EncodeParameters(["k"], m) == EncodeParameters(["k", "x"], n);
    var t := Encode("", "n", ["k"], m);
    assert IsTokenBy(a, ["k"], t) && IsTokenBy(b, ["k", "x"], t);
    assert IsToken(a, t) && IsToken(b, t);
  }
}
