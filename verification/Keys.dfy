/** Names and contents of the JWT signing secret (internal/jwt/keys.go). */
module Keys {
  import opened Text

  newtype Byte = b: int | 0 <= b < 256
  type SigningKey = seq<Byte>
  type SecretData = map<string, SigningKey>

  const KEY_PREFIX := "jwt-signing-key-"

  predicate HasKeyPrefix(name: string) {
    KEY_PREFIX <= name
  }

  function KeyName(kid: string): (name: string)
    ensures HasKeyPrefix(name)
    ensures Kid(name) == kid
  {
    KEY_PREFIX + kid
  }

  function Kid(name: string): (kid: string)
    requires HasKeyPrefix(name)
  {
    name[|KEY_PREFIX|..]
  }

  lemma {:induction false} KeyNameOfKid(name: string)
    requires HasKeyPrefix(name)
    ensures KeyName(Kid(name)) == name
  {
  }

  function BuildKeyName(timestamp: int): (name: string) {
    KeyName(PrintInt(timestamp))
  }

  function ParseKeyTimestamp(name: string): (r: Option<int>) {
    if HasKeyPrefix(name) then ParseInt(Kid(name)) else None
  }

  predicate WellFormedKey(name: string) {
    ParseKeyTimestamp(name).Some?
  }

  /** Every int64 timestamp survives being built into a name and parsed back. */
  lemma {:induction false} BuildParseRoundTrip(timestamp: int)
    requires IsInt64(timestamp)
    ensures ParseKeyTimestamp(BuildKeyName(timestamp)) == Some(timestamp)
  {
    PrintParse(timestamp);
  }

  /** A parsed name is rebuilt exactly when its digits were canonical: "+5" and "05" are accepted
      but are not the name of timestamp 5. */
  lemma {:induction false} ParseBuildRoundTrip(name: string)
    requires WellFormedKey(name)
    ensures BuildKeyName(ParseKeyTimestamp(name).value) == name <==> Canonical(Kid(name))
  {
    ParsePrint(Kid(name));
    KeyNameOfKid(name);
  }

  function KidSet(data: SecretData): (kids: set<string>) {
    set name | name in data && HasKeyPrefix(name) :: Kid(name)
  }

  lemma {:induction false} KidSetMembers(data: SecretData)
    ensures forall kid :: kid in KidSet(data) <==> KeyName(kid) in data
  {
    forall kid | kid in KidSet(data) ensures KeyName(kid) in data {
      var name :| name in data && HasKeyPrefix(name) && Kid(name) == kid;
      KeyNameOfKid(name);
    }
    forall kid | KeyName(kid) in data ensures kid in KidSet(data) {
      assert Kid(KeyName(kid)) == kid;
    }
  }

  /** What a signer should hold for a secret: the prefixed entries, under their kid. */
  function SigningKeys(data: SecretData): (keys: map<string, SigningKey>) {
    KidSetMembers(data);
    map kid | kid in KidSet(data) :: data[KeyName(kid)]
  }

  lemma {:induction false} SigningKeysMembers(data: SecretData)
    ensures forall kid :: kid in SigningKeys(data) <==> KeyName(kid) in data
    ensures forall kid :: kid in SigningKeys(data) ==> SigningKeys(data)[kid] == data[KeyName(kid)]
  {
    KidSetMembers(data);
  }

  ghost predicate AllWellFormed(data: SecretData) {
    forall name :: name in data && HasKeyPrefix(name) ==> WellFormedKey(name)
  }

  /** The kid of greatest timestamp, or "" when no timestamp is positive. */
  ghost predicate IsLatest(kids: set<string>, latest: string) {
    if exists kid :: kid in kids && ParseInt(kid).Some? && ParseInt(kid).value > 0 then
      && latest in kids && ParseInt(latest).Some? && ParseInt(latest).value > 0
      && forall kid :: kid in kids && ParseInt(kid).Some? ==> ParseInt(kid).value <= ParseInt(latest).value
    else
      latest == ""
  }

  datatype ParseResult = ParseError | Parsed(keys: map<string, SigningKey>, latestKid: string)

  /** `data` is absent when the secret has no data at all. */
  ghost predicate IsParseOf(data: Option<SecretData>, r: ParseResult) {
    match r
    case ParseError =>
      data.None? || !AllWellFormed(data.value) || KidSet(data.value) == {}
    case Parsed(keys, latest) =>
      && data.Some? && AllWellFormed(data.value)
      && keys == SigningKeys(data.value) && keys != map[]
      && IsLatest(keys.Keys, latest)
  }

  /** The state of the parsing loop once the names in `done` have been seen. */
  ghost predicate ParsedSoFar(data: SecretData, done: set<string>, keys: map<string, SigningKey>,
                              latestTimestamp: int, latestKid: string)
  {
    && (forall name :: name in done && HasKeyPrefix(name) ==> WellFormedKey(name))
    && (forall kid :: kid in keys <==> KeyName(kid) in done && KeyName(kid) in data)
    && (forall kid :: kid in keys ==> keys[kid] == data[KeyName(kid)])
    && AtMost(keys.Keys, latestTimestamp)
    && (if latestTimestamp == 0 then latestKid == ""
        else latestTimestamp > 0 && latestKid in keys && ParseInt(latestKid) == Some(latestTimestamp))
  }

  ghost predicate AtMost(kids: set<string>, bound: int) {
    forall kid :: kid in kids && ParseInt(kid).Some? ==> ParseInt(kid).value <= bound
  }

  lemma {:induction false} ParseStep(data: SecretData, done: set<string>, name: string, keys: map<string, SigningKey>,
                  latestTimestamp: int, latestKid: string)
    requires ParsedSoFar(data, done, keys, latestTimestamp, latestKid)
    requires name in data && WellFormedKey(name)
    ensures var t := ParseKeyTimestamp(name).value;
            ParsedSoFar(data, done + {name}, keys[Kid(name) := data[name]],
                        if t > latestTimestamp then t else latestTimestamp,
                        if t > latestTimestamp then Kid(name) else latestKid)
  {
    hide ParseInt;
    KeyNameOfKid(name);
    assert forall kid :: KeyName(kid) == name ==> kid == Kid(name);
    var t := ParseKeyTimestamp(name).value;
    assert AtMost(keys[Kid(name) := data[name]].Keys, if t > latestTimestamp then t else latestTimestamp);
  }

  lemma {:induction false} ParseStart(data: SecretData)
    ensures ParsedSoFar(data, {}, map[], 0, "")
  {
  }

  lemma {:induction false} ParseFails(data: SecretData, name: string)
    requires name in data && HasKeyPrefix(name) && ParseKeyTimestamp(name).None?
    ensures IsParseOf(Some(data), ParseError)
  {
    assert !WellFormedKey(name);
  }

  lemma {:induction false} ParseSkip(data: SecretData, done: set<string>, name: string, keys: map<string, SigningKey>,
                  latestTimestamp: int, latestKid: string)
    requires ParsedSoFar(data, done, keys, latestTimestamp, latestKid) && !HasKeyPrefix(name)
    ensures ParsedSoFar(data, done + {name}, keys, latestTimestamp, latestKid)
  {
  }

  lemma {:induction false} ParseDone(data: SecretData, keys: map<string, SigningKey>, latestTimestamp: int, latestKid: string)
    requires ParsedSoFar(data, data.Keys, keys, latestTimestamp, latestKid)
    ensures IsParseOf(Some(data), if |keys| == 0 then ParseError else Parsed(keys, latestKid))
  {
    hide ParseInt;
    KidSetMembers(data);
    SigningKeysMembers(data);
    if |keys| == 0 {
      assert forall kid :: kid in KidSet(data) ==> kid in keys;
    } else {
      assert keys == SigningKeys(data);
      assert AllWellFormed(data);
      LatestDone(keys.Keys, latestTimestamp, latestKid);
    }
  }

  lemma {:induction false} LatestDone(kids: set<string>, latestTimestamp: int, latestKid: string)
    requires AtMost(kids, latestTimestamp)
    requires if latestTimestamp == 0 then latestKid == ""
             else latestTimestamp > 0 && latestKid in kids && ParseInt(latestKid) == Some(latestTimestamp)
    ensures IsLatest(kids, latestKid)
  {
    hide ParseInt;
  }

  method ParseSigningKeysFromSecret(data: Option<SecretData>) returns (r: ParseResult)
    ensures IsParseOf(data, r)
  {
    if data.None? {
      return ParseError;
    }
    hide IsParseOf, ParsedSoFar, ParseInt, AllWellFormed, KidSet, SigningKeys;
    ParseStart(data.value);
    var keys: map<string, SigningKey> := map[];
    var latestTimestamp, latestKid := 0, "";
    var rest := data.value.Keys;
    ghost var done: set<string> := {};
    while rest != {}
      invariant done !! rest && done + rest == data.value.Keys
      invariant ParsedSoFar(data.value, done, keys, latestTimestamp, latestKid)
      decreases rest
    {
      var name :| name in rest;
      if HasKeyPrefix(name) {
        var timestamp := ParseKeyTimestamp(name);
        if timestamp.None? {
          ParseFails(data.value, name);
          return ParseError;
        }
        ParseStep(data.value, done, name, keys, latestTimestamp, latestKid);
        keys := keys[Kid(name) := data.value[name]];
        if timestamp.value > latestTimestamp {
          latestTimestamp, latestKid := timestamp.value, Kid(name);
        }
      } else {
        ParseSkip(data.value, done, name, keys, latestTimestamp, latestKid);
      }
      rest, done := rest - {name}, done + {name};
    }
    assert done == data.value.Keys;
    ParseDone(data.value, keys, latestTimestamp, latestKid);
    r := if |keys| == 0 then ParseError else Parsed(keys, latestKid);
  }

  /** A secret whose prefixed names all parse and that has a positive one is always accepted. */
  lemma {:induction false} ParsesWhenWellFormed(data: SecretData, r: ParseResult, kid: string)
    requires IsParseOf(Some(data), r) && AllWellFormed(data)
    requires kid in KidSet(data) && ParseInt(kid).Some? && ParseInt(kid).value > 0
    ensures r.Parsed? && r.keys == SigningKeys(data) && r.latestKid in r.keys
  {
    KidSetMembers(data);
    SigningKeysMembers(data);
    assert kid in SigningKeys(data);
  }
}
