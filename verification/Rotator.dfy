/** Rotation of the signing secret (internal/rotator/rotator.go, cmd/rotator/main.go). */
module Rotator {
  import opened Text
  import opened Keys

  datatype KeyEntry = KeyEntry(name: string, timestamp: int)

  predicate Sorted(keys: seq<KeyEntry>) {
    forall i, j :: 0 <= i < j < |keys| ==> keys[i].timestamp <= keys[j].timestamp
  }

  function WellFormedNames(data: SecretData): (names: set<string>) {
    set name | name in data && WellFormedKey(name)
  }

  function Stamp(name: string): int
    requires WellFormedKey(name)
  {
    ParseKeyTimestamp(name).value
  }

  /** `keys` lists each of `names` once, with its timestamp. */
  ghost predicate Lists(keys: seq<KeyEntry>, names: set<string>) {
    if keys == [] then names == {}
    else
      var e := keys[0];
      && e.name in names && WellFormedKey(e.name) && Stamp(e.name) == e.timestamp
      && Lists(keys[1..], names - {e.name})
  }

  /** What a rotation does to the data of a secret. The rotator sorts by timestamp only, so which of
      several names for one timestamp goes first is not fixed. */
  ghost predicate Rotated(before: SecretData, numberOfKeys: int, now: int, key: SigningKey, after: SecretData)
    requires IsInt64(now)
  {
    var added := before[BuildKeyName(now) := key];
    && BuildKeyName(now) !in before
    && after.Keys <= added.Keys
    && (forall name :: name in after ==> after[name] == added[name])
    && (forall name :: name in added && name !in after ==> WellFormedKey(name))
    && OldestGone(added, after)
    && |WellFormedNames(after)| == Min(|WellFormedNames(before)| + 1, numberOfKeys)
  }

  ghost predicate OldestGone(added: SecretData, after: SecretData) {
    forall gone, kept :: gone in added && gone !in after && kept in after && WellFormedKey(gone) && WellFormedKey(kept)
      ==> Stamp(gone) <= Stamp(kept)
  }

  function Min(a: int, b: int): int {
    if a <= b then a else b
  }

  function Insert(e: KeyEntry, keys: seq<KeyEntry>): (r: seq<KeyEntry>)
    ensures Sorted(keys) ==> Sorted(r)
    ensures forall x :: x in r <==> x == e || x in keys
  {
    if keys == [] || e.timestamp <= keys[0].timestamp then [e] + keys
    else
      var rest := Insert(e, keys[1..]);
      assert forall x :: x in keys <==> x == keys[0] || x in keys[1..];
      assert Sorted(keys) ==> forall x :: x in rest ==> keys[0].timestamp <= x.timestamp;
      [keys[0]] + rest
  }

  /** `sort.Slice` by timestamp. */
  function SortByTimestamp(keys: seq<KeyEntry>): (r: seq<KeyEntry>)
    ensures Sorted(r)
  {
    if keys == [] then [] else Insert(keys[0], SortByTimestamp(keys[1..]))
  }

  lemma {:induction false} InsertLists(e: KeyEntry, keys: seq<KeyEntry>, names: set<string>)
    requires Lists(keys, names) && e.name !in names
    requires WellFormedKey(e.name) && Stamp(e.name) == e.timestamp
    ensures Lists(Insert(e, keys), names + {e.name})
  {
    hide ParseKeyTimestamp, WellFormedKey, Stamp;
    var r := Insert(e, keys);
    if keys == [] || e.timestamp <= keys[0].timestamp {
      assert r[1..] == keys && names + {e.name} - {e.name} == names;
    } else {
      InsertLists(e, keys[1..], names - {keys[0].name});
      assert r[1..] == Insert(e, keys[1..]);
      assert names - {keys[0].name} + {e.name} == names + {e.name} - {keys[0].name};
    }
  }

  lemma {:induction false} SortLists(keys: seq<KeyEntry>, names: set<string>)
    requires Lists(keys, names)
    ensures Lists(SortByTimestamp(keys), names)
  {
    if keys != [] {
      SortLists(keys[1..], names - {keys[0].name});
      InsertLists(keys[0], SortByTimestamp(keys[1..]), names - {keys[0].name});
      assert names - {keys[0].name} + {keys[0].name} == names;
    }
  }

  lemma {:induction false} AppendLists(keys: seq<KeyEntry>, names: set<string>, e: KeyEntry)
    requires Lists(keys, names) && e.name !in names
    requires WellFormedKey(e.name) && Stamp(e.name) == e.timestamp
    ensures Lists(keys + [e], names + {e.name})
  {
    hide ParseKeyTimestamp, WellFormedKey, Stamp;
    if keys == [] {
      assert (keys + [e])[1..] == [] && names + {e.name} - {e.name} == {};
    } else {
      AppendLists(keys[1..], names - {keys[0].name}, e);
      assert (keys + [e])[1..] == keys[1..] + [e];
      assert names - {keys[0].name} + {e.name} == names + {e.name} - {keys[0].name};
    }
  }

  lemma {:induction false} ListsMembers(keys: seq<KeyEntry>, names: set<string>)
    requires Lists(keys, names)
    ensures |keys| == |names|
    ensures forall i :: 0 <= i < |keys| ==> keys[i].name in names
    ensures forall name :: name in names ==> exists i :: 0 <= i < |keys| && keys[i].name == name
    ensures forall i :: 0 <= i < |keys| ==> WellFormedKey(keys[i].name) && Stamp(keys[i].name) == keys[i].timestamp
  {
    hide ParseKeyTimestamp, WellFormedKey, Stamp;
    if keys != [] {
      ListsMembers(keys[1..], names - {keys[0].name});
      assert forall i :: 1 <= i < |keys| ==> keys[i] == keys[1..][i - 1];
      forall name | name in names ensures exists i :: 0 <= i < |keys| && keys[i].name == name {
        if name != keys[0].name {
          assert name in names - {keys[0].name};
          var j :| 0 <= j < |keys[1..]| && keys[1..][j].name == name;
          assert keys[j + 1].name == name;
        }
      }
    }
  }

  /** The cluster's copy of the secret; `data` is None when the secret carries none. */
  class SecretStore {
    var data: Option<SecretData>

    ghost function Contents(): SecretData
      reads this
    {
      if data.Some? then data.value else map[]
    }

    constructor (data: Option<SecretData>)
      ensures this.data == data
    {
      this.data := data;
    }

    /** `getOk`, `newKey` and `updateOk` are the outcomes of the API read, the random source and the
        API write; `now` is the clock in Unix seconds. */
    method RotateSecret(numberOfKeys: int, now: int, getOk: bool, newKey: Option<SigningKey>, updateOk: bool)
      returns (ok: bool)
      requires IsInt64(now)
      modifies this
      ensures ok <==> numberOfKeys >= 1 && getOk && newKey.Some? && BuildKeyName(now) !in old(Contents()) && updateOk
      ensures !ok ==> data == old(data)
      ensures ok ==> data.Some? && Rotated(old(Contents()), numberOfKeys, now, newKey.value, data.value)
    {
      hide Rotated;
      if !getOk {
        return false;
      }
      var after := Rotate(if data.Some? then data.value else map[], numberOfKeys, now, newKey);
      if after.Some? && updateOk {
        data := after;
        return true;
      }
      return false;
    }
  }

  /** The rotation on the data read from the cluster; None is any of the refusals. */
  method Rotate(secret: SecretData, numberOfKeys: int, now: int, newKey: Option<SigningKey>)
    returns (after: Option<SecretData>)
    requires IsInt64(now)
    ensures after.Some? <==> numberOfKeys >= 1 && newKey.Some? && BuildKeyName(now) !in secret
    ensures after.Some? ==> Rotated(secret, numberOfKeys, now, newKey.value, after.value)
  {
    hide ParseKeyTimestamp, BuildKeyName, Rotated, Lists, Insert;
    if numberOfKeys < 1 {
      return None;
    }
    var keys := CollectKeys(secret);
    SortLists(keys, WellFormedNames(secret));
    keys := SortByTimestamp(keys);
    if newKey.None? {
      return None;
    }
    var newKeyName := BuildKeyName(now);
    BuildParseRoundTrip(now);
    var clash := FindName(keys, newKeyName, WellFormedNames(secret));
    if clash {
      return None;
    }
    AppendLists(keys, WellFormedNames(secret), KeyEntry(newKeyName, now));
    SortLists(keys + [KeyEntry(newKeyName, now)], WellFormedNames(secret) + {newKeyName});
    keys := SortByTimestamp(keys + [KeyEntry(newKeyName, now)]);
    var pruned := AddAndPrune(secret, newKeyName, now, newKey.value, keys, numberOfKeys);
    return Some(pruned);
  }

  method CollectKeys(data: SecretData) returns (keys: seq<KeyEntry>)
    ensures Lists(keys, WellFormedNames(data))
  {
    keys := [];
    var rest := data.Keys;
    while rest != {}
      invariant rest <= data.Keys
      invariant Lists(keys, WellFormedNames(data) - rest)
      decreases rest
    {
      hide ParseKeyTimestamp;
      var name :| name in rest;
      ghost var seen := WellFormedNames(data) - rest;
      rest := rest - {name};
      var timestamp := ParseKeyTimestamp(name);
      if HasKeyPrefix(name) && timestamp.Some? {
        AppendLists(keys, seen, KeyEntry(name, timestamp.value));
        keys := keys + [KeyEntry(name, timestamp.value)];
        assert seen + {name} == WellFormedNames(data) - rest;
      } else {
        assert seen == WellFormedNames(data) - rest;
      }
    }
    assert WellFormedNames(data) - {} == WellFormedNames(data);
  }

  method FindName(keys: seq<KeyEntry>, name: string, ghost names: set<string>) returns (found: bool)
    requires Lists(keys, names)
    ensures found <==> name in names
  {
    hide ParseKeyTimestamp, Lists;
    ListsMembers(keys, names);
    for i := 0 to |keys|
      invariant forall j :: 0 <= j < i ==> keys[j].name != name
    {
      if keys[i].name == name {
        return true;
      }
    }
    return false;
  }

  /** Adds the new key and deletes from the front of the sorted list. */
  method AddAndPrune(secret: SecretData, newKeyName: string, now: int, newKey: SigningKey,
                     keys: seq<KeyEntry>, numberOfKeys: int)
    returns (after: SecretData)
    requires IsInt64(now) && newKeyName == BuildKeyName(now) && newKeyName !in secret && numberOfKeys >= 1
    requires Sorted(keys) && Lists(keys, WellFormedNames(secret) + {newKeyName})
    ensures Rotated(secret, numberOfKeys, now, newKey, after)
  {
    hide ParseKeyTimestamp, BuildKeyName, Lists, Pruning, Rotated;
    ghost var added := secret[newKeyName := newKey];
    after := secret[newKeyName := newKey];
    PruneStart(secret, newKeyName, now, newKey, keys);
    var excess := if |keys| > numberOfKeys then |keys| - numberOfKeys else 0;
    for i := 0 to excess
      invariant Pruning(added, after, keys, i)
    {
      PruneStep(added, after, keys, i);
      after := after - {keys[i].name};
    }
    PruneDone(secret, newKeyName, now, newKey, keys, excess, after, numberOfKeys);
  }

  /** The names deleted so far are those of `keys[..i]`; the rest of the list is what is left. */
  ghost predicate Pruning(added: SecretData, after: SecretData, keys: seq<KeyEntry>, i: nat) {
    && i <= |keys|
    && after.Keys <= added.Keys
    && (forall name :: name in after ==> after[name] == added[name])
    && Lists(keys[i..], WellFormedNames(after))
    && forall name :: name in added && name !in after ==>
         WellFormedKey(name) && exists j :: 0 <= j < i && keys[j].name == name && keys[j].timestamp == Stamp(name)
  }

  lemma {:induction false} PruneStart(secret: SecretData, newKeyName: string, now: int, newKey: SigningKey, keys: seq<KeyEntry>)
    requires IsInt64(now) && newKeyName == BuildKeyName(now) && newKeyName !in secret
    requires Lists(keys, WellFormedNames(secret) + {newKeyName})
    ensures var added := secret[newKeyName := newKey]; Pruning(added, added, keys, 0)
    ensures |keys| == |WellFormedNames(secret)| + 1
  {
    hide ParseKeyTimestamp, BuildKeyName;
    BuildParseRoundTrip(now);
    ListsMembers(keys, WellFormedNames(secret) + {newKeyName});
    assert keys[0..] == keys;
    assert WellFormedNames(secret[newKeyName := newKey]) == WellFormedNames(secret) + {newKeyName};
  }

  lemma {:induction false} PruneStep(added: SecretData, after: SecretData, keys: seq<KeyEntry>, i: nat)
    requires i < |keys| && Pruning(added, after, keys, i)
    ensures Pruning(added, after - {keys[i].name}, keys, i + 1)
  {
    hide ParseKeyTimestamp, WellFormedKey, Stamp;
    assert keys[i..][1..] == keys[i + 1..] && keys[i..][0] == keys[i];
    assert WellFormedNames(after - {keys[i].name}) == WellFormedNames(after) - {keys[i].name};
  }

  lemma {:induction false} PruneDone(secret: SecretData, newKeyName: string, now: int, newKey: SigningKey, keys: seq<KeyEntry>, i: nat,
                  after: SecretData, numberOfKeys: int)
    requires IsInt64(now) && newKeyName == BuildKeyName(now) && newKeyName !in secret
    requires Sorted(keys) && Pruning(secret[newKeyName := newKey], after, keys, i)
    requires |keys| == |WellFormedNames(secret)| + 1 && |keys| - i == Min(|keys|, numberOfKeys)
    ensures Rotated(secret, numberOfKeys, now, newKey, after)
  {
    hide ParseKeyTimestamp, BuildKeyName, WellFormedKey, Stamp, OldestGone;
    ListsMembers(keys[i..], WellFormedNames(after));
    PrunedIsOldest(secret[newKeyName := newKey], after, keys, i);
  }

  lemma {:induction false} PrunedIsOldest(added: SecretData, after: SecretData, keys: seq<KeyEntry>, i: nat)
    requires Sorted(keys) && Pruning(added, after, keys, i)
    ensures OldestGone(added, after)
  {
    hide ParseKeyTimestamp, WellFormedKey, Stamp;
    ListsMembers(keys[i..], WellFormedNames(after));
    forall gone, kept | gone in added && gone !in after && kept in after && WellFormedKey(gone) && WellFormedKey(kept)
      ensures Stamp(gone) <= Stamp(kept)
    {
      var j :| 0 <= j < i && keys[j].name == gone && keys[j].timestamp == Stamp(gone);
      assert kept in WellFormedNames(after);
      var k :| 0 <= k < |keys[i..]| && keys[i..][k].name == kept;
      assert keys[i..][k] == keys[i + k];
    }
  }

  /** A rotation keeps the key it adds whenever that key is the newest. */
  lemma {:induction false} NewestIsKept(before: SecretData, numberOfKeys: int, now: int, key: SigningKey, after: SecretData)
    requires IsInt64(now) && numberOfKeys >= 1 && Rotated(before, numberOfKeys, now, key, after)
    requires forall name :: name in before && WellFormedKey(name) ==> Stamp(name) < now
    ensures BuildKeyName(now) in after && after[BuildKeyName(now)] == key
  {
    hide ParseKeyTimestamp, BuildKeyName;
    BuildParseRoundTrip(now);
    var kept :| kept in WellFormedNames(after);
    if BuildKeyName(now) !in after {
      assert false;
    }
  }

  /** Names without the prefix, or whose digits do not parse, are never touched. */
  lemma {:induction false} OthersUntouched(before: SecretData, numberOfKeys: int, now: int, key: SigningKey, after: SecretData, name: string)
    requires IsInt64(now) && Rotated(before, numberOfKeys, now, key, after)
    requires !WellFormedKey(name)
    ensures name in after <==> name in before
    ensures name in before ==> after[name] == before[name]
  {
    hide ParseInt;
    BuildParseRoundTrip(now);
    assert name != BuildKeyName(now);
  }

  /** `deriveNumberOfKeys`: ceil(ttl / interval) + 1, with an exact ceiling. */
  function DeriveNumberOfKeys(ttl: nat, interval: nat): (n: nat)
    requires interval > 0
    ensures (n - 1) * interval >= ttl && n >= 1
    ensures n >= 2 ==> (n - 2) * interval < ttl
  {
    var q := (ttl + interval - 1) / interval;
    CeilingBounds(ttl, interval, q);
    q + 1
  }

  lemma {:induction false} CeilingBounds(ttl: nat, interval: nat, q: int)
    requires interval > 0 && q == (ttl + interval - 1) / interval
    ensures q >= 0 && q * interval >= ttl && (q >= 1 ==> (q - 1) * interval < ttl)
  {
    var r := (ttl + interval - 1) % interval;
    assert ttl + interval - 1 == q * interval + r;
    assert (q - 1) * interval == q * interval - interval;
  }
}
