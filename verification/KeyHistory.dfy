/** The successive contents of the signing secret, and what rotation preserves across any number of
    rotations (internal/rotator/rotator.go, internal/jwt/keys.go). */
module KeyHistory {
  import opened Text
  import opened Keys
  import Rotator
  import opened Signer

  type KeyMap = map<string, SigningKey>

  /** The keys in the secret from `time` on. */
  datatype Version = Version(time: int, keys: KeyMap)

  /** A kid of a fixed number of digits naming a positive int64. */
  predicate GoodKid(length: nat, kid: string) {
    AllDigits(kid) && |kid| == length && 0 < Value(kid) <= MAX_INT64
  }

  lemma {:induction false} GoodKidParses(length: nat, kid: string)
    requires GoodKid(length, kid)
    ensures ParseInt(kid) == Some(Value(kid)) && kid != ""
  {
    if kid != "" {
      assert IsDigit(kid[0]);
    }
  }

  /** The signer's greatest kid in string order is the parser's kid of greatest timestamp, in whatever
      order either of them walks its map, as long as all kids have one length. */
  lemma {:induction false} LatestIsGreatest(length: nat, kids: set<string>, latest: string)
    requires kids != {} && (forall kid :: kid in kids ==> GoodKid(length, kid)) && IsLatest(kids, latest)
    ensures latest in kids && forall kid :: kid in kids ==> kid == latest || Less(kid, latest)
  {
    hide ParseInt, GoodKid, Less, Value;
    forall kid | kid in kids ensures AllDigits(kid) && ParseInt(kid) == Some(Value(kid)) && Value(kid) > 0 {
      KidFacts(length, kid);
    }
    forall kid | kid in kids ensures kid == latest || Less(kid, latest) {
      KidFacts(length, kid);
      KidFacts(length, latest);
      EqualLengthOrder(kid, latest);
      LessTotal(kid, latest);
    }
  }

  lemma {:induction false} KidFacts(length: nat, kid: string)
    requires GoodKid(length, kid)
    ensures AllDigits(kid) && |kid| == length && ParseInt(kid) == Some(Value(kid)) && Value(kid) > 0
  {
    GoodKidParses(length, kid);
  }

  /** A canonical number with more digits is greater. */
  lemma {:induction false} MoreDigits(a: string, b: string)
    requires CanonicalDigits(a) && CanonicalDigits(b) && |a| < |b|
    ensures Value(a) < Value(b)
  {
    BelowPower(a);
    AbovePower(b);
    PowersGrow(|a|, |b| - 1);
  }

  lemma {:induction false} BelowPower(s: string)
    requires AllDigits(s)
    ensures Value(s) < Pow10(|s|)
  {
    if s != "" {
      BelowPower(s[..|s| - 1]);
    }
  }

  lemma {:induction false} AbovePower(s: string)
    requires AllDigits(s) && s != "" && s[0] != '0'
    ensures Value(s) >= Pow10(|s| - 1)
  {
    if |s| > 1 {
      AbovePower(s[..|s| - 1]);
    } else {
      ValuePositive(s);
    }
  }

  lemma {:induction false} PowersGrow(j: nat, k: nat)
    requires j <= k
    ensures Pow10(j) <= Pow10(k)
  {
    if j < k {
      PowersGrow(j, k - 1);
    }
  }

  /** In string order a shorter text is compared with the beginning of a longer one. */
  lemma {:induction false} LessByPrefix(a: string, b: string)
    requires |a| < |b|
    ensures Less(a, b) <==> !Less(b[..|a|], a)
    ensures Less(b, a) <==> Less(b[..|a|], a)
  {
    if a != "" {
      LessByPrefix(a[1..], b[1..]);
      assert b[..|a|][1..] == b[1..][..|a| - 1];
    }
  }

  /** For any two different canonical kids the string order is the numeric order exactly when they have
      one length, or the shorter one is not greater than the beginning of the longer one. */
  lemma {:induction false} OrdersAgreeIff(a: string, b: string)
    requires CanonicalDigits(a) && CanonicalDigits(b) && |a| <= |b|
    ensures (Less(a, b) <==> Value(a) < Value(b)) && (Less(b, a) <==> Value(b) < Value(a)) <==>
              |a| == |b| || Value(a) <= Value(b[..|a|])
  {
    if |a| == |b| {
      EqualLengthOrder(a, b);
      EqualLengthOrder(b, a);
    } else {
      MoreDigits(a, b);
      LessByPrefix(a, b);
      EqualLengthOrder(b[..|a|], a);
    }
  }

  /** So with kids of different lengths the signer's greatest kid need not be the latest: 10 is later
      than 9, "9" is greater than "10". */
  lemma {:induction false} LengthsMatter()
    ensures Less("10", "9") && ParseInt("9") == Some(9) && ParseInt("10") == Some(10)
    ensures !IsLatest({"9", "10"}, "9")
  {
    assert "10"[..1] == "1" && "1"[..0] == "" && "9"[..0] == "";
    assert Value("1") == 1 && Value("10") == 10 && Value("9") == 9;
    assert "10" in {"9", "10"};
  }

  function Seconds(time: int): int {
    time / SECOND
  }

  function FreshKid(v: Version): string {
    PrintInt(Seconds(v.time))
  }

  ghost predicate OldestGone(before: KeyMap, newKid: string, after: KeyMap) {
    forall gone, kept :: (gone in before || gone == newKid) && gone !in after && kept in after && AllDigits(gone) && AllDigits(kept)
      ==> Value(gone) <= Value(kept)
  }

  /** One rotation, as it appears to signers. */
  ghost predicate KeysRotated(numberOfKeys: int, before: KeyMap, newKid: string, after: KeyMap) {
    && newKid !in before
    && after.Keys <= before.Keys + {newKid}
    && (forall kid :: kid in after && kid in before ==> after[kid] == before[kid])
    && OldestGone(before, newKid, after)
    && |after.Keys| == Rotator.Min(|before.Keys| + 1, numberOfKeys)
  }

  datatype Rules = Rules(numberOfKeys: nat, interval: int, kidLength: nat)

  ghost predicate GoodVersion(r: Rules, v: Version) {
    v.keys != map[] && forall kid :: kid in v.keys ==> GoodKid(r.kidLength, kid) && Value(kid) <= Seconds(v.time)
  }

  ghost predicate GoodRotation(r: Rules, h: seq<Version>, v: nat)
    requires 0 < v < |h|
  {
    && GoodKid(r.kidLength, FreshKid(h[v])) && Value(FreshKid(h[v])) == Seconds(h[v].time)
    && KeysRotated(r.numberOfKeys, h[v - 1].keys, FreshKid(h[v]), h[v].keys)
    && h[v - 1].time <= h[v].time
    && (v > 1 ==> h[v].time - h[v - 1].time >= r.interval)
  }

  /** Every version is good and follows from the one before it by a rotation; rotations are at least
      `interval` apart. */
  ghost predicate History(r: Rules, h: seq<Version>) {
    && r.numberOfKeys >= 1 && r.interval >= SECOND
    && |h| > 0
    && (forall v :: 0 <= v < |h| ==> GoodVersion(r, h[v]))
    && (forall v :: 0 < v < |h| ==> GoodRotation(r, h, v))
  }

  /** Names of one secret and the kids of its keys correspond one to one. */
  lemma {:induction false} NamesOfKids(kids: set<string>, names: set<string>)
    requires forall kid :: kid in kids <==> KeyName(kid) in names
    requires forall name :: name in names ==> HasKeyPrefix(name)
    ensures |kids| == |names|
    decreases kids
  {
    forall name | name in names ensures KeyName(Kid(name)) == name { KeyNameOfKid(name); }
    hide HasKeyPrefix, KeyName, Kid;
    if kids == {} {
      assert names == {};
    } else {
      var kid :| kid in kids;
      assert forall k :: KeyName(k) == KeyName(kid) ==> k == kid;
      NamesOfKids(kids - {kid}, names - {KeyName(kid)});
    }
  }

  ghost predicate GoodData(length: nat, data: SecretData) {
    forall name :: name in data && HasKeyPrefix(name) ==> GoodKid(length, Kid(name))
  }

  lemma {:induction false} CountKids(length: nat, data: SecretData)
    requires GoodData(length, data)
    ensures AllWellFormed(data)
    ensures |Rotator.WellFormedNames(data)| == |SigningKeys(data).Keys|
  {
    forall name | name in data && HasKeyPrefix(name) ensures WellFormedKey(name) {
      GoodKidParses(length, Kid(name));
    }
    hide ParseInt, GoodKid;
    SigningKeysMembers(data);
    NamesOfKids(SigningKeys(data).Keys, Rotator.WellFormedNames(data));
  }

  lemma {:induction false} KidStamp(length: nat, name: string)
    requires HasKeyPrefix(name) && GoodKid(length, Kid(name))
    ensures WellFormedKey(name) && Rotator.Stamp(name) == Value(Kid(name))
  {
    GoodKidParses(length, Kid(name));
  }

  /** A rotation of the secret is a rotation of the keys the signers will see. */
  lemma {:induction false} RotationOfKeys(length: nat, before: SecretData, numberOfKeys: int, now: int, key: SigningKey, after: SecretData)
    requires GoodData(length, before) && GoodKid(length, PrintInt(now)) && IsInt64(now)
    requires Rotator.Rotated(before, numberOfKeys, now, key, after)
    ensures GoodData(length, after)
    ensures KeysRotated(numberOfKeys, SigningKeys(before), PrintInt(now), SigningKeys(after))
  {
    hide ParseInt, GoodKid, PrintInt, HasKeyPrefix, KeyName, Kid, Value, AllDigits, ParseKeyTimestamp, OldestGone,
         Rotator.OldestGone, Rotator.WellFormedNames, SigningKeys;
    var newKid := PrintInt(now);
    assert BuildKeyName(now) == KeyName(newKid);
    assert GoodData(length, after);
    CountKids(length, before);
    CountKids(length, after);
    RotationOldestGone(length, before, newKid, key, after);
    RotationKeepsKeys(before, newKid, key, after);
  }

  lemma {:induction false} RotationKeepsKeys(before: SecretData, newKid: string, key: SigningKey, after: SecretData)
    requires KeyName(newKid) !in before
    requires forall name :: name in after ==> name in before[KeyName(newKid) := key] && after[name] == before[KeyName(newKid) := key][name]
    ensures var B, A := SigningKeys(before), SigningKeys(after);
            newKid !in B && A.Keys <= B.Keys + {newKid} && forall kid :: kid in A && kid in B ==> A[kid] == B[kid]
  {
    hide HasKeyPrefix, KeyName, Kid;
    SigningKeysMembers(before);
    SigningKeysMembers(after);
    assert forall kid :: KeyName(kid) == KeyName(newKid) ==> kid == Kid(KeyName(kid)) == newKid;
  }

  lemma {:induction false} RotationOldestGone(length: nat, before: SecretData, newKid: string, key: SigningKey, after: SecretData)
    requires GoodData(length, before) && GoodKid(length, newKid) && GoodData(length, after)
    requires Rotator.OldestGone(before[KeyName(newKid) := key], after)
    ensures OldestGone(SigningKeys(before), newKid, SigningKeys(after))
  {
    hide ParseInt, GoodKid, HasKeyPrefix, KeyName, Kid, Value, AllDigits, ParseKeyTimestamp, Rotator.OldestGone;
    SigningKeysMembers(before);
    SigningKeysMembers(after);
    var B, A := SigningKeys(before), SigningKeys(after);
    forall gone, kept | (gone in B || gone == newKid) && gone !in A && kept in A && AllDigits(gone) && AllDigits(kept)
      ensures Value(gone) <= Value(kept)
    {
      KidStamp(length, KeyName(gone));
      KidStamp(length, KeyName(kept));
      StampsOrdered(before[KeyName(newKid) := key], after, KeyName(gone), KeyName(kept));
    }
  }

  lemma {:induction false} StampsOrdered(added: SecretData, after: SecretData, gone: string, kept: string)
    requires Rotator.OldestGone(added, after)
    requires gone in added && gone !in after && kept in after && WellFormedKey(gone) && WellFormedKey(kept)
    ensures Rotator.Stamp(gone) <= Rotator.Stamp(kept)
  {
  }

  lemma {:induction false} TimesGrow(r: Rules, h: seq<Version>, u: nat, w: nat)
    requires History(r, h) && u <= w < |h|
    ensures h[u].time <= h[w].time
    ensures u >= 1 ==> h[w].time - h[u].time >= (w - u) * r.interval
    decreases w
  {
    hide GoodVersion, KeysRotated, GoodKid;
    if u < w {
      TimesGrow(r, h, u, w - 1);
      assert GoodRotation(r, h, w);
      assert (w - u) * r.interval == (w - 1 - u) * r.interval + r.interval;
    }
  }

  /** No kid in a version was made after it. */
  lemma {:induction false} StampBound(r: Rules, h: seq<Version>, u: nat, w: nat, kid: string)
    requires History(r, h) && u <= w < |h| && kid in h[u].keys
    ensures GoodKid(r.kidLength, kid) && Value(kid) <= Seconds(h[w].time)
  {
    hide GoodKid;
    TimesGrow(r, h, u, w);
    assert GoodVersion(r, h[u]);
  }

  /** The key a rotation adds is strictly newer than every other key of that version. */
  lemma {:induction false} FreshIsNewest(r: Rules, h: seq<Version>, w: nat, kid: string)
    requires History(r, h) && 0 < w < |h| && kid in h[w].keys && kid != FreshKid(h[w])
    ensures kid in h[w - 1].keys && Value(kid) < Value(FreshKid(h[w]))
  {
    hide OldestGone, FreshKid;
    assert GoodRotation(r, h, w);
    StampBound(r, h, w - 1, w, kid);
    EqualLengthOrder(kid, FreshKid(h[w]));
  }

  /** If a version still has an older key, it still has every newer key that was there before. */
  lemma {:induction false} NewerKeysStay(r: Rules, h: seq<Version>, u: nat, w: nat, older: string, newer: string)
    requires History(r, h) && u <= w < |h|
    requires newer in h[u].keys && older in h[w].keys && AllDigits(older) && AllDigits(newer)
    requires Value(older) < Value(newer)
    ensures newer in h[w].keys
    decreases w
  {
    hide FreshKid, Value, AllDigits;
    if u < w {
      assert GoodRotation(r, h, w);
      StampBound(r, h, u, w, newer);
      if older == FreshKid(h[w]) {
        assert false;
      }
      NewerKeysStay(r, h, u, w - 1, older, newer);
    }
  }

  /** Every key of a version was already in an earlier one, or was added by a rotation in between. */
  lemma {:induction false} OldOrAdded(r: Rules, h: seq<Version>, u: nat, w: nat, kid: string)
    requires History(r, h) && u <= w < |h| && kid in h[w].keys
    ensures kid in h[u].keys || exists j :: u < j <= w && kid == FreshKid(h[j])
    decreases w
  {
    hide FreshKid, OldestGone, GoodVersion, GoodKid;
    if u < w && kid != FreshKid(h[w]) {
      assert GoodRotation(r, h, w);
      OldOrAdded(r, h, u, w - 1, kid);
    }
  }

  lemma {:induction false} CountAdded(h: seq<Version>, u: nat, w: nat, kids: set<string>)
    requires u <= w < |h|
    requires forall kid :: kid in kids ==> exists j :: u < j <= w && kid == FreshKid(h[j])
    ensures |kids| <= w - u
    decreases w
  {
    hide FreshKid;
    if u == w {
      assert kids == {};
    } else {
      var last := FreshKid(h[w]);
      CountAdded(h, u, w - 1, kids - {last});
      assert kids <= (kids - {last}) + {last};
    }
  }

  ghost predicate Newest(keys: KeyMap, kid: string) {
    kid in keys && AllDigits(kid) && forall k :: k in keys && AllDigits(k) && k != kid ==> Value(k) < Value(kid)
  }

  /** The newest key of a version survives the next `numberOfKeys - 1` rotations. */
  lemma {:induction false} NewestSurvives(r: Rules, h: seq<Version>, b: nat, w: nat, kid: string)
    requires History(r, h) && b <= w < |h| && w < b + r.numberOfKeys
    requires Newest(h[b].keys, kid)
    ensures kid in h[w].keys
    decreases w
  {
    hide FreshKid, Value;
    if b < w {
      NewestSurvives(r, h, b, w - 1, kid);
      assert GoodRotation(r, h, w);
      if kid !in h[w].keys {
        PrunedCount(r, h, w, kid);
        forall k | k in h[w].keys ensures exists j :: b < j <= w && k == FreshKid(h[j]) {
          PrunedIsOlder(r, h, w, kid, k);
          OldOrAdded(r, h, b, w, k);
        }
        CountAdded(h, b, w, h[w].keys.Keys);
        assert false;
      }
    }
  }

  lemma {:induction false} PrunedCount(r: Rules, h: seq<Version>, w: nat, kid: string)
    requires History(r, h) && 0 < w < |h| && kid in h[w - 1].keys && kid !in h[w].keys
    ensures |h[w].keys.Keys| == r.numberOfKeys
  {
    hide FreshKid, GoodVersion, OldestGone, GoodKid;
    assert GoodRotation(r, h, w);
    var all := h[w - 1].keys.Keys + {FreshKid(h[w])};
    assert h[w].keys.Keys <= all - {kid};
    SubsetSize(h[w].keys.Keys, all - {kid});
  }

  lemma {:induction false} SubsetSize<T>(a: set<T>, b: set<T>)
    requires a <= b
    ensures |a| <= |b|
    decreases a
  {
    if a != {} {
      var x :| x in a;
      SubsetSize(a - {x}, b - {x});
    }
  }

  lemma {:induction false} PrunedIsOlder(r: Rules, h: seq<Version>, w: nat, kid: string, kept: string)
    requires History(r, h) && 0 < w < |h| && kid in h[w - 1].keys && kid !in h[w].keys && kept in h[w].keys
    ensures AllDigits(kid) && AllDigits(kept) && Value(kid) < Value(kept)
  {
    hide FreshKid, Value, AllDigits;
    assert GoodRotation(r, h, w) && GoodVersion(r, h[w - 1]) && GoodVersion(r, h[w]);
    EqualLengthOrder(kid, kept);
  }

  /** The key a rotation adds has a kid that no earlier version ever had. */
  lemma {:induction false} FreshIsNew(r: Rules, h: seq<Version>, u: nat, w: nat, kid: string)
    requires History(r, h) && u < w < |h| && kid in h[u].keys
    ensures kid != FreshKid(h[w])
  {
    hide FreshKid, Value, AllDigits, OldestGone;
    assert GoodRotation(r, h, w);
    if u < w - 1 {
      StampBound(r, h, u, w - 1, kid);
    }
  }

  /** A kid names one key for good: it is never reused for another. */
  lemma {:induction false} KidNamesOneKey(r: Rules, h: seq<Version>, u: nat, w: nat, kid: string)
    requires History(r, h) && u <= w < |h| && kid in h[u].keys && kid in h[w].keys
    ensures h[u].keys[kid] == h[w].keys[kid]
    decreases w
  {
    hide FreshKid, Value, AllDigits, OldestGone;
    if u < w {
      assert GoodRotation(r, h, w);
      FreshIsNew(r, h, u, w, kid);
      KidNamesOneKey(r, h, u, w - 1, kid);
    }
  }
}
