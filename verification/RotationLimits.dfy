/** The condition of RotationProtocol is exact: with fewer keys, or slower watches, some run turns an
    unexpired token away. The run is built step by step for arbitrary parameters. */
module RotationLimits {
  import opened Text
  import opened Keys
  import Rotator
  import opened Signer
  import opened KeyHistory
  import opened RotationProtocol

  // ---------------------------------------------------------------- existence of single steps

  lemma {:induction false} ReachInit(p: Params, s: System)
    requires Init(p, s)
    ensures Reachable(p, s)
  {
    hide Init;
    assert Run(p, [s], []);
  }

  lemma {:induction false} ReachNext(p: Params, s: System, e: Event, s': System)
    requires Reachable(p, s) && Next(p, s, e, s')
    ensures Reachable(p, s')
  {
    hide Init, Next;
    var states: seq<System>, events: seq<Event> :| Run(p, states, events) && states[|events|] == s;
    assert Run(p, states + [s'], events + [e]);
  }

  lemma {:induction false} LatestExists(kids: set<string>) returns (latest: string)
    ensures IsLatest(kids, latest)
    decreases kids
  {
    hide ParseInt;
    if kids == {} {
      latest := "";
    } else {
      var kid :| kid in kids;
      latest := LatestExists(kids - {kid});
      if ParseInt(kid).Some? && ParseInt(kid).value > 0 && (latest == "" || ParseInt(latest).value < ParseInt(kid).value) {
        latest := kid;
      }
    }
  }

  lemma {:induction false} ParseExists(p: Params, written: seq<Written>, v: nat) returns (r: ParseResult)
    requires WrittenOk(p, written) && v < |written|
    ensures IsParseOf(Some(written[v].data), r)
    ensures r.Parsed? && r.keys == Versions(written)[v].keys && r.latestKid in r.keys
  {
    hide GoodData, SigningKeys, IsLatest, AllWellFormed, GoodRotation;
    var keys := SigningKeys(written[v].data);
    var latest := LatestExists(keys.Keys);
    r := Parsed(keys, latest);
    CountKids(p.rules.kidLength, written[v].data);
    assert GoodVersion(p.rules, Versions(written)[v]);
    WrittenParses(p, written, v, r);
  }

  lemma {:induction false} OldestExists(names: set<string>) returns (oldest: string)
    requires names != {} && forall name :: name in names ==> WellFormedKey(name)
    ensures oldest in names && forall name :: name in names ==> Rotator.Stamp(oldest) <= Rotator.Stamp(name)
    decreases names
  {
    hide WellFormedKey, Rotator.Stamp;
    oldest :| oldest in names;
    if names != {oldest} {
      var other := OldestExists(names - {oldest});
      if Rotator.Stamp(other) < Rotator.Stamp(oldest) {
        oldest := other;
      }
    }
  }

  /** Deleting the oldest key until at most `n` are left. */
  lemma {:induction false} PruneExists(added: SecretData, data: SecretData, n: nat) returns (after: SecretData)
    requires data.Keys <= added.Keys && (forall name :: name in data ==> data[name] == added[name])
    requires forall name :: name in added && name !in data ==> WellFormedKey(name)
    requires Rotator.OldestGone(added, data)
    ensures after.Keys <= added.Keys && (forall name :: name in after ==> after[name] == added[name])
    ensures forall name :: name in added && name !in after ==> WellFormedKey(name)
    ensures Rotator.OldestGone(added, after)
    ensures |Rotator.WellFormedNames(after)| == Rotator.Min(|Rotator.WellFormedNames(data)|, n)
    decreases |Rotator.WellFormedNames(data)|
  {
    hide WellFormedKey, Rotator.Stamp;
    var names := Rotator.WellFormedNames(data);
    if |names| <= n {
      after := data;
    } else {
      var oldest := OldestExists(names);
      var data' := data - {oldest};
      assert Rotator.WellFormedNames(data') == names - {oldest};
      after := PruneExists(added, data', n);
    }
  }

  lemma {:induction false} RotationExists(before: SecretData, n: nat, now: int, key: SigningKey) returns (after: SecretData)
    requires IsInt64(now) && BuildKeyName(now) !in before
    ensures Rotator.Rotated(before, n, now, key, after)
  {
    hide ParseKeyTimestamp, BuildKeyName, Rotator.Stamp;
    var added := before[BuildKeyName(now) := key];
    BuildParseRoundTrip(now);
    assert Rotator.WellFormedNames(added) == Rotator.WellFormedNames(before) + {BuildKeyName(now)};
    after := PruneExists(added, added, n);
  }

  // ---------------------------------------------------------------- a schedule of rotations

  /** The secret starts with the single key `kid` at `start`; rotations follow at `first` and then as
      fast as they are allowed. */
  datatype Plan = Plan(p: Params, start: int, first: int, kid: string)

  function At(plan: Plan, i: nat): int {
    if i == 0 then plan.start else plan.first + (i - 1) * plan.p.rules.interval
  }

  ghost predicate PlanOk(plan: Plan) {
    var p := plan.p;
    && p.rules.numberOfKeys >= 1 && p.rules.interval >= SECOND && p.config.newKeyUseDelay >= 0
    && plan.first >= plan.start + SECOND && plan.first >= plan.start + p.config.newKeyUseDelay
    && GoodKid(p.rules.kidLength, plan.kid) && Value(plan.kid) <= Seconds(plan.start)
    && forall i: nat :: 1 <= i <= p.rules.numberOfKeys ==>
         GoodKid(p.rules.kidLength, PrintInt(Seconds(At(plan, i)))) && IsInt64(Seconds(At(plan, i)))
  }

  /** `i` rotations have happened, on schedule. */
  ghost predicate Wrote(plan: Plan, s: System, i: nat) {
    && Reachable(plan.p, s) && WrittenOk(plan.p, s.written)
    && |s.written| == i + 1
    && (forall j: nat :: j <= i ==> s.written[j].time == At(plan, j))
    && Versions(s.written)[0].keys.Keys == {plan.kid}
  }

  lemma {:induction false} TickTo(plan: Plan, s: System, i: nat, now: int) returns (s': System)
    requires Wrote(plan, s, i) && s.now <= now && AllRecent(plan.p, s.written, now, s.pods)
    ensures s' == s.(now := now) && Wrote(plan, s', i)
  {
    hide Reachable, WrittenOk, AllRecent;
    s' := s.(now := now);
    assert Next(plan.p, s, DoTick, s');
    ReachNext(plan.p, s, DoTick, s');
  }

  lemma {:induction false} RotateNow(plan: Plan, s: System, i: nat) returns (s': System)
    requires PlanOk(plan) && Wrote(plan, s, i) && i < plan.p.rules.numberOfKeys && s.now == At(plan, i + 1)
    ensures Wrote(plan, s', i + 1)
    ensures s' == s.(written := s'.written) && |s'.written| == i + 2 && s'.written[..i + 1] == s.written
  {
    hide Reachable, WrittenOk, GoodKid, IsInt64, PrintInt, Seconds, Versions, Rotator.Rotated;
    var p, last := plan.p, s.written[i];
    assert last.time == At(plan, i);
    var second := Seconds(s.now);
    NameIsNew(plan, s, i);
    var after := RotationExists(last.data, p.rules.numberOfKeys, second, []);
    s' := s.(written := s.written + [Written(s.now, after)]);
    Spacing(plan, i);
    assert Rotate(p, s, s', [], after);
    RotateReaches(p, s, s', after);
    RotateHistory(p, s.written, s.now, [], after);
    assert Versions(s'.written)[0] == Versions(s.written)[0];
  }

  lemma {:induction false} RotateReaches(p: Params, s: System, s': System, after: SecretData)
    requires Reachable(p, s) && Rotate(p, s, s', [], after)
    ensures Reachable(p, s')
  {
    hide Reachable, Rotate;
    ReachNext(p, s, DoRotate([], after), s');
  }

  lemma {:induction false} Spacing(plan: Plan, i: nat)
    requires PlanOk(plan)
    ensures At(plan, i) + SECOND <= At(plan, i + 1)
    ensures i > 0 ==> At(plan, i + 1) == At(plan, i) + plan.p.rules.interval
  {
    if i > 0 {
      assert (i + 1 - 1) * plan.p.rules.interval == (i - 1) * plan.p.rules.interval + plan.p.rules.interval;
    }
  }

  lemma {:induction false} NameIsNew(plan: Plan, s: System, i: nat)
    requires PlanOk(plan) && Wrote(plan, s, i) && i < plan.p.rules.numberOfKeys && s.now == At(plan, i + 1)
    ensures BuildKeyName(Seconds(s.now)) !in s.written[i].data
  {
    hide Reachable, GoodKid, PrintInt, HasKeyPrefix, Kid, KeyName, GoodData, GoodRotation, IsInt64, SigningKeys;
    var second, h := Seconds(s.now), Versions(s.written);
    Spacing(plan, i);
    FreshValue(plan.p.rules.kidLength, second);
    SigningKeysMembers(s.written[i].data);
    assert s.written[i].time == At(plan, i);
    assert GoodVersion(plan.p.rules, h[i]);
    assert second > Seconds(h[i].time);
    assert BuildKeyName(second) == KeyName(PrintInt(second));
  }

  // ---------------------------------------------------------------- the fate of the first key

  lemma {:induction false} SizeOfVersion(r: Rules, h: seq<Version>, i: nat)
    requires History(r, h) && i < |h| && |h[0].keys.Keys| == 1
    ensures |h[i].keys.Keys| == Rotator.Min(i + 1, r.numberOfKeys)
    decreases i
  {
    hide GoodVersion, FreshKid, GoodKid, OldestGone;
    if i > 0 {
      SizeOfVersion(r, h, i - 1);
      assert GoodRotation(r, h, i);
    }
  }

  lemma {:induction false} OthersAreNewer(r: Rules, h: seq<Version>, i: nat, kid: string, other: string)
    requires History(r, h) && i < |h| && h[0].keys.Keys == {kid} && other in h[i].keys && other != kid
    ensures i > 0 && AllDigits(kid) && AllDigits(other) && Value(kid) < Value(other)
  {
    hide FreshKid, GoodVersion, GoodRotation, Value, AllDigits;
    OldOrAdded(r, h, 0, i, other);
    var j :| 0 < j <= i && other == FreshKid(h[j]);
    FreshBeatsFirst(r, h, j, kid);
  }

  lemma {:induction false} FreshBeatsFirst(r: Rules, h: seq<Version>, j: nat, kid: string)
    requires History(r, h) && 0 < j < |h| && kid in h[0].keys
    ensures AllDigits(kid) && AllDigits(FreshKid(h[j])) && Value(kid) < Value(FreshKid(h[j]))
  {
    hide FreshKid;
    StampBound(r, h, 0, j, kid);
    assert GoodRotation(r, h, j);
    FreshIsNew(r, h, 0, j, kid);
    EqualLengthOrder(kid, FreshKid(h[j]));
  }

  /** The first key is there for `numberOfKeys - 1` rotations and goes with the next one. */
  lemma {:induction false} FirstKeyGoes(r: Rules, h: seq<Version>, i: nat, kid: string)
    requires History(r, h) && i < |h| && h[0].keys.Keys == {kid}
    ensures i < r.numberOfKeys ==> kid in h[i].keys
    ensures i == r.numberOfKeys ==> kid !in h[i].keys
  {
    hide Value, AllDigits, History;
    if i < r.numberOfKeys {
      KidIsDigits(r, h, kid);
      NewestSurvives(r, h, 0, i, kid);
    } else if i == r.numberOfKeys && kid in h[i].keys {
      FirstKeyPruned(r, h, i, kid);
    }
  }

  lemma {:induction false} FirstKeyPruned(r: Rules, h: seq<Version>, i: nat, kid: string)
    requires History(r, h) && i < |h| && h[0].keys.Keys == {kid} && i == r.numberOfKeys
    ensures kid !in h[i].keys
  {
    hide FreshKid, Value, AllDigits, History;
    var gone := PrunedExists(r, h, i);
    if gone != kid {
      assert AllDigits(kid) && AllDigits(gone) && Value(kid) < Value(gone) by {
        if gone == FreshKid(h[i]) { FreshBeatsFirst(r, h, i, kid); } else { OthersAreNewer(r, h, i - 1, kid, gone); }
      }
      if kid in h[i].keys {
        GoneIsOldest(r, h, i, gone, kid);
      }
    }
  }

  lemma {:induction false} PrunedExists(r: Rules, h: seq<Version>, i: nat) returns (gone: string)
    requires History(r, h) && i < |h| && |h[0].keys.Keys| == 1 && i == r.numberOfKeys
    ensures i > 0 && (gone in h[i - 1].keys || gone == FreshKid(h[i])) && gone !in h[i].keys
  {
    hide FreshKid, GoodKid, GoodVersion, OldestGone;
    assert GoodRotation(r, h, i);
    SizeOfVersion(r, h, i - 1);
    SizeOfVersion(r, h, i);
    gone := SomeGone(h[i - 1].keys.Keys, FreshKid(h[i]), h[i].keys.Keys);
  }

  lemma {:induction false} GoneIsOldest(r: Rules, h: seq<Version>, i: nat, gone: string, kept: string)
    requires History(r, h) && 0 < i < |h| && (gone in h[i - 1].keys || gone == FreshKid(h[i])) && gone !in h[i].keys
    requires kept in h[i].keys && AllDigits(gone) && AllDigits(kept)
    ensures Value(gone) <= Value(kept)
  {
    hide FreshKid, Value, AllDigits, GoodVersion, GoodKid;
    assert GoodRotation(r, h, i);
  }

  lemma {:induction false} KidIsDigits(r: Rules, h: seq<Version>, kid: string)
    requires History(r, h) && kid in h[0].keys
    ensures AllDigits(kid)
  {
    StampBound(r, h, 0, 0, kid);
  }

  lemma {:induction false} SomeGone(before: set<string>, added: string, after: set<string>) returns (gone: string)
    requires added !in before && after <= before + {added} && |after| <= |before|
    ensures gone in before || gone == added
    ensures gone !in after
  {
    var all := before + {added};
    assert all == after + (all - after);
    assert |all - after| > 0;
    gone :| gone in all - after;
  }

  // ---------------------------------------------------------------- the signing pod

  const SIGNER := "signer"
  const OTHER := "other"

  /** The signing pod is up to date; it has held the first key since the start, and no other key since
      before `first + lag`. */
  ghost predicate SignerAt(plan: Plan, s: System, i: nat) {
    && Wrote(plan, s, i)
    && s.pods.Keys == {SIGNER}
    && HoldsFirst(plan, Versions(s.written)[i].keys, s.pods[SIGNER], i)
  }

  ghost predicate HoldsFirst(plan: Plan, keys: KeyMap, pod: Pod, i: nat) {
    && pod.view == i && pod.signer.keys == keys && pod.signer.added.Keys == keys.Keys
    && forall kid :: kid in pod.signer.added ==>
         if kid == plan.kid then pod.signer.added[kid] == plan.start
         else pod.signer.added[kid] >= plan.first + plan.p.lag
  }

  lemma {:induction false} Begin(plan: Plan) returns (s: System)
    requires PlanOk(plan)
    ensures Wrote(plan, s, 0) && s == System(plan.start, s.written, map[], {})
  {
    hide Reachable, GoodKid, PrintInt, IsInt64, KeyName, Kid, HasKeyPrefix, SigningKeys;
    var data: SecretData := map[KeyName(plan.kid) := []];
    s := System(plan.start, [Written(plan.start, data)], map[], {});
    OnlyKey(plan.kid, data);
    assert GoodData(plan.p.rules.kidLength, data);
    assert Versions(s.written)[0].keys.Keys == {plan.kid};
    assert GoodVersion(plan.p.rules, Versions(s.written)[0]);
    assert Init(plan.p, s);
    ReachInit(plan.p, s);
  }

  lemma {:induction false} OnlyKey(kid: string, data: SecretData)
    requires data == map[KeyName(kid) := []]
    ensures SigningKeys(data).Keys == {kid}
    ensures forall name :: name in data ==> HasKeyPrefix(name) && Kid(name) == kid
  {
    hide HasKeyPrefix, Kid, KeyName;
    SigningKeysMembers(data);
    assert forall k :: KeyName(k) == KeyName(kid) ==> k == Kid(KeyName(k)) == kid;
  }

  lemma {:induction false} StartNow(plan: Plan, s: System, i: nat, name: string) returns (s': System)
    requires Wrote(plan, s, i) && name !in s.pods
    ensures Wrote(plan, s', i) && name in s'.pods && s' == s.(pods := s.pods[name := s'.pods[name]])
    ensures var keys := Versions(s.written)[i].keys;
            exists latest :: s'.pods[name] == Pod(i, Updated(NO_KEYS, keys, latest, s.now))
  {
    hide Reachable, WrittenOk, IsParseOf, Versions;
    var r := ParseExists(plan.p, s.written, i);
    s' := s.(pods := s.pods[name := Pod(i, AfterParse(NO_KEYS, r, s.now))]);
    assert Start(plan.p, s, s', name, r);
    ReachNext(plan.p, s, DoStart(name, r), s');
    assert s'.pods[name] == Pod(i, Updated(NO_KEYS, Versions(s.written)[i].keys, r.latestKid, s.now));
  }

  lemma {:induction false} DeliverNow(plan: Plan, s: System, i: nat, name: string) returns (s': System)
    requires Wrote(plan, s, i) && name in s.pods
    ensures Wrote(plan, s', i) && name in s'.pods && s' == s.(pods := s.pods[name := s'.pods[name]])
    ensures var keys := Versions(s.written)[i].keys;
            exists latest :: s'.pods[name] == Pod(i, Updated(s.pods[name].signer, keys, latest, s.now))
  {
    hide Reachable, WrittenOk, IsParseOf, Versions;
    var r := ParseExists(plan.p, s.written, i);
    s' := s.(pods := s.pods[name := Pod(i, AfterParse(s.pods[name].signer, r, s.now))]);
    assert Deliver(plan.p, s, s', name, i, r);
    ReachNext(plan.p, s, DoDeliver(name, i, r), s');
    assert s'.pods[name] == Pod(i, Updated(s.pods[name].signer, Versions(s.written)[i].keys, r.latestKid, s.now));
  }

  lemma {:induction false} DeliverSigner(plan: Plan, s: System, i: nat, keys: KeyMap, v: nat) returns (s': System)
    requires Wrote(plan, s, i) && s.pods.Keys == {SIGNER} && HoldsFirst(plan, keys, s.pods[SIGNER], v)
    requires plan.kid in keys && s.now >= plan.first + plan.p.lag
    ensures SignerAt(plan, s', i) && s'.now == s.now
  {
    hide Wrote, Versions;
    s' := DeliverNow(plan, s, i, SIGNER);
    assert Versions(s'.written) == Versions(s.written);
  }

  lemma {:induction false} FirstHeld(plan: Plan, s: System, i: nat)
    requires Wrote(plan, s, i)
    ensures i < plan.p.rules.numberOfKeys ==> plan.kid in Versions(s.written)[i].keys
    ensures i == plan.p.rules.numberOfKeys ==> plan.kid !in Versions(s.written)[i].keys
  {
    hide Reachable, History, Versions, GoodData;
    FirstKeyGoes(plan.p.rules, Versions(s.written), i, plan.kid);
  }

  /** Late enough, one more rotation is learnt by the signing pod at once. */
  lemma {:induction false} NextRotation(plan: Plan, s: System, i: nat) returns (s': System)
    requires PlanOk(plan) && SignerAt(plan, s, i) && i + 1 < plan.p.rules.numberOfKeys
    requires plan.first + plan.p.lag <= s.now <= At(plan, i + 1)
    ensures SignerAt(plan, s', i + 1) && s'.now == At(plan, i + 1)
  {
    hide Reachable, WrittenOk, Versions, PlanOk;
    var keys := Versions(s.written)[i].keys;
    FirstHeld(plan, s, i);
    SignerRecent(plan, s, i, At(plan, i + 1));
    var s1 := TickTo(plan, s, i, At(plan, i + 1));
    var s2 := RotateNow(plan, s1, i);
    s' := DeliverSigner(plan, s2, i + 1, keys, i);
  }

  /** The signing pod has not heard of any rotation yet. */
  ghost predicate Waiting(plan: Plan, s: System, i: nat) {
    && Wrote(plan, s, i)
    && s.pods.Keys == {SIGNER}
    && HoldsFirst(plan, Versions(s.written)[0].keys, s.pods[SIGNER], 0)
  }

  lemma {:induction false} WaitingRecent(plan: Plan, s: System, i: nat, now: int)
    requires Waiting(plan, s, i) && now <= plan.first + plan.p.lag
    ensures AllRecent(plan.p, s.written, now, s.pods)
  {
    hide WrittenOk, Reachable, Versions;
    assert i > 0 ==> s.written[1].time == At(plan, 1);
  }

  lemma {:induction false} WaitOne(plan: Plan, s: System, i: nat) returns (s': System)
    requires PlanOk(plan) && Waiting(plan, s, i) && i < plan.p.rules.numberOfKeys
    requires s.now <= At(plan, i + 1) <= plan.first + plan.p.lag
    ensures Waiting(plan, s', i + 1) && s'.now == At(plan, i + 1)
  {
    hide PlanOk, Versions, Reachable, WrittenOk;
    WaitingRecent(plan, s, i, At(plan, i + 1));
    var s1 := TickTo(plan, s, i, At(plan, i + 1));
    s' := RotateNow(plan, s1, i);
    assert s'.written[0] == s'.written[..i + 1][0] == s.written[0];
    SameStart(s.written, s'.written);
  }

  /** Rotations go on, unheard of, for as long as the watch may lag. */
  lemma {:induction false} WaitUntil(plan: Plan, s: System, i: nat, until: int) returns (s': System, j: nat)
    requires PlanOk(plan) && Waiting(plan, s, i) && i < plan.p.rules.numberOfKeys
    requires s.now <= until && s.now <= At(plan, i + 1)
    requires until <= plan.first + plan.p.lag && until <= At(plan, plan.p.rules.numberOfKeys)
    ensures j < plan.p.rules.numberOfKeys && Waiting(plan, s', j) && s'.now <= until <= At(plan, j + 1)
    decreases plan.p.rules.numberOfKeys - i
  {
    hide PlanOk, Waiting;
    if until <= At(plan, i + 1) {
      s', j := s, i;
    } else {
      var s1 := WaitOne(plan, s, i);
      Spacing(plan, i + 1);
      s', j := WaitUntil(plan, s1, i + 1, until);
    }
  }

  lemma {:induction false} SignerRecent(plan: Plan, s: System, i: nat, now: int)
    requires SignerAt(plan, s, i)
    ensures AllRecent(plan.p, s.written, now, s.pods)
  {
    hide WrittenOk, Reachable, Versions;
  }

  /** The signing pod, on version `v`, uses the first key at `now` and goes away. */
  lemma {:induction false} SignThenStop(plan: Plan, s: System, i: nat, v: nat, now: int) returns (s': System, t: Issued)
    requires PlanOk(plan) && Wrote(plan, s, i) && s.pods.Keys == {SIGNER} && v <= i
    requires HoldsFirst(plan, Versions(s.written)[v].keys, s.pods[SIGNER], v) && plan.kid in Versions(s.written)[v].keys
    requires s.now <= now && AllRecent(plan.p, s.written, now, s.pods)
    requires plan.first <= now <= plan.first + plan.p.lag + plan.p.config.newKeyUseDelay - 1
    ensures Wrote(plan, s', i) && s'.now == now && s'.pods == map[]
    ensures t in s'.issued && t.at == now && t.token.kid == plan.kid
  {
    hide Reachable, WrittenOk, Versions, GoodKid, PrintInt, IsInt64, Less, AllRecent;
    var p := plan.p;
    var s1 := TickTo(plan, s, i, now);
    var pod := s.pods[SIGNER];
    assert IsUsable(pod.signer, p.config.newKeyUseDelay, now, plan.kid);
    var id := Identity("", [], "", map[], "", "", "");
    assert plan.kid != "" by { KidNotEmpty(plan); }
    t := Issued(Token(plan.kid, pod.signer.keys[plan.kid], Minted(p.config, id, false, now, now)), now);
    var s2 := s1.(issued := s1.issued + {t});
    ReachNext(p, s1, DoSign(SIGNER, plan.kid, id, false, now), s2);
    s' := s2.(pods := s2.pods - {SIGNER});
    ReachNext(p, s2, DoStop(SIGNER), s');
  }

  lemma {:induction false} KidNotEmpty(plan: Plan)
    requires PlanOk(plan)
    ensures plan.kid != ""
  {
    GoodKidParses(plan.p.rules.kidLength, plan.kid);
  }

  /** The remaining rotations, with no pod running. */
  lemma {:induction false} RotateOut(plan: Plan, s: System, i: nat) returns (s': System)
    requires PlanOk(plan) && Wrote(plan, s, i) && s.pods == map[] && i < plan.p.rules.numberOfKeys && s.now <= At(plan, i + 1)
    ensures Wrote(plan, s', plan.p.rules.numberOfKeys) && s'.pods == map[] && s'.issued == s.issued
    ensures s'.now == At(plan, plan.p.rules.numberOfKeys)
    decreases plan.p.rules.numberOfKeys - i
  {
    hide Wrote, PlanOk, Versions;
    var s1 := TickTo(plan, s, i, At(plan, i + 1));
    s' := RotateNow(plan, s1, i);
    if i + 1 < plan.p.rules.numberOfKeys {
      Spacing(plan, i + 1);
      s' := RotateOut(plan, s', i + 1);
    }
  }

  /** From the signature on: rotate the first key out and ask a freshly started pod. */
  lemma {:induction false} TurnedAway(plan: Plan, s: System, i: nat, t: Issued)
    requires PlanOk(plan) && Wrote(plan, s, i) && s.pods == map[] && i < plan.p.rules.numberOfKeys && s.now <= At(plan, i + 1)
    requires t in s.issued && t.token.kid == plan.kid
    requires At(plan, plan.p.rules.numberOfKeys) < t.at + plan.p.config.expiration
    ensures !NeverRejected(plan.p)
  {
    hide Wrote, PlanOk, Versions, Reachable;
    var n := plan.p.rules.numberOfKeys;
    var s1 := RotateOut(plan, s, i);
    var s2 := StartNow(plan, s1, n, OTHER);
    FirstHeld(plan, s1, n);
    assert Unexpired(plan.p, t, s2.now);
    assert !NoneRejected(plan.p, s2);
    assert Reachable(plan.p, s2) by { WroteReachable(plan, s2, n); }
  }

  lemma {:induction false} WroteReachable(plan: Plan, s: System, i: nat)
    requires Wrote(plan, s, i)
    ensures Reachable(plan.p, s)
  {
    hide Reachable, WrittenOk, Versions;
  }

  /** Rotations learnt by the signing pod go on until the time comes to sign. */
  lemma {:induction false} SignAt(plan: Plan, s: System, i: nat, now: int) returns (s': System, j: nat, t: Issued)
    requires PlanOk(plan) && SignerAt(plan, s, i) && i < plan.p.rules.numberOfKeys
    requires plan.first + plan.p.lag <= s.now <= now <= At(plan, plan.p.rules.numberOfKeys) && s.now <= At(plan, i + 1)
    requires now <= plan.first + plan.p.lag + plan.p.config.newKeyUseDelay - 1
    ensures j < plan.p.rules.numberOfKeys && Wrote(plan, s', j) && s'.now == now <= At(plan, j + 1) && s'.pods == map[]
    ensures t in s'.issued && t.at == now && t.token.kid == plan.kid
    decreases plan.p.rules.numberOfKeys - i
  {
    hide Wrote, PlanOk, Versions, HoldsFirst;
    if now <= At(plan, i + 1) {
      j := i;
      FirstHeld(plan, s, i);
      SignerRecent(plan, s, i, now);
      s', t := SignThenStop(plan, s, i, i, now);
    } else {
      var s1 := NextRotation(plan, s, i);
      Spacing(plan, i + 1);
      s', j, t := SignAt(plan, s1, i + 1, now);
    }
  }

  /** The signing pod waits as long as its watch may lag, then learns of every rotation at once, and
      signs with the first key at `now`. */
  lemma {:induction false} SignLate(plan: Plan, s: System, now: int) returns (s': System, j: nat, t: Issued)
    requires PlanOk(plan) && SignerAt(plan, s, 0) && s.now <= plan.first <= now <= At(plan, plan.p.rules.numberOfKeys)
    requires now <= plan.first + plan.p.lag + plan.p.config.newKeyUseDelay - 1
    ensures j < plan.p.rules.numberOfKeys && Wrote(plan, s', j) && s'.now == now <= At(plan, j + 1) && s'.pods == map[]
    ensures t in s'.issued && t.at == now && t.token.kid == plan.kid
  {
    hide Wrote, PlanOk, Versions, HoldsFirst;
    PlanStart(plan);
    FirstHeld(plan, s, 0);
    var s1, i := WaitUntil(plan, s, 0, Rotator.Min(now, plan.first + plan.p.lag));
    FirstAlways(plan, s1, i);
    if now <= plan.first + plan.p.lag {
      j := i;
      WaitingRecent(plan, s1, i, now);
      s', t := SignThenStop(plan, s1, i, 0, now);
    } else {
      WaitingRecent(plan, s1, i, plan.first + plan.p.lag);
      var s2 := TickTo(plan, s1, i, plan.first + plan.p.lag);
      var s3 := DeliverSigner(plan, s2, i, Versions(s2.written)[0].keys, 0);
      s', j, t := SignAt(plan, s3, i, now);
    }
  }

  lemma {:induction false} FirstAlways(plan: Plan, s: System, i: nat)
    requires Wrote(plan, s, i)
    ensures |s.written| == i + 1 && plan.kid in Versions(s.written)[0].keys
  {
    hide Reachable, WrittenOk, Versions;
  }

  /** With too few keys a token outlives its key. */
  lemma {:induction false} TooFewKeys(plan: Plan)
    requires PlanOk(plan) && plan.p.lag < plan.p.config.newKeyUseDelay
    requires plan.p.config.expiration > 0 && !Sufficient(plan.p)
    ensures !NeverRejected(plan.p)
  {
    hide Wrote, PlanOk, Versions, NeverRejected, SignerAt;
    var p, n := plan.p, plan.p.rules.numberOfKeys;
    var s0 := Begin(plan);
    var s1 := StartSigner(plan, s0);
    PlanStart(plan);
    FirstBefore(plan, n);
    var latest := plan.first + p.lag + p.config.newKeyUseDelay - 1;
    var when := Rotator.Min(latest, At(plan, n));
    var s2, j, t := SignLate(plan, s1, when);
    TurnedAway(plan, s2, j, t);
  }

  lemma {:induction false} FirstBefore(plan: Plan, i: nat)
    requires PlanOk(plan) && i >= 1
    ensures plan.first <= At(plan, i)
  {
    assert (i - 1) * plan.p.rules.interval >= 0;
  }

  lemma {:induction false} PlanStart(plan: Plan)
    requires PlanOk(plan)
    ensures plan.start <= plan.first == At(plan, 1) && plan.p.rules.numberOfKeys >= 1
  {
  }

  lemma {:induction false} StartSigner(plan: Plan, s: System) returns (s': System)
    requires Wrote(plan, s, 0) && s == System(plan.start, s.written, map[], {})
    ensures SignerAt(plan, s', 0) && s'.now == plan.start
  {
    hide Reachable, WrittenOk, Versions;
    s' := StartNow(plan, s, 0, SIGNER);
    assert Versions(s'.written) == Versions(s.written);
  }

  /** Pods that still work on the first version. */
  ghost predicate HoldStart(plan: Plan, s: System) {
    |s.written| > 0 && forall name :: name in s.pods ==> HoldsStart(plan, Versions(s.written)[0].keys, s.pods[name])
  }

  predicate HoldsStart(plan: Plan, keys: KeyMap, pod: Pod) {
    pod.view == 0 && pod.signer.keys == keys && pod.signer.added.Keys == {plan.kid}
  }

  lemma {:induction false} StartOne(plan: Plan, s: System, name: string) returns (s': System)
    requires Wrote(plan, s, 0) && name !in s.pods && HoldStart(plan, s)
    ensures Wrote(plan, s', 0) && s'.pods.Keys == s.pods.Keys + {name} && HoldStart(plan, s')
    ensures s'.written == s.written && s'.now == s.now
  {
    hide Reachable, WrittenOk, Versions;
    s' := StartNow(plan, s, 0, name);
    assert Versions(s'.written) == Versions(s.written);
  }

  /** Both pods hold the first key when the secret is rotated. */
  lemma {:induction false} TwoPods(plan: Plan) returns (s: System)
    requires PlanOk(plan)
    ensures Wrote(plan, s, 1) && s.now == plan.first && s.pods.Keys == {SIGNER, OTHER} && HoldStart(plan, s)
  {
    hide Wrote, Versions, PlanOk, HoldsStart;
    PlanStart(plan);
    var s0 := Begin(plan);
    assert HoldStart(plan, s0) by { NoPods(plan, s0); }
    var s1 := StartOne(plan, s0, SIGNER);
    var s2 := StartOne(plan, s1, OTHER);
    StartIsRecent(plan, s2, plan.first);
    var s3 := TickTo(plan, s2, 0, plan.first);
    s := RotateNow(plan, s3, 0);
    assert s.written[0] == s.written[..1][0] == s3.written[0];
    SameStart(s3.written, s.written);
  }

  lemma {:induction false} NoPods(plan: Plan, s: System)
    requires Wrote(plan, s, 0) && s.pods == map[]
    ensures HoldStart(plan, s)
  {
    hide Reachable, WrittenOk, Versions;
  }

  lemma {:induction false} StartIsRecent(plan: Plan, s: System, now: int)
    requires Wrote(plan, s, 0) && HoldStart(plan, s)
    ensures AllRecent(plan.p, s.written, now, s.pods)
  {
    hide Reachable, WrittenOk, Versions;
  }

  /** With watches slower than the cool-off a pod can be shown a key it has not heard of. */
  lemma {:induction false} SlowWatch(plan: Plan)
    requires PlanOk(plan) && plan.p.lag >= plan.p.config.newKeyUseDelay && plan.p.config.expiration > 0
    ensures !NeverRejected(plan.p)
  {
    hide Reachable, WrittenOk, Versions, PlanOk, NeverRejected;
    var s := TwoPods(plan);
    PlanStart(plan);
    DelayOk(plan);
    assert s.written[1].time == At(plan, 1);
    assert HoldsStart(plan, Versions(s.written)[0].keys, s.pods[SIGNER]);
    var s' := DeliverNow(plan, s, 1, SIGNER);
    s' := TickTo(plan, s', 1, plan.first + plan.p.config.newKeyUseDelay);
    NewKeyUnknown(plan, s');
  }

  lemma {:induction false} DelayOk(plan: Plan)
    requires PlanOk(plan)
    ensures plan.p.config.newKeyUseDelay >= 0
  {
  }

  lemma {:induction false} SameStart(a: seq<Written>, b: seq<Written>)
    requires |a| > 0 && |b| > 0 && a[0] == b[0]
    ensures Versions(a)[0] == Versions(b)[0]
  {
  }

  /** The new key is usable at one pod while another still works on the first version. */
  lemma {:induction false} NewKeyUnknown(plan: Plan, s: System)
    requires Wrote(plan, s, 1) && plan.p.config.expiration > 0
    requires s.now == plan.first + plan.p.config.newKeyUseDelay
    requires SIGNER in s.pods && OTHER in s.pods
    requires var h, st := Versions(s.written), s.pods[SIGNER].signer;
             && s.pods[OTHER].signer.keys == h[0].keys
             && st.keys == h[1].keys && st.added.Keys == st.keys.Keys
             && forall kid :: kid in st.added && kid != plan.kid ==> st.added[kid] == plan.first
    ensures !NeverRejected(plan.p)
  {
    hide Reachable, History, Versions, GoodData, FreshKid, Less, Value, AllDigits;
    var p, h, st := plan.p, Versions(s.written), s.pods[SIGNER].signer;
    var newKid := FreshKid(h[1]);
    FreshIsThere(p.rules, h, 1);
    FreshIsNew(p.rules, h, 0, 1, plan.kid);
    FreshBeatsFirst(p.rules, h, 1, plan.kid);
    StampBound(p.rules, h, 0, 0, plan.kid);
    StampBound(p.rules, h, 1, 1, newKid);
    EqualLengthOrder(plan.kid, newKid);
    forall k | Cooled(st, p.config.newKeyUseDelay, s.now, k) ensures k == newKid || Less(k, newKid) {
      OldOrAdded(p.rules, h, 0, 1, k);
    }
    assert newKid != "" by { GoodKidParses(p.rules.kidLength, newKid); }
    var id := Identity("", [], "", map[], "", "", "");
    var t := Issued(Token(newKid, st.keys[newKid], Minted(p.config, id, false, s.now, s.now)), s.now);
    var s' := s.(issued := s.issued + {t});
    ReachNext(p, s, DoSign(SIGNER, newKid, id, false, s.now), s');
    assert newKid !in s'.pods[OTHER].signer.keys;
    assert Unexpired(p, t, s'.now);
    assert !NoneRejected(p, s');
  }

  /** The number of keys and the watch lag are enough exactly when `Sufficient` says so. `plan` only
      says that a run fits the clock: the kids keep their number of digits while the keys rotate out. */
  lemma {:induction false} SufficientIsExact(plan: Plan)
    requires PlanOk(plan) && plan.p.config.expiration > 0
    ensures NeverRejected(plan.p) <==> Sufficient(plan.p)
  {
    hide PlanOk, NeverRejected;
    if Sufficient(plan.p) {
      SufficientIsEnough(plan.p);
    } else if plan.p.lag < plan.p.config.newKeyUseDelay {
      TooFewKeys(plan);
    } else {
      SlowWatch(plan);
    }
  }

  // ---------------------------------------------------------------- ten-digit clocks

  lemma {:induction false} TenDigits(n: int)
    requires 1_000_000_000 <= n < 10_000_000_000
    ensures GoodKid(10, PrintInt(n)) && IsInt64(n)
  {
    assert Pow10(5) == 100_000;
    assert Pow10(9) == 1_000_000_000 && Pow10(10) == 10_000_000_000;
    DecimalLength(n, 10);
  }

  /** A run that starts when Unix time first has ten digits. */
  function TenDigitPlan(p: Params): Plan {
    var start := 1_000_000_000 * SECOND;
    Plan(p, start, start + p.config.newKeyUseDelay + p.rules.interval, PrintInt(1_000_000_000))
  }

  /** Clocks of the years 2001 to 2286 leave room for any rotation schedule shorter than two centuries. */
  lemma {:induction false} TenDigitPlanOk(p: Params)
    requires p.rules.kidLength == 10 && p.rules.numberOfKeys >= 1 && p.rules.interval >= SECOND && p.config.newKeyUseDelay >= 0
    requires p.rules.numberOfKeys * p.rules.interval + p.config.newKeyUseDelay < 8_000_000_000 * SECOND
    ensures PlanOk(TenDigitPlan(p))
  {
    hide GoodKid, PrintInt, Value, At;
    var plan := TenDigitPlan(p);
    TenDigits(1_000_000_000);
    FreshValue(10, 1_000_000_000);
    forall i: nat | 1 <= i <= p.rules.numberOfKeys ensures GoodKid(10, PrintInt(Seconds(At(plan, i)))) && IsInt64(Seconds(At(plan, i))) {
      WithinTenDigits(p, i);
      TenDigits(Seconds(At(plan, i)));
    }
  }

  lemma {:induction false} WithinTenDigits(p: Params, i: nat)
    requires p.rules.interval >= SECOND && p.config.newKeyUseDelay >= 0 && 1 <= i <= p.rules.numberOfKeys
    requires p.rules.numberOfKeys * p.rules.interval + p.config.newKeyUseDelay < 8_000_000_000 * SECOND
    ensures 1_000_000_000 <= Seconds(At(TenDigitPlan(p), i)) < 10_000_000_000
  {
    hide PrintInt;
    var n, d := p.rules.numberOfKeys, p.rules.interval;
    assert 0 <= (i - 1) * d <= (n - 1) * d == n * d - d;
  }

  /** How far the next multiple of the interval lies above the lifetime. */
  function Slack(ttl: nat, interval: nat): nat
    requires interval > 0
  {
    (interval - ttl % interval) % interval
  }

  lemma {:induction false} DerivedCovers(ttl: nat, interval: nat)
    requires interval > 0
    ensures (Rotator.DeriveNumberOfKeys(ttl, interval) - 1) * interval == ttl + Slack(ttl, interval)
  {
    hide *;
    var n := Rotator.DeriveNumberOfKeys(ttl, interval) - 1;
    var q, r := Divided(ttl, interval);
    Between(n, q, r, interval);
  }

  lemma {:induction false} Divided(ttl: nat, interval: nat) returns (q: nat, r: nat)
    requires interval > 0
    ensures ttl == q * interval + r && r < interval
    ensures Slack(ttl, interval) == if r == 0 then 0 else interval - r
  {
    q, r := ttl / interval, ttl % interval;
    assert r > 0 ==> 0 < interval - r < interval;
  }

  /** The least multiple of the interval that is not below q * interval + r. */
  lemma {:induction false} Between(n: int, q: int, r: int, interval: int)
    requires interval > 0 && 0 <= r < interval && n >= 0 && q >= 0
    requires n * interval >= q * interval + r && (n >= 1 ==> (n - 1) * interval < q * interval + r)
    ensures n == if r == 0 then q else q + 1
    ensures n * interval == q * interval + if r == 0 then 0 else interval
  {
    assert n <= q - 1 ==> n * interval <= (q - 1) * interval;
    assert n - 1 >= q + 1 ==> (n - 1) * interval >= (q + 1) * interval;
    assert n - 1 == q ==> (n - 1) * interval == q * interval;
    assert n == q ==> n * interval == q * interval;
    assert (q + 1) * interval == q * interval + interval;
  }

  /** The number of keys `deriveNumberOfKeys` computes, ceil(ttl / interval) + 1, keeps every token
      valid for its lifetime exactly when the rounding happens to leave room for the cool-off and the
      watch lag. */
  lemma {:induction false} DerivedIsEnoughIff(p: Params)
    requires p.rules.kidLength == 10 && p.rules.interval >= SECOND && p.config.newKeyUseDelay >= 0 && p.config.expiration > 0
    requires p.rules.numberOfKeys == Rotator.DeriveNumberOfKeys(p.config.expiration, p.rules.interval)
    requires p.rules.numberOfKeys * p.rules.interval + p.config.newKeyUseDelay < 8_000_000_000 * SECOND
    ensures NeverRejected(p) <==>
              p.lag < p.config.newKeyUseDelay && Slack(p.config.expiration, p.rules.interval) >= p.config.newKeyUseDelay + p.lag - 1
  {
    hide NeverRejected, PlanOk, Slack;
    TenDigitPlanOk(p);
    DerivedCovers(p.config.expiration, p.rules.interval);
    SufficientIsExact(TenDigitPlan(p));
  }

  /** When the interval divides the lifetime it never does. */
  lemma {:induction false} DerivedFallsShort(p: Params)
    requires p.rules.kidLength == 10 && p.rules.interval >= SECOND && p.config.newKeyUseDelay >= 0
    requires p.config.newKeyUseDelay + p.lag >= 2
    requires p.config.expiration > 0 && p.config.expiration % p.rules.interval == 0
    requires p.rules.numberOfKeys == Rotator.DeriveNumberOfKeys(p.config.expiration, p.rules.interval)
    requires p.rules.numberOfKeys * p.rules.interval + p.config.newKeyUseDelay < 8_000_000_000 * SECOND
    ensures !NeverRejected(p)
  {
    hide *;
    NoSlack(p.config.expiration, p.rules.interval);
    DerivedIsEnoughIff(p);
  }

  lemma {:induction false} NoSlack(ttl: nat, interval: nat)
    requires interval > 0 && ttl % interval == 0
    ensures Slack(ttl, interval) == 0
  {
  }
}
