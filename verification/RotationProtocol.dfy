/** Key rotation as a distributed protocol: one rotator writes the secret, every pod learns of each
    version some time later, signs with keys it has held for the cool-off, and validates any token by
    its kid (internal/jwt/standard_signer.go, secret_watch.go, internal/rotator/rotator.go).

    A run is any interleaving of rotations, deliveries, pod starts and stops, signatures and the
    passing of time, under one clock. Deliveries may skip versions and may even go back to an older
    one, as long as no pod works on a version that was superseded more than `lag` ago. */
module RotationProtocol {
  import opened Text
  import opened Keys
  import Rotator
  import opened Signer
  import opened KeyHistory

  datatype Params = Params(rules: Rules, lag: nat, config: Config)

  /** The secret from `time` on. */
  datatype Written = Written(time: int, data: SecretData)

  /** A running pod: the version its keys come from, and its signer. */
  datatype Pod = Pod(view: nat, signer: State)

  datatype Issued = Issued(token: Token, at: int)

  datatype System = System(now: int, written: seq<Written>, pods: map<string, Pod>, issued: set<Issued>)

  /** What the signers see of each version of the secret. */
  function Versions(written: seq<Written>): (h: seq<Version>)
    ensures |h| == |written|
    ensures forall v :: 0 <= v < |h| ==> h[v] == Version(written[v].time, SigningKeys(written[v].data))
  {
    if written == [] then []
    else
      var last := written[|written| - 1];
      Versions(written[..|written| - 1]) + [Version(last.time, SigningKeys(last.data))]
  }

  /** `v` is the current version, or was replaced no longer than `lag` ago. */
  predicate Recent(p: Params, written: seq<Written>, now: int, v: nat) {
    v < |written| && (v + 1 < |written| ==> now <= written[v + 1].time + p.lag)
  }

  ghost predicate AllRecent(p: Params, written: seq<Written>, now: int, pods: map<string, Pod>) {
    forall name :: name in pods ==> Recent(p, written, now, pods[name].view)
  }

  /** The secret holds at least one key, all kids have one length, none is from the future. */
  ghost predicate Init(p: Params, s: System) {
    && p.rules.numberOfKeys >= 1 && p.rules.interval >= SECOND
    && |s.written| == 1 && s.written[0].time <= s.now
    && GoodData(p.rules.kidLength, s.written[0].data)
    && GoodVersion(p.rules, Versions(s.written)[0])
    && s.pods == map[] && s.issued == {}
  }

  /** `RotateSecret` succeeds now; the clock stays within the fixed number of digits. */
  ghost predicate Rotate(p: Params, s: System, s': System, key: SigningKey, after: SecretData) {
    && |s.written| > 0
    && var last := s.written[|s.written| - 1];
    && GoodKid(p.rules.kidLength, PrintInt(Seconds(s.now))) && IsInt64(Seconds(s.now))
    && (|s.written| > 1 ==> s.now - last.time >= p.rules.interval)
    && Rotator.Rotated(last.data, p.rules.numberOfKeys, Seconds(s.now), key, after)
    && s' == s.(written := s.written + [Written(s.now, after)])
  }

  /** The signer after a parse of one version: the watch handler keeps its old keys on any error. */
  function AfterParse(st: State, r: ParseResult, now: int): State {
    if r.Parsed? && r.latestKid in r.keys then Updated(st, r.keys, r.latestKid, now) else st
  }

  ghost predicate Deliver(p: Params, s: System, s': System, name: string, v: nat, r: ParseResult) {
    && name in s.pods && Recent(p, s.written, s.now, v)
    && IsParseOf(Some(s.written[v].data), r)
    && s' == s.(pods := s.pods[name := Pod(v, AfterParse(s.pods[name].signer, r, s.now))])
  }

  /** A starting pod reads the current secret and fails to start when that does not parse. */
  ghost predicate Start(p: Params, s: System, s': System, name: string, r: ParseResult) {
    && |s.written| > 0 && name !in s.pods
    && var v := |s.written| - 1;
    && IsParseOf(Some(s.written[v].data), r) && r.Parsed? && r.latestKid in r.keys
    && s' == s.(pods := s.pods[name := Pod(v, AfterParse(NO_KEYS, r, s.now))])
  }

  ghost predicate Stop(s: System, s': System, name: string) {
    name in s.pods && s' == s.(pods := s.pods - {name})
  }

  ghost predicate Tick(p: Params, s: System, s': System) {
    s'.now >= s.now && s' == s.(now := s'.now) && AllRecent(p, s.written, s'.now, s.pods)
  }

  ghost predicate Sign(p: Params, s: System, s': System, name: string, kid: string, id: Identity, skip: bool, issuedAt: int) {
    && name in s.pods && kid != "" && kid in s.pods[name].signer.keys
    && IsUsable(s.pods[name].signer, p.config.newKeyUseDelay, s.now, kid)
    && s' == s.(issued := s.issued +
                 {Issued(Token(kid, s.pods[name].signer.keys[kid], Minted(p.config, id, skip, issuedAt, s.now)), s.now)})
  }

  datatype Event =
    | DoRotate(key: SigningKey, after: SecretData)
    | DoDeliver(pod: string, version: nat, parsed: ParseResult)
    | DoStart(pod: string, parsed: ParseResult)
    | DoStop(pod: string)
    | DoTick
    | DoSign(pod: string, kid: string, id: Identity, skip: bool, issuedAt: int)

  ghost predicate Next(p: Params, s: System, e: Event, s': System) {
    match e
    case DoRotate(key, after) => Rotate(p, s, s', key, after)
    case DoDeliver(pod, v, r) => Deliver(p, s, s', pod, v, r)
    case DoStart(pod, r) => Start(p, s, s', pod, r)
    case DoStop(pod) => Stop(s, s', pod)
    case DoTick => Tick(p, s, s')
    case DoSign(pod, kid, id, skip, issuedAt) => Sign(p, s, s', pod, kid, id, skip, issuedAt)
  }

  ghost predicate Run(p: Params, states: seq<System>, events: seq<Event>) {
    && |states| == |events| + 1 && Init(p, states[0])
    && forall i :: 0 <= i < |events| ==> Next(p, states[i], events[i], states[i + 1])
  }

  // ---------------------------------------------------------------- invariant

  /** `kid` was added by version `b`, or was there from the start. */
  ghost predicate Born(h: seq<Version>, b: nat, kid: string) {
    b < |h| && kid in h[b].keys && (b > 0 ==> kid == FreshKid(h[b]))
  }

  predicate OlderKid(a: string, b: string) {
    AllDigits(a) && AllDigits(b) && Value(a) < Value(b)
  }

  /** A held key was first seen no earlier than it was written, and a newer key no later than an older
      one or `lag` after it was written. */
  ghost predicate Staggered(p: Params, h: seq<Version>, now: int, added: map<string, int>) {
    && (forall kid, b: nat :: kid in added && Born(h, b, kid) ==> h[b].time <= added[kid] <= now)
    && (forall older, newer, b: nat ::
          (older in added && newer in added && Born(h, b, newer) && OlderKid(older, newer)) ==>
          added[newer] <= added[older] || (b > 0 && added[newer] <= h[b].time + p.lag))
  }

  ghost predicate PodOk(p: Params, h: seq<Version>, now: int, pod: Pod) {
    && pod.view < |h|
    && pod.signer.keys == h[pod.view].keys
    && pod.signer.added.Keys == pod.signer.keys.Keys
    && Staggered(p, h, now, pod.signer.added)
  }

  /** The key of an issued token: newest where it was added, used after its cool-off and before the
      next key's cool-off was over everywhere. */
  ghost predicate IssuedOk(p: Params, h: seq<Version>, now: int, t: Issued, b: nat) {
    var kid := t.token.kid;
    && kid != "" && Born(h, b, kid) && Newest(h[b].keys, kid) && t.token.key == h[b].keys[kid]
    && h[b].time + p.config.newKeyUseDelay <= t.at <= now
    && (b + 1 < |h| ==> t.at <= h[b + 1].time + p.lag + p.config.newKeyUseDelay - 1)
    && t.token.claims.issuer == p.config.issuer && t.token.claims.audience == p.config.audience
    && t.token.claims.expiresAt == Some(t.at + p.config.expiration)
    && t.token.claims.notBefore == Some(t.at)
  }

  ghost predicate WrittenOk(p: Params, written: seq<Written>) {
    && History(p.rules, Versions(written))
    && forall v :: 0 <= v < |written| ==> GoodData(p.rules.kidLength, written[v].data)
  }

  ghost predicate PodsOk(p: Params, h: seq<Version>, now: int, pods: map<string, Pod>) {
    forall name :: name in pods ==> PodOk(p, h, now, pods[name])
  }

  ghost predicate TokensOk(p: Params, h: seq<Version>, now: int, issued: set<Issued>) {
    forall t :: t in issued ==> exists b :: IssuedOk(p, h, now, t, b)
  }

  ghost predicate Inv(p: Params, s: System) {
    && p.lag < p.config.newKeyUseDelay
    && WrittenOk(p, s.written)
    && |s.written| > 0 && s.written[|s.written| - 1].time <= s.now
    && AllRecent(p, s.written, s.now, s.pods)
    && PodsOk(p, Versions(s.written), s.now, s.pods)
    && TokensOk(p, Versions(s.written), s.now, s.issued)
  }

  lemma {:induction false} InitInv(p: Params, s: System)
    requires Init(p, s) && p.lag < p.config.newKeyUseDelay
    ensures Inv(p, s)
  {
    hide GoodVersion, GoodData, PodOk, IssuedOk, SigningKeys;
  }

  /** With good data every parse succeeds and every update is accepted. */
  lemma {:induction false} GoodDataParses(p: Params, w: Written, r: ParseResult)
    requires GoodData(p.rules.kidLength, w.data)
    requires GoodVersion(p.rules, Version(w.time, SigningKeys(w.data)))
    requires IsParseOf(Some(w.data), r)
    ensures r.Parsed? && r.keys == SigningKeys(w.data) && r.latestKid in r.keys
  {
    hide ParseInt, HasKeyPrefix, KeyName, Kid, Value, AllDigits;
    CountKids(p.rules.kidLength, w.data);
    var kid :| kid in SigningKeys(w.data);
    GoodKidParses(p.rules.kidLength, kid);
    KidSetMembers(w.data);
    SigningKeysMembers(w.data);
    ParsesWhenWellFormed(w.data, r, kid);
  }

  lemma {:induction false} RotateHistory(p: Params, written: seq<Written>, now: int, key: SigningKey, after: SecretData)
    requires WrittenOk(p, written) && |written| > 0 && written[|written| - 1].time <= now
    requires |written| > 1 ==> now - written[|written| - 1].time >= p.rules.interval
    requires GoodKid(p.rules.kidLength, PrintInt(Seconds(now))) && IsInt64(Seconds(now))
    requires Rotator.Rotated(written[|written| - 1].data, p.rules.numberOfKeys, Seconds(now), key, after)
    ensures WrittenOk(p, written + [Written(now, after)])
    ensures Versions(written + [Written(now, after)]) == Versions(written) + [Version(now, SigningKeys(after))]
  {
    hide GoodKid, PrintInt, Rotator.Rotated, GoodData, IsInt64, SigningKeys, History, KeysRotated;
    var n := |written|;
    RotationOfKeys(p.rules.kidLength, written[n - 1].data, p.rules.numberOfKeys, Seconds(now), key, after);
    FreshValue(p.rules.kidLength, Seconds(now));
    AppendHistory(p.rules, Versions(written), Version(now, SigningKeys(after)));
    assert (written + [Written(now, after)])[..n] == written;
  }

  lemma {:induction false} AppendHistory(r: Rules, h: seq<Version>, v: Version)
    requires History(r, h) && h[|h| - 1].time <= v.time
    requires |h| > 1 ==> v.time - h[|h| - 1].time >= r.interval
    requires GoodKid(r.kidLength, FreshKid(v)) && Value(FreshKid(v)) == Seconds(v.time)
    requires KeysRotated(r.numberOfKeys, h[|h| - 1].keys, FreshKid(v), v.keys)
    ensures History(r, h + [v])
  {
    hide GoodKid, FreshKid, KeysRotated, GoodVersion;
    var h' := h + [v];
    RotatedIsGood(r, h[|h| - 1], v);
    forall i | 0 < i < |h'| ensures GoodRotation(r, h', i) {
      if i < |h| { assert GoodRotation(r, h, i); }
    }
  }

  lemma {:induction false} FreshValue(length: nat, seconds: int)
    requires GoodKid(length, PrintInt(seconds)) && IsInt64(seconds)
    ensures Value(PrintInt(seconds)) == seconds
  {
    PrintParse(seconds);
    GoodKidParses(length, PrintInt(seconds));
  }

  lemma {:induction false} RotatedIsGood(r: Rules, before: Version, after: Version)
    requires GoodVersion(r, before) && before.time <= after.time && r.numberOfKeys >= 1
    requires GoodKid(r.kidLength, FreshKid(after)) && Value(FreshKid(after)) == Seconds(after.time)
    requires KeysRotated(r.numberOfKeys, before.keys, FreshKid(after), after.keys)
    ensures GoodVersion(r, after)
  {
    hide GoodKid, FreshKid, OldestGone;
    assert |after.keys.Keys| >= 1;
  }

  // ---------------------------------------------------------------- every step keeps the invariant

  lemma {:induction false} BirthExists(r: Rules, h: seq<Version>, w: nat, kid: string) returns (b: nat)
    requires History(r, h) && w < |h| && kid in h[w].keys
    ensures b <= w && Born(h, b, kid)
    decreases w
  {
    hide FreshKid, GoodVersion, GoodKid, OldestGone;
    if w == 0 || kid == FreshKid(h[w]) {
      b := w;
    } else {
      assert GoodRotation(r, h, w);
      b := BirthExists(r, h, w - 1, kid);
    }
  }

  /** The history grows under a pod or a token without disturbing what was known about it. */
  lemma {:induction false} GrowPod(p: Params, h: seq<Version>, v: Version, now: int, pod: Pod)
    requires History(p.rules, h + [v]) && PodOk(p, h, now, pod)
    ensures PodOk(p, h + [v], now, pod)
  {
    hide FreshKid, History, OlderKid;
    var h' := h + [v];
    forall kid, b: nat | kid in pod.signer.added && Born(h', b, kid) ensures Born(h, b, kid) {
      if b == |h| {
        FreshIsNew(p.rules, h', pod.view, b, kid);
      }
    }
  }

  lemma {:induction false} GrowIssued(p: Params, h: seq<Version>, v: Version, now: int, t: Issued, b: nat)
    requires IssuedOk(p, h, now, t, b) && v.time == now && p.lag < p.config.newKeyUseDelay
    ensures IssuedOk(p, h + [v], now, t, b)
  {
    hide FreshKid, Newest;
    assert (h + [v])[b] == h[b];
  }

  /** Two keys of a pod that has just taken over the keys of another version. */
  lemma {:induction false} UpdatePair(p: Params, written: seq<Written>, now: int, pod: Pod, v: nat, latest: string,
                                      older: string, newer: string, b: nat)
    requires WrittenOk(p, written) && v < |written| && written[|written| - 1].time <= now
    requires PodOk(p, Versions(written), now, pod) && Recent(p, written, now, pod.view)
    requires var added := Updated(pod.signer, Versions(written)[v].keys, latest, now).added; older in added && newer in added
    requires Born(Versions(written), b, newer) && OlderKid(older, newer)
    ensures var added := Updated(pod.signer, Versions(written)[v].keys, latest, now).added;
            added[newer] <= added[older] || (b > 0 && added[newer] <= Versions(written)[b].time + p.lag)
  {
    hide FreshKid, History, OlderKid, GoodData, SigningKeys;
    var held := pod.signer.added;
    if older in held && newer !in held {
      NewerWasWrittenLately(p, written, Versions(written), now, pod.view, older, newer, b);
    }
  }

  /** A pod that takes over the keys of another recent version stays staggered: a key it did not hold
      while it held an older one was written at most `lag` ago. */
  lemma {:induction false} UpdatePod(p: Params, written: seq<Written>, now: int, pod: Pod, v: nat, latest: string)
    requires WrittenOk(p, written) && v < |written| && written[|written| - 1].time <= now
    requires PodOk(p, Versions(written), now, pod) && Recent(p, written, now, pod.view)
    ensures PodOk(p, Versions(written), now, Pod(v, Updated(pod.signer, Versions(written)[v].keys, latest, now)))
  {
    hide FreshKid, History, OlderKid, GoodData, SigningKeys, Recent;
    var h := Versions(written);
    var added := Updated(pod.signer, h[v].keys, latest, now).added;
    forall kid, b: nat | kid in added && Born(h, b, kid) ensures h[b].time <= added[kid] <= now {
      TimesGrow(p.rules, h, b, |h| - 1);
    }
    forall older, newer, b: nat | older in added && newer in added && Born(h, b, newer) && OlderKid(older, newer)
      ensures added[newer] <= added[older] || (b > 0 && added[newer] <= h[b].time + p.lag)
    {
      UpdatePair(p, written, now, pod, v, latest, older, newer, b);
    }
  }

  lemma {:induction false} NewerWasWrittenLately(p: Params, written: seq<Written>, h: seq<Version>, now: int, view: nat,
                              older: string, newer: string, b: nat)
    requires History(p.rules, h) && Recent(p, written, now, view)
    requires |written| == |h| && forall i :: 0 <= i < |h| ==> written[i].time == h[i].time
    requires older in h[view].keys && newer !in h[view].keys && Born(h, b, newer) && OlderKid(older, newer)
    ensures b > 0 && now <= h[b].time + p.lag
  {
    hide FreshKid, History;
    if b <= view {
      NewerKeysStay(p.rules, h, b, view, older, newer);
      assert false;
    }
    TimesGrow(p.rules, h, view + 1, b);
  }

  lemma {:induction false} StartPod(p: Params, written: seq<Written>, now: int, v: nat, latest: string)
    requires WrittenOk(p, written) && v < |written| && written[|written| - 1].time <= now
    ensures PodOk(p, Versions(written), now, Pod(v, Updated(NO_KEYS, Versions(written)[v].keys, latest, now)))
  {
    hide FreshKid, History, OlderKid, GoodData, SigningKeys;
    var h := Versions(written);
    forall kid, b: nat | Born(h, b, kid) ensures h[b].time <= now {
      TimesGrow(p.rules, h, b, |h| - 1);
    }
  }

  /** What a pod signs with is the newest key of the version that added it ... */
  lemma {:induction false} SignedWithNewest(p: Params, h: seq<Version>, now: int, pod: Pod, kid: string, b: nat)
    requires History(p.rules, h) && PodOk(p, h, now, pod)
    requires kid != "" && IsUsable(pod.signer, p.config.newKeyUseDelay, now, kid) && Born(h, b, kid)
    ensures Newest(h[b].keys, kid) && h[b].time + p.config.newKeyUseDelay <= now
  {
    hide FreshKid, History, Value, AllDigits, IsUsable;
    StampBound(p.rules, h, b, b, kid);
    forall k | k in h[b].keys && AllDigits(k) && k != kid ensures Value(k) < Value(kid) {
      if b > 0 {
        FreshIsNewest(p.rules, h, b, k);
      } else {
        StampBound(p.rules, h, 0, 0, k);
        EqualLengthOrder(k, kid);
        if Value(k) > Value(kid) {
          NoNewerCooled(p, h, now, pod, kid, k, 0);
        }
      }
    }
    assert Cooled(pod.signer, p.config.newKeyUseDelay, now, kid) by { UsableIsCooled(p, pod.signer, now, kid); }
  }

  lemma {:induction false} UsableIsCooled(p: Params, st: State, now: int, kid: string)
    requires kid != "" && IsUsable(st, p.config.newKeyUseDelay, now, kid)
    ensures Cooled(st, p.config.newKeyUseDelay, now, kid)
  {
  }

  /** ... and the next key has not been around long enough to be used instead. */
  lemma {:induction false} SignedInTime(p: Params, written: seq<Written>, h: seq<Version>, now: int, pod: Pod, kid: string, b: nat)
    requires History(p.rules, h) && PodOk(p, h, now, pod) && p.config.newKeyUseDelay > 0
    requires |written| == |h| && forall i :: 0 <= i < |h| ==> written[i].time == h[i].time
    requires Recent(p, written, now, pod.view)
    requires kid != "" && IsUsable(pod.signer, p.config.newKeyUseDelay, now, kid) && Born(h, b, kid)
    requires b + 1 < |h|
    ensures now <= h[b + 1].time + p.lag + p.config.newKeyUseDelay - 1
  {
    hide FreshKid, History, IsUsable, OlderKid, Staggered;
    FreshIsThere(p.rules, h, b + 1);
    FreshBeats(p.rules, h, b, kid);
    if pod.view <= b {
      TimesGrow(p.rules, h, pod.view + 1, b + 1);
    } else {
      NoNewerCooled(p, h, now, pod, kid, FreshKid(h[b + 1]), b + 1);
    }
  }

  lemma {:induction false} FreshIsThere(r: Rules, h: seq<Version>, w: nat)
    requires History(r, h) && 0 < w < |h|
    ensures FreshKid(h[w]) in h[w].keys
  {
    hide FreshKid, AllDigits, Value;
    assert GoodRotation(r, h, w) && GoodVersion(r, h[w]) && GoodVersion(r, h[w - 1]);
    var newKid := FreshKid(h[w]);
    var kept :| kept in h[w].keys;
    EqualLengthOrder(kept, newKid);
    StampBound(r, h, w, w, kept);
  }

  lemma {:induction false} FreshBeats(r: Rules, h: seq<Version>, b: nat, kid: string)
    requires History(r, h) && b + 1 < |h| && kid in h[b].keys
    ensures OlderKid(kid, FreshKid(h[b + 1]))
  {
    hide FreshKid;
    assert GoodRotation(r, h, b + 1) && GoodVersion(r, h[b]);
    StampBound(r, h, b, b + 1, kid);
    EqualLengthOrder(kid, FreshKid(h[b + 1]));
  }

  /** A usable key excludes any newer key whose cool-off is over for sure. */
  lemma {:induction false} NoNewerCooled(p: Params, h: seq<Version>, now: int, pod: Pod, kid: string, newer: string, b: nat)
    requires History(p.rules, h) && PodOk(p, h, now, pod)
    requires kid != "" && IsUsable(pod.signer, p.config.newKeyUseDelay, now, kid)
    requires Born(h, b, newer) && OlderKid(kid, newer) && b <= pod.view
    ensures b > 0 && now < h[b].time + p.lag + p.config.newKeyUseDelay
  {
    hide FreshKid, History, Value, AllDigits;
    NewerKeysStay(p.rules, h, b, pod.view, kid, newer);
    StampBound(p.rules, h, pod.view, pod.view, kid);
    StampBound(p.rules, h, pod.view, pod.view, newer);
    EqualLengthOrder(newer, kid);
    LessTotal(newer, kid);
    assert !Cooled(pod.signer, p.config.newKeyUseDelay, now, newer);
  }

  lemma {:induction false} RotateInv(p: Params, s: System, s': System, key: SigningKey, after: SecretData)
    requires Inv(p, s) && Rotate(p, s, s', key, after)
    ensures Inv(p, s')
  {
    hide WrittenOk, PodsOk, TokensOk, Versions, Rotator.Rotated, GoodKid, IsInt64, SigningKeys;
    RotateHistory(p, s.written, s.now, key, after);
    GrowAll(p, s'.written, Versions(s.written), Version(s.now, SigningKeys(after)), s.now, s.pods, s.issued);
  }

  lemma {:induction false} GrowAll(p: Params, written': seq<Written>, h: seq<Version>, v: Version, now: int, pods: map<string, Pod>, issued: set<Issued>)
    requires WrittenOk(p, written') && Versions(written') == h + [v] && v.time == now && p.lag < p.config.newKeyUseDelay
    requires PodsOk(p, h, now, pods) && TokensOk(p, h, now, issued)
    ensures PodsOk(p, h + [v], now, pods) && TokensOk(p, h + [v], now, issued)
  {
    hide Versions, GoodData, PodOk, IssuedOk, History;
    forall name | name in pods ensures PodOk(p, h + [v], now, pods[name]) {
      GrowPod(p, h, v, now, pods[name]);
    }
    forall t | t in issued ensures exists b :: IssuedOk(p, h + [v], now, t, b) {
      var b :| IssuedOk(p, h, now, t, b);
      GrowIssued(p, h, v, now, t, b);
    }
  }

  lemma {:induction false} DeliverInv(p: Params, s: System, s': System, name: string, v: nat, r: ParseResult)
    requires Inv(p, s) && Deliver(p, s, s', name, v, r)
    ensures Inv(p, s')
  {
    hide WrittenOk, PodOk, TokensOk, IsParseOf, SigningKeys;
    WrittenParses(p, s.written, v, r);
    UpdatePod(p, s.written, s.now, s.pods[name], v, r.latestKid);
  }

  lemma {:induction false} StartInv(p: Params, s: System, s': System, name: string, r: ParseResult)
    requires Inv(p, s) && Start(p, s, s', name, r)
    ensures Inv(p, s')
  {
    hide WrittenOk, PodOk, TokensOk, IsParseOf, SigningKeys;
    var v := |s.written| - 1;
    WrittenParses(p, s.written, v, r);
    StartPod(p, s.written, s.now, v, r.latestKid);
  }

  lemma {:induction false} WrittenParses(p: Params, written: seq<Written>, v: nat, r: ParseResult)
    requires WrittenOk(p, written) && v < |written| && IsParseOf(Some(written[v].data), r)
    ensures r.Parsed? && r.keys == Versions(written)[v].keys && r.latestKid in r.keys
  {
    hide GoodData, GoodVersion, GoodRotation, IsParseOf, SigningKeys;
    assert GoodVersion(p.rules, Versions(written)[v]);
    GoodDataParses(p, written[v], r);
  }

  lemma {:induction false} TickInv(p: Params, s: System, s': System)
    requires Inv(p, s) && Tick(p, s, s')
    ensures Inv(p, s')
  {
    hide WrittenOk, Versions, PodOk, IssuedOk, Recent;
    var h := Versions(s.written);
    forall name | name in s.pods ensures PodOk(p, h, s'.now, s.pods[name]) {
      LaterPod(p, h, s.now, s'.now, s.pods[name]);
    }
    forall t | t in s.issued ensures exists b :: IssuedOk(p, h, s'.now, t, b) {
      var b :| IssuedOk(p, h, s.now, t, b);
      LaterIssued(p, h, s.now, s'.now, t, b);
    }
  }

  lemma {:induction false} LaterPod(p: Params, h: seq<Version>, now: int, later: int, pod: Pod)
    requires PodOk(p, h, now, pod) && now <= later
    ensures PodOk(p, h, later, pod)
  {
    hide FreshKid, OlderKid;
  }

  lemma {:induction false} LaterIssued(p: Params, h: seq<Version>, now: int, later: int, t: Issued, b: nat)
    requires IssuedOk(p, h, now, t, b) && now <= later
    ensures IssuedOk(p, h, later, t, b)
  {
    hide FreshKid, Newest;
  }

  lemma {:induction false} SignInv(p: Params, s: System, s': System, name: string, kid: string, id: Identity, skip: bool, issuedAt: int)
    requires Inv(p, s) && Sign(p, s, s', name, kid, id, skip, issuedAt)
    ensures Inv(p, s')
  {
    hide WrittenOk, PodOk, IssuedOk, IsUsable, Versions;
    var h, pod := Versions(s.written), s.pods[name];
    assert PodOk(p, h, s.now, pod) && Recent(p, s.written, s.now, pod.view);
    var t := Issued(Token(kid, pod.signer.keys[kid], Minted(p.config, id, skip, issuedAt, s.now)), s.now);
    var b := SignedOk(p, s.written, s.now, pod, t);
  }

  lemma {:induction false} SignedOk(p: Params, written: seq<Written>, now: int, pod: Pod, t: Issued) returns (b: nat)
    requires WrittenOk(p, written) && PodOk(p, Versions(written), now, pod) && Recent(p, written, now, pod.view)
    requires p.lag < p.config.newKeyUseDelay
    requires var kid := t.token.kid;
             && kid != "" && IsUsable(pod.signer, p.config.newKeyUseDelay, now, kid)
             && kid in pod.signer.keys && t.token.key == pod.signer.keys[kid] && t.at == now
    requires t.token.claims.issuer == p.config.issuer && t.token.claims.audience == p.config.audience
    requires t.token.claims.expiresAt == Some(now + p.config.expiration) && t.token.claims.notBefore == Some(now)
    ensures IssuedOk(p, Versions(written), now, t, b)
  {
    hide History, GoodData, SigningKeys, Newest, FreshKid, OlderKid, IsUsable, Staggered;
    var h, kid := Versions(written), t.token.kid;
    b := BirthExists(p.rules, h, pod.view, kid);
    SignedWithNewest(p, h, now, pod, kid, b);
    if b + 1 < |h| {
      SignedInTime(p, written, h, now, pod, kid, b);
    }
    KidNamesOneKey(p.rules, h, b, pod.view, kid);
  }

  lemma {:induction false} StopInv(p: Params, s: System, s': System, name: string)
    requires Inv(p, s) && Stop(s, s', name)
    ensures Inv(p, s')
  {
    hide WrittenOk, PodOk, TokensOk, Versions, Recent;
  }

  lemma {:induction false} NextInv(p: Params, s: System, e: Event, s': System)
    requires Inv(p, s) && Next(p, s, e, s')
    ensures Inv(p, s')
  {
    hide Inv, Rotate, Deliver, Start, Stop, Tick, Sign;
    match e
    case DoRotate(key, after) => RotateInv(p, s, s', key, after);
    case DoDeliver(pod, v, r) => DeliverInv(p, s, s', pod, v, r);
    case DoStart(pod, r) => StartInv(p, s, s', pod, r);
    case DoStop(pod) => StopInv(p, s, s', pod);
    case DoTick => TickInv(p, s, s');
    case DoSign(pod, kid, id, skip, issuedAt) => SignInv(p, s, s', pod, kid, id, skip, issuedAt);
  }

  lemma {:induction false} RunInv(p: Params, states: seq<System>, events: seq<Event>, i: nat)
    requires Run(p, states, events) && p.lag < p.config.newKeyUseDelay && i < |states|
    ensures Inv(p, states[i])
    decreases i
  {
    hide Inv, Next, Init;
    if i == 0 {
      InitInv(p, states[0]);
    } else {
      RunInv(p, states, events, i - 1);
      NextInv(p, states[i - 1], events[i - 1], states[i]);
    }
  }

  // ---------------------------------------------------------------- the guarantee

  /** How long after signing every pod is certain to still accept a token. */
  function Assured(p: Params): int {
    Rotator.Min(p.config.expiration, (p.rules.numberOfKeys - 1) * p.rules.interval - p.lag - p.config.newKeyUseDelay + 1)
  }

  lemma {:induction false} InvAccepts(p: Params, s: System, t: Issued, name: string)
    requires Inv(p, s) && t in s.issued && name in s.pods
    requires s.now < t.at + Assured(p)
    ensures Validate(s.pods[name].signer.keys, p.config, t.token, s.now) == Accepted(t.token.claims)
  {
    hide History, GoodData, SigningKeys, FreshKid, Staggered, Newest;
    var h, pod := Versions(s.written), s.pods[name];
    var b :| IssuedOk(p, h, s.now, t, b);
    assert PodOk(p, h, s.now, pod) && Recent(p, s.written, s.now, pod.view);
    KeyIsInView(p, s.written, h, s.now, pod.view, t, b);
    KidNamesOneKey(p.rules, h, b, pod.view, t.token.kid);
  }

  lemma {:induction false} KeyIsInView(p: Params, written: seq<Written>, h: seq<Version>, now: int, view: nat, t: Issued, b: nat)
    requires History(p.rules, h) && IssuedOk(p, h, now, t, b) && Recent(p, written, now, view)
    requires |written| == |h| && forall i :: 0 <= i < |h| ==> written[i].time == h[i].time
    requires p.lag < p.config.newKeyUseDelay && h[|h| - 1].time <= now && now < t.at + Assured(p)
    ensures b <= view && t.token.kid in h[view].keys
  {
    hide History, FreshKid, Newest;
    if view < b {
      TimesGrow(p.rules, h, view + 1, b);
      assert false;
    }
    var n := p.rules.numberOfKeys;
    if view >= b + n && n >= 1 {
      TimesGrow(p.rules, h, b + 1, b + n);
      TimesGrow(p.rules, h, b + n, |h| - 1);
      assert false;
    }
    assert n >= 1 by { RulesOk(p.rules, h); }
    NewestSurvives(p.rules, h, b, view, t.token.kid);
  }

  lemma {:induction false} RulesOk(r: Rules, h: seq<Version>)
    requires History(r, h)
    ensures r.numberOfKeys >= 1 && r.interval >= SECOND
  {
  }

  predicate Unexpired(p: Params, t: Issued, now: int) {
    now < t.at + p.config.expiration
  }

  ghost predicate Reachable(p: Params, s: System) {
    exists states: seq<System>, events: seq<Event> :: Run(p, states, events) && states[|events|] == s
  }

  ghost predicate NoneRejected(p: Params, s: System) {
    forall t: Issued, name: string :: t in s.issued && name in s.pods && Unexpired(p, t, s.now)
      ==> Validate(s.pods[name].signer.keys, p.config, t.token, s.now).Accepted?
  }

  /** The promise of key rotation: no unexpired token is ever turned away by a running pod. */
  ghost predicate NeverRejected(p: Params) {
    forall s: System :: Reachable(p, s) ==> NoneRejected(p, s)
  }

  /** Enough keys for whole token lifetimes, and watches faster than the cool-off. */
  predicate Sufficient(p: Params) {
    && p.lag < p.config.newKeyUseDelay
    && (p.rules.numberOfKeys - 1) * p.rules.interval >= p.config.expiration + p.config.newKeyUseDelay + p.lag - 1
  }

  lemma {:induction false} ReachableInv(p: Params, s: System)
    requires Reachable(p, s) && p.lag < p.config.newKeyUseDelay
    ensures Inv(p, s)
  {
    hide Inv, Next, Init;
    var states: seq<System>, events: seq<Event> :| Run(p, states, events) && states[|events|] == s;
    RunInv(p, states, events, |events|);
  }

  /** In every reachable state, every running pod accepts every token issued less than `Assured` ago. */
  lemma {:induction false} TokensAreAccepted(p: Params, s: System, t: Issued, name: string)
    requires Reachable(p, s) && p.lag < p.config.newKeyUseDelay && t in s.issued && name in s.pods
    requires s.now < t.at + Assured(p)
    ensures Validate(s.pods[name].signer.keys, p.config, t.token, s.now) == Accepted(t.token.claims)
  {
    hide Inv, Reachable, Validate;
    ReachableInv(p, s);
    InvAccepts(p, s, t, name);
  }

  lemma {:induction false} SufficientIsEnough(p: Params)
    requires Sufficient(p)
    ensures NeverRejected(p)
  {
    hide Inv, Reachable, Validate;
    forall s: System | Reachable(p, s) ensures NoneRejected(p, s) {
      forall t: Issued, name: string | t in s.issued && name in s.pods && Unexpired(p, t, s.now)
        ensures Validate(s.pods[name].signer.keys, p.config, t.token, s.now).Accepted?
      {
        TokensAreAccepted(p, s, t, name);
      }
    }
  }

  /** With the derived number of keys, ceil(ttl / interval) + 1, in every reachable state a token is
      accepted everywhere for its lifetime less the cool-off and the watch lag. */
  lemma {:induction false} DerivedNumberOfKeys(p: Params, s: System, t: Issued, name: string)
    requires Reachable(p, s) && p.lag < p.config.newKeyUseDelay && t in s.issued && name in s.pods
    requires p.config.expiration >= 0 && p.rules.interval > 0
    requires p.rules.numberOfKeys == Rotator.DeriveNumberOfKeys(p.config.expiration, p.rules.interval)
    requires s.now < t.at + p.config.expiration - p.config.newKeyUseDelay - p.lag + 1
    ensures Validate(s.pods[name].signer.keys, p.config, t.token, s.now) == Accepted(t.token.claims)
  {
    hide Reachable, Validate;
    var n := Rotator.DeriveNumberOfKeys(p.config.expiration, p.rules.interval);
    assert (p.rules.numberOfKeys - 1) * p.rules.interval == (n - 1) * p.rules.interval >= p.config.expiration;
    TokensAreAccepted(p, s, t, name);
  }
}
