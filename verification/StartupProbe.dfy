/** The access startup probe as persisted in a workspace's status
    (internal/controller/state_machine_access.go, state_machine.go, access_startup_prober.go), one
    reconcile at a time and over whole runs. Times are in seconds. */
module StartupProbe {
  import opened Text
  import opened Backoff

  datatype ProbeSpec = ProbeSpec(initialDelaySeconds: Int32, periodSeconds: Int32, failureThreshold: Int32)

  function Period(p: ProbeSpec): (n: Int32)
    ensures n > 0
  {
    if p.periodSeconds > 0 then p.periodSeconds else 2
  }

  function Threshold(p: ProbeSpec): (n: Int32)
    ensures n > 0
  {
    if p.failureThreshold > 0 then p.failureThreshold else 20
  }

  /** The part of the status the probe owns. */
  datatype Status = Status(failures: Option<Int32>, earliestNext: Option<int>, succeeded: bool, observed: string)

  const CLEARED := Status(None, None, false, "")

  /** An access strategy: its version, "<UID>.<generation>", and the probe it defines. */
  datatype Strategy = Strategy(version: string, probe: Option<ProbeSpec>)

  /** The answer of the endpoint, should it be asked. */
  datatype Answer = Ready | NotReady | ProbeError

  datatype Verdict = NotDefined | Succeeded | Retrying(after: int) | PendingRetry(after: int) | ThresholdExceeded | AlreadySucceeded

  /** One cycle: the verdict, None for an error, the new status, and whether the endpoint was asked. */
  datatype Cycle = Cycle(verdict: Option<Verdict>, status: Status, asked: bool)

  function ForVersion(st: Status, version: string): Status {
    if st.observed != version then Status(None, None, false, version) else st
  }

  function Probe(st: Status, strategy: Option<Strategy>, now: int, answer: Answer): Cycle
  {
    if strategy.None? || strategy.value.probe.None? then Cycle(Some(NotDefined), st, false)
    else
      var s, p := ForVersion(st, strategy.value.version), strategy.value.probe.value;
      if s.succeeded then Cycle(Some(AlreadySucceeded), s, false)
      else if s.failures.Some? && s.failures.value >= Threshold(p) then Cycle(Some(ThresholdExceeded), s, false)
      else if s.failures.None? && p.initialDelaySeconds > 0 then
        Cycle(Some(Retrying(p.initialDelaySeconds)),
              s.(failures := Some(0), earliestNext := Some(now + p.initialDelaySeconds)), false)
      else
        var counted := if s.failures.None? then 0 else s.failures.value;
        if s.earliestNext.Some? && s.earliestNext.value > now then
          Cycle(Some(PendingRetry(s.earliestNext.value - now)), s.(failures := Some(counted)), false)
        else
          match answer
          case ProbeError => Cycle(None, s.(failures := Some(counted)), true)
          case Ready => Cycle(Some(Succeeded), Status(None, None, true, s.observed), true)
          case NotReady =>
            var failures := counted + 1;
            if failures >= Threshold(p) then Cycle(Some(ThresholdExceeded), s.(failures := Some(failures), earliestNext := None), true)
            else
              var delay := Delay(Period(p), failures, Threshold(p));
              Cycle(Some(Retrying(delay)), s.(failures := Some(failures), earliestNext := Some(now + delay)), true)
  }

  class ProbeStatus {
    var failures: Option<Int32>
    var earliestNext: Option<int>
    var succeeded: bool
    var observed: string

    ghost function Value(): Status
      reads this
    {
      Status(failures, earliestNext, succeeded, observed)
    }

    constructor ()
      ensures Value() == CLEARED
    {
      failures, earliestNext, succeeded, observed := None, None, false, "";
    }

    method ClearProbeState()
      modifies this
      ensures Value() == Status(None, None, old(succeeded), old(observed))
    {
      failures := None;
      earliestNext := None;
    }

    /** What both access reconciles do when the workspace has no strategy or is to be stopped. */
    method Forget()
      modifies this
      ensures Value() == CLEARED
    {
      succeeded := false;
      observed := "";
      ClearProbeState();
    }

    method ProbeAccessStartup(strategy: Option<Strategy>, now: int, answer: Answer) returns (verdict: Option<Verdict>, asked: bool)
      modifies this
      ensures Cycle(verdict, Value(), asked) == Probe(old(Value()), strategy, now, answer)
    {
      asked := false;
      if strategy.None? || strategy.value.probe.None? {
        return Some(NotDefined), false;
      }
      var probe := strategy.value.probe.value;
      if observed != strategy.value.version {
        ClearProbeState();
        succeeded := false;
        observed := strategy.value.version;
      }
      if succeeded {
        return Some(AlreadySucceeded), false;
      }
      if failures.Some? && failures.value >= Threshold(probe) {
        return Some(ThresholdExceeded), false;
      }
      if failures.None? {
        failures := Some(0);
        if probe.initialDelaySeconds > 0 {
          earliestNext := Some(now + probe.initialDelaySeconds);
          return Some(Retrying(probe.initialDelaySeconds)), false;
        }
      }
      if earliestNext.Some? && earliestNext.value > now {
        return Some(PendingRetry(earliestNext.value - now)), false;
      }
      asked := true;
      match answer
      case ProbeError =>
        return None, true;
      case Ready =>
        succeeded := true;
        ClearProbeState();
        return Some(Succeeded), true;
      case NotReady =>
        var count := failures.value + 1;
        failures := Some(count);
        if count >= Threshold(probe) {
          earliestNext := None;
          return Some(ThresholdExceeded), true;
        }
        var delay := ProbeRetrySeconds(Period(probe), count, Threshold(probe));
        earliestNext := Some(now + delay);
        return Some(Retrying(delay)), true;
    }
  }

  // ---------------------------------------------------------------- one cycle, case by case

  /** No cycle of this version has been counted yet. */
  predicate First(st: Status, version: string) { st.observed != version || st.failures.None? }

  function Counted(st: Status, version: string): int { if First(st, version) then 0 else st.failures.value }

  predicate Passed(st: Status, version: string) { st.observed == version && st.succeeded }

  predicate Waiting(st: Status, version: string, now: int) {
    st.observed == version && st.earliestNext.Some? && st.earliestNext.value > now
  }

  /** The endpoint is asked exactly when this version has neither passed nor used up its failures, is not
      in its initial delay and has no deadline ahead of it. */
  lemma {:induction false} AskedIff(st: Status, strategy: Strategy, now: int, answer: Answer)
    ensures var c, v := Probe(st, Some(strategy), now, answer), strategy.version;
            c.asked <==>
              && strategy.probe.Some? && !Passed(st, v) && Counted(st, v) < Threshold(strategy.probe.value)
              && (First(st, v) ==> strategy.probe.value.initialDelaySeconds <= 0) && !Waiting(st, v, now)
  {
    hide Delay;
  }

  /** What an answer does: success clears counter and deadline, a failure counts one and sets the next
      deadline or ends the probing, and an error leaves no verdict. */
  lemma {:induction false} AnswerCounts(st: Status, strategy: Strategy, now: int, answer: Answer)
    requires Probe(st, Some(strategy), now, answer).asked && strategy.probe.Some?
    ensures var c, v, p := Probe(st, Some(strategy), now, answer), strategy.version, strategy.probe.value;
            var failures := Counted(st, v) + 1;
            && (answer == Ready ==> c.verdict == Some(Succeeded) && c.status == Status(None, None, true, v))
            && (answer == ProbeError ==> c.verdict == None)
            && (answer == NotReady && failures >= Threshold(p) ==>
                  c.verdict == Some(ThresholdExceeded) && c.status == Status(Some(failures), None, false, v))
            && (answer == NotReady && failures < Threshold(p) ==>
                  var delay := Delay(Period(p), failures, Threshold(p));
                  c.verdict == Some(Retrying(delay)) && c.status == Status(Some(failures), Some(now + delay), false, v))
  {
    hide Delay;
  }

  /** A cycle that does not ask says why, and never counts. */
  lemma {:induction false} SilentCycle(st: Status, strategy: Strategy, now: int, answer: Answer)
    requires !Probe(st, Some(strategy), now, answer).asked
    ensures var c, v := Probe(st, Some(strategy), now, answer), strategy.version;
            && (c.verdict == Some(NotDefined) <==> strategy.probe.None?)
            && (strategy.probe.None? ==> c.status == st)
            && (strategy.probe.Some? ==>
                  var p := strategy.probe.value;
                  && c.status.observed == v && c.status.succeeded == Passed(st, v)
                  && (c.verdict == Some(AlreadySucceeded) <==> Passed(st, v))
                  && (c.verdict == Some(ThresholdExceeded) <==> !Passed(st, v) && Counted(st, v) >= Threshold(p))
                  && (c.verdict == Some(Retrying(p.initialDelaySeconds)) <==>
                        !Passed(st, v) && First(st, v) && p.initialDelaySeconds > 0)
                  && (c.verdict == Some(Retrying(p.initialDelaySeconds)) ==>
                        c.status == Status(Some(0), Some(now + p.initialDelaySeconds), false, v))
                  && (c.verdict.Some? && c.verdict.value.PendingRetry? ==>
                        Waiting(st, v, now) && c.verdict.value.after == st.earliestNext.value - now
                        && c.status == Status(Some(Counted(st, v)), st.earliestNext, false, v)))
  {
    hide Delay;
  }

  // ---------------------------------------------------------------- runs

  /** One reconcile; `stored` is whether the API server takes its status write, if it comes to one. */
  datatype Event =
    | Stop(stored: bool)
    | RunWithout(stored: bool)
    | Run(strategy: Strategy, resourcesReady: bool, now: int, answer: Answer, stored: bool)

  /** The persisted status after an event. */
  function After(st: Status, e: Event): Status
  {
    match e
    case Stop(stored) => if stored then CLEARED else st
    case RunWithout(stored) => if stored then CLEARED else st
    case Run(strategy, ready, now, answer, stored) =>
      if !ready || !stored then st
      else
        var c := Probe(st, Some(strategy), now, answer);
        if c.verdict.None? then st else c.status
  }

  /** The probe cycle ran and its status was written. */
  predicate Recorded(st: Status, e: Event) {
    e.Run? && e.resourcesReady && e.stored && Probe(st, Some(e.strategy), e.now, e.answer).verdict.Some?
  }

  /** The endpoint was asked, with or without an answer. */
  predicate Asked(st: Status, e: Event) {
    e.Run? && e.resourcesReady && Probe(st, Some(e.strategy), e.now, e.answer).asked
  }

  /** The reconcile writes Available=True. */
  predicate WritesAvailable(st: Status, e: Event)
  {
    e.Run? && e.resourcesReady && e.stored
    && Probe(st, Some(e.strategy), e.now, e.answer).verdict in {Some(NotDefined), Some(Succeeded), Some(AlreadySucceeded)}
  }

  /** A version of a strategy never changes its probe: `probes` lists the versions that define one. */
  ghost predicate EventsOk(probes: map<string, ProbeSpec>, events: seq<Event>) {
    forall i :: 0 <= i < |events| ==> EventOk(probes, events[i])
  }

  predicate EventOk(probes: map<string, ProbeSpec>, e: Event) {
    e.Run? ==>
      && e.strategy.version != ""
      && e.strategy.probe == if e.strategy.version in probes then Some(probes[e.strategy.version]) else None
  }

  /** The persisted status after a run of events from a fresh workspace. */
  function StatusAfter(events: seq<Event>): Status {
    if events == [] then CLEARED else After(StatusAfter(events[..|events| - 1]), events[|events| - 1])
  }

  /** A stop or a detachment that was written. */
  predicate Forgets(e: Event) { !e.Run? && e.stored }

  /** An event that starts the count anew: a written stop or detachment, or a recorded cycle of a probed
      strategy of another version. */
  predicate Resets(st: Status, e: Event) {
    Forgets(e) || (Recorded(st, e) && e.strategy.probe.Some? && e.strategy.version != st.observed)
  }

  predicate Failed(st: Status, e: Event) {
    Recorded(st, e) && Asked(st, e) && e.answer == NotReady
  }

  /** Failed answers recorded since the last reset. */
  function FailedSince(events: seq<Event>): nat {
    if events == [] then 0
    else
      var n := |events| - 1;
      var st, e := StatusAfter(events[..n]), events[n];
      (if Resets(st, e) then 0 else FailedSince(events[..n])) + if Failed(st, e) then 1 else 0
  }

  /** The probe of `version` was answered Ready at step `j`, which was written, and so was no stop or
      detachment after it. */
  ghost predicate SucceededAt(events: seq<Event>, version: string, j: nat) {
    && j < |events| && events[j].Run? && events[j].strategy.version == version
    && Asked(StatusAfter(events[..j]), events[j]) && events[j].answer == Ready && events[j].stored
    && forall k :: j < k < |events| ==> !Forgets(events[k])
  }

  /** What holds of a persisted status at any time. */
  ghost predicate Inv(probes: map<string, ProbeSpec>, events: seq<Event>) {
    var st := StatusAfter(events);
    && (st.succeeded ==> st.failures.None? && st.earliestNext.None? && exists j :: SucceededAt(events, st.observed, j))
    && (st.failures.Some? ==> st.observed in probes && 0 <= st.failures.value <= Threshold(probes[st.observed]))
    && (st.failures.Some? ==> st.failures.value == FailedSince(events))
    && (st.failures.None? && !st.succeeded ==> FailedSince(events) == 0 && st.earliestNext.None?)
    && (st.observed == "" ==> st == CLEARED)
  }

  lemma {:induction false} Unfold(events: seq<Event>, e: Event)
    ensures StatusAfter(events + [e]) == After(StatusAfter(events), e)
    ensures var st := StatusAfter(events);
            FailedSince(events + [e]) == (if Resets(st, e) then 0 else FailedSince(events)) + if Failed(st, e) then 1 else 0
  {
    hide After, Resets, Failed;
    assert (events + [e])[..|events|] == events;
  }

  lemma {:induction false} SuccessKept(events: seq<Event>, e: Event, version: string, j: nat)
    requires SucceededAt(events, version, j) && !Forgets(e)
    ensures SucceededAt(events + [e], version, j)
  {
    hide Asked, StatusAfter;
    assert (events + [e])[..j] == events[..j] && (events + [e])[j] == events[j];
  }

  lemma {:induction false} SuccessNow(events: seq<Event>, e: Event)
    requires Asked(StatusAfter(events), e) && e.answer == Ready && e.stored
    ensures SucceededAt(events + [e], e.strategy.version, |events|)
  {
    hide StatusAfter;
    assert (events + [e])[..|events|] == events;
  }

  /** Every event keeps the status consistent with what has happened. */
  lemma {:induction false} InvStep(probes: map<string, ProbeSpec>, events: seq<Event>, e: Event)
    requires EventOk(probes, e) && Inv(probes, events)
    ensures Inv(probes, events + [e])
  {
    hide StatusAfter, FailedSince, SucceededAt, Delay;
    Unfold(events, e);
    var st, st' := StatusAfter(events), StatusAfter(events + [e]);
    if st'.succeeded {
      if Asked(st, e) && Recorded(st, e) {
        SuccessNow(events, e);
      } else {
        var j :| SucceededAt(events, st.observed, j);
        SuccessKept(events, e, st.observed, j);
      }
    }
  }

  /** Over every run: the counter is between 0 and the threshold and equals the failed probes since the
      last reset; success clears counter and deadline and is backed by a probe that succeeded. */
  lemma {:induction false} InvHolds(probes: map<string, ProbeSpec>, events: seq<Event>)
    requires EventsOk(probes, events)
    ensures Inv(probes, events)
  {
    hide EventOk;
    if events == [] {
      hide SucceededAt;
    } else {
      hide Inv;
      var n := |events| - 1;
      assert events == events[..n] + [events[n]];
      InvHolds(probes, events[..n]);
      InvStep(probes, events[..n], events[n]);
    }
  }

  /** No endpoint is asked once the threshold is reached, nor before the stored deadline; either needs
      a reset first. */
  lemma {:induction false} AskedInTime(probes: map<string, ProbeSpec>, events: seq<Event>, e: Event)
    requires EventsOk(probes, events) && EventOk(probes, e) && Asked(StatusAfter(events), e)
    ensures var st := StatusAfter(events);
            st.observed == e.strategy.version ==>
              && FailedSince(events) < Threshold(probes[st.observed])
              && (st.earliestNext.Some? ==> st.earliestNext.value <= e.now)
  {
    hide StatusAfter, FailedSince, SucceededAt, EventsOk;
    InvHolds(probes, events);
  }

  /** Available=True is written under a strategy that defines a probe only if a probe of that version
      has succeeded since the last stop. */
  lemma {:induction false} AvailableAfterSuccess(probes: map<string, ProbeSpec>, events: seq<Event>, e: Event)
    requires EventsOk(probes, events) && EventOk(probes, e)
    requires WritesAvailable(StatusAfter(events), e) && e.strategy.version in probes
    ensures exists j :: SucceededAt(events + [e], e.strategy.version, j)
  {
    hide StatusAfter, FailedSince, SucceededAt, EventsOk, Delay;
    InvHolds(probes, events);
    var st := StatusAfter(events);
    if Asked(st, e) {
      SuccessNow(events, e);
    } else {
      var j :| SucceededAt(events, st.observed, j);
      SuccessKept(events, e, st.observed, j);
    }
  }

  // ---------------------------------------------------------------- stops that count

  /** Under a probed strategy Available=True is written after step `x` of a run ... */
  ghost predicate AvailableLater(probes: map<string, ProbeSpec>, events: seq<Event>, x: Event, more: seq<Event>, e: Event) {
    var run := events + [x] + more;
    && EventsOk(probes, run) && EventOk(probes, e)
    && WritesAvailable(StatusAfter(run), e) && e.strategy.version in probes
  }

  /** ... and its probe has succeeded after that step. */
  ghost predicate Earned(events: seq<Event>, x: Event, more: seq<Event>, e: Event)
    requires e.Run?
  {
    exists j: nat :: j > |events| && SucceededAt(events + [x] + more + [e], e.strategy.version, j)
  }

  lemma {:induction false} WrittenStopCounts(probes: map<string, ProbeSpec>, events: seq<Event>, x: Event, more: seq<Event>, e: Event)
    requires Forgets(x) && AvailableLater(probes, events, x, more, e)
    ensures Earned(events, x, more, e)
  {
    LaterIsRun(probes, events, x, more, e);
    hide StatusAfter, WritesAvailable, Asked, EventOk;
    var run := events + [x] + more;
    AvailableAfterSuccess(probes, run, e);
    var j: nat :| SucceededAt(run + [e], e.strategy.version, j);
    assert (run + [e])[|events|] == x;
  }

  const QUICK := ProbeSpec(0, 0, 0)

  /** A strategy whose probe is ready at once. */
  const READY := Run(Strategy("v", Some(QUICK)), true, 0, Ready, true)

  lemma {:induction false} UnwrittenStopDoesNot(x: Event)
    requires !x.Run? && !x.stored
    ensures AvailableLater(map["v" := QUICK], [READY], x, [], READY) && !Earned([READY], x, [], READY)
  {
    var run := [READY] + [x] + [];
    assert run == [READY, x] && run[..1] == [READY] && [READY][..0] == [];
    assert StatusAfter([READY]) == Status(None, None, true, "v");
    assert StatusAfter(run) == StatusAfter([READY]);
    assert !Asked(StatusAfter(run), READY);
    forall j: nat | j > 1
      ensures !SucceededAt(run + [READY], "v", j)
    {
      assert j == 2 ==> (run + [READY])[..j] == run && (run + [READY])[j] == READY;
    }
  }

  /** A stop or a detachment makes a new success necessary exactly when it is written. */
  lemma {:induction false} StopCountsIff(x: Event)
    requires !x.Run?
    ensures (forall probes, events, more, e :: AvailableLater(probes, events, x, more, e) ==> Earned(events, x, more, e)) <==> x.stored
  {
    if x.stored {
      hide AvailableLater, Earned;
      forall probes, events, more, e | AvailableLater(probes, events, x, more, e)
        ensures e.Run? && Earned(events, x, more, e)
      {
        LaterIsRun(probes, events, x, more, e);
        WrittenStopCounts(probes, events, x, more, e);
      }
    } else {
      UnwrittenStopDoesNot(x);
    }
  }

  lemma {:induction false} LaterIsRun(probes: map<string, ProbeSpec>, events: seq<Event>, x: Event, more: seq<Event>, e: Event)
    requires AvailableLater(probes, events, x, more, e)
    ensures e.Run?
  {
  }

  // ---------------------------------------------------------------- spacing of probes

  /** From step `i` to `k` the strategy of version `version` is only waited for: no reset, and no
      answer recorded. */
  ghost predicate Quiet(events: seq<Event>, i: nat, k: nat) {
    i <= k <= |events| && forall m :: i <= m < k ==> QuietStep(StatusAfter(events[..m]), events[m])
  }

  predicate QuietStep(st: Status, e: Event) {
    !Resets(st, e) && !(Recorded(st, e) && Asked(st, e))
  }

  lemma {:induction false} QuietKeeps(st: Status, e: Event)
    requires QuietStep(st, e) && st.failures.Some?
    ensures After(st, e) == st
  {
    hide Delay;
  }

  lemma {:induction false} DeadlineKept(events: seq<Event>, i: nat, k: nat)
    requires Quiet(events, i, k) && StatusAfter(events[..i]).failures.Some?
    ensures StatusAfter(events[..k]) == StatusAfter(events[..i])
    decreases k
  {
    if i < k {
      hide StatusAfter, After, QuietStep;
      DeadlineKept(events, i, k - 1);
      assert QuietStep(StatusAfter(events[..k - 1]), events[k - 1]);
      assert events[..k] == events[..k - 1] + [events[k - 1]];
      Unfold(events[..k - 1], events[k - 1]);
      QuietKeeps(StatusAfter(events[..k - 1]), events[k - 1]);
    }
  }

  /** After a failed probe the endpoint is asked again no sooner than the backoff delay of the failures
      counted so far. */
  lemma {:induction false} ProbesAreSpaced(probes: map<string, ProbeSpec>, events: seq<Event>, i: nat, k: nat)
    requires EventsOk(probes, events) && i < k < |events|
    requires Failed(StatusAfter(events[..i]), events[i]) && Quiet(events, i + 1, k)
    requires Asked(StatusAfter(events[..k]), events[k]) && events[k].strategy.version == events[i].strategy.version
    ensures var p := probes[events[i].strategy.version];
            events[k].now >= events[i].now + Delay(Period(p), FailedSince(events[..i + 1]), Threshold(p))
  {
    hide StatusAfter, FailedSince, SucceededAt, Quiet, Delay;
    var e := events[i];
    assert EventOk(probes, e) && EventOk(probes, events[k]);
    assert events[..i + 1] == events[..i] + [e];
    assert EventsOk(probes, events[..i + 1]);
    Unfold(events[..i], e);
    InvHolds(probes, events[..i + 1]);
    DeadlineKept(events, i + 1, k);
  }

  /** The first probe of a version comes no sooner than its initial delay after the first cycle. */
  lemma {:induction false} FirstProbeWaits(probes: map<string, ProbeSpec>, events: seq<Event>, i: nat, k: nat)
    requires EventsOk(probes, events) && i < k < |events|
    requires Recorded(StatusAfter(events[..i]), events[i]) && events[i].strategy.version in probes
    requires var st, v := StatusAfter(events[..i]), events[i].strategy.version; First(st, v) && !Passed(st, v)
    requires probes[events[i].strategy.version].initialDelaySeconds > 0 && Quiet(events, i + 1, k)
    requires Asked(StatusAfter(events[..k]), events[k]) && events[k].strategy.version == events[i].strategy.version
    ensures !Asked(StatusAfter(events[..i]), events[i])
    ensures events[k].now >= events[i].now + probes[events[i].strategy.version].initialDelaySeconds
  {
    hide StatusAfter, SucceededAt, Quiet, Delay, Probe;
    var st, e := StatusAfter(events[..i]), events[i];
    assert EventOk(probes, e) && EventOk(probes, events[k]);
    assert events[..i + 1] == events[..i] + [e];
    Unfold(events[..i], e);
    AskedIff(st, e.strategy, e.now, e.answer);
    SilentCycle(st, e.strategy, e.now, e.answer);
    DeadlineKept(events, i + 1, k);
    AskedIff(StatusAfter(events[..k]), events[k].strategy, events[k].now, events[k].answer);
  }

  /** A recorded cycle gives up exactly when the failed probes since the last reset have used up the
      threshold and none has succeeded. */
  lemma {:induction false} GivesUpIff(probes: map<string, ProbeSpec>, events: seq<Event>, e: Event)
    requires EventsOk(probes, events) && EventOk(probes, e)
    requires Recorded(StatusAfter(events), e) && e.strategy.version in probes
    ensures Probe(StatusAfter(events), Some(e.strategy), e.now, e.answer).verdict == Some(ThresholdExceeded) <==>
              FailedSince(events + [e]) >= Threshold(probes[e.strategy.version]) && !StatusAfter(events + [e]).succeeded
  {
    hide StatusAfter, FailedSince, SucceededAt, EventsOk, Delay;
    Unfold(events, e);
    InvHolds(probes, events);
    InvStep(probes, events, e);
  }
}
