/** What becomes of an emit: when it is published, on which session, and for which reasons it fails. */
module RabbitLiveness {
  import opened Common
  import opened RabbitSessions
  import opened RabbitTheorems

  lemma {:induction false} RunAppend(s: State, before: seq<Step>, after: seq<Step>)
    ensures Run(s, before + after) == Run(Run(s, before), after)
    decreases |before|
  {
    hide Apply;
    if before == [] {
      assert before + after == after;
    } else {
      assert (before + after)[0] == before[0] && (before + after)[1..] == before[1..] + after;
      RunAppend(Apply(s, before[0]), before[1..], after);
    }
  }

  lemma RunOne(s: State, step: Step)
    ensures Run(s, [step]) == Apply(s, step)
  {
    hide Apply;
    assert Run(s, [step]) == Run(Apply(s, step), [step][1..]);
  }

  lemma RunTwo(s: State, a: Step, b: Step)
    ensures Run(s, [a, b]) == Apply(Apply(s, a), b)
  {
    hide Apply;
    assert [a, b] == [a] + [b];
    RunAppend(s, [a], [b]);
    RunOne(s, a);
    RunOne(Apply(s, a), b);
  }

  /*** On a live session ***/

  /** While a session is live, an emit is published on it at once. */
  lemma EmitsOnLiveSession(steps: seq<Step>, p: nat)
    requires var s := Run(INITIAL, steps);
             !s.stopped && s.resource.Some? && s.initialization.None? && p !in s.publishers
    ensures var s := Run(INITIAL, steps);
            var t := Run(s, [Emit(p), Resume(p)]);
            t == s.(publishers := s.publishers[p := Published(s.resource.value)])
  {
    hide Run;
    var s := Run(INITIAL, steps);
    RunTwo(s, Emit(p), Resume(p));
    assert s.publishers[p := Ready(s.resource.value)][p := Published(s.resource.value)]
           == s.publishers[p := Published(s.resource.value)];
  }

  /*** Joining a running initialization ***/

  predicate WaitsFor(s: State, p: nat, k: nat) {
    p in s.publishers && s.publishers[p] == Waiting(k, false)
  }

  lemma StepWaits(s: State, step: Step, p: nat, k: nat)
    requires WaitsFor(s, p, k) && step != Resume(p)
    ensures WaitsFor(Apply(s, step), p, k)
  {
  }

  lemma {:induction false} RunWaits(s: State, steps: seq<Step>, p: nat, k: nat)
    requires WaitsFor(s, p, k) && Resume(p) !in steps
    ensures WaitsFor(Run(s, steps), p, k)
    decreases |steps|
  {
    hide Apply, WaitsFor;
    if steps != [] {
      StepWaits(s, steps[0], p, k);
      RunWaits(Apply(s, steps[0]), steps[1..], p, k);
    }
  }

  lemma WaiterPublishes(s: State, p: nat, k: nat)
    requires WaitsFor(s, p, k) && k < |s.sessions| && s.sessions[k].phase.Resolved?
    requires !s.stopped && s.resource == Some(k)
    ensures var t := Run(s, [Resume(p), Resume(p)]);
            p in t.publishers && t.publishers[p] == Published(k)
  {
    RunTwo(s, Resume(p), Resume(p));
  }

  /**
   An emit that finds an initialization running is published on its session, whatever happens until it resumes, if
   the initialization has resolved by then and its session still is the live one of a running strategy.
   */
  lemma EmitsOnJoinedSession(before: seq<Step>, p: nat, between: seq<Step>)
    requires var s := Run(INITIAL, before);
             !s.stopped && s.initialization.Some? && p !in s.publishers && Resume(p) !in between
    requires var s := Run(INITIAL, before);
             var t := Run(Apply(s, Emit(p)), between);
             var k := s.initialization.value;
             !t.stopped && t.resource == Some(k) && k < |t.sessions| && t.sessions[k].phase.Resolved?
    ensures var s := Run(INITIAL, before);
            var u := Run(Run(Apply(s, Emit(p)), between), [Resume(p), Resume(p)]);
            p in u.publishers && u.publishers[p] == Published(s.initialization.value)
  {
    hide Run;
    var s := Run(INITIAL, before);
    RunWaits(Apply(s, Emit(p)), between, p, s.initialization.value);
    WaiterPublishes(Run(Apply(s, Emit(p)), between), p, s.initialization.value);
  }

  /*** On a new session ***/

  // The answers that bring session k from its start to the live session.
  function Answers(k: nat): seq<Step> {
    [AfterCleanup(k)] + [Connected(k, true)] + [ChannelOpened(k, true)] + [ExchangeAsserted(k, true)]
  }

  // An emit, the end of a pending cleanup, the broker's answers, and the emit again.
  function EmitAndAnswers(s: State, p: nat, ok: bool): seq<Step> {
    [Emit(p)]
    + (if CleanupDone(s, s.cleanup) then [] else [DisposalDone(s.cleanup.value, ok)])
    + Answers(|s.sessions|) + [Resume(p), Resume(p)]
  }

  // Session k of an unstopped strategy is on its way, for publisher p, with nothing left to clean up.
  predicate Underway(s: State, p: nat, k: nat, phase: Phase) {
    && !s.stopped && s.initialization == Some(k) && |s.sessions| == k + 1
    && s.sessions[k].phase == phase && !s.sessions[k].invalid
    && CleanupDone(s, s.cleanup)
    && p in s.publishers && s.publishers[p] == Waiting(k, true)
  }

  lemma Starts(s: State, p: nat, ok: bool)
    requires Inv(s) && !s.stopped && s.resource.None? && s.initialization.None? && p !in s.publishers
    ensures var cleaned := if CleanupDone(s, s.cleanup) then [] else [DisposalDone(s.cleanup.value, ok)];
            Underway(Run(s, [Emit(p)] + cleaned), p, |s.sessions|, AwaitCleanup(s.cleanup))
  {
    var t := Apply(s, Emit(p));
    RunOne(s, Emit(p));
    if CleanupDone(s, s.cleanup) {
      assert [Emit(p)] + [] == [Emit(p)];
    } else {
      assert SessionsOk(s) && SessionOk(s.sessions[s.cleanup.value]);
      RunAppend(s, [Emit(p)], [DisposalDone(s.cleanup.value, ok)]);
      RunOne(t, DisposalDone(s.cleanup.value, ok));
    }
  }

  lemma Advances(s: State, steps: seq<Step>, step: Step, p: nat, k: nat, phase: Phase, next: Phase)
    requires Underway(Run(s, steps), p, k, phase)
    requires || (phase.AwaitCleanup? && CleanupDone(Run(s, steps), phase.cleanup) && step == AfterCleanup(k)
                 && next == Connecting)
             || (phase == Connecting && step == Connected(k, true) && next == OpeningChannel)
             || (phase == OpeningChannel && step == ChannelOpened(k, true) && next == Asserting)
             || (phase == Asserting && step == ExchangeAsserted(k, true) && next == Resolved)
    ensures Underway(Run(s, steps + [step]), p, k, next)
    ensures Run(s, steps + [step]).cleanup == Run(s, steps).cleanup
    ensures next == Resolved ==> Run(s, steps + [step]).resource == Some(k)
  {
    hide Run;
    RunAppend(s, steps, [step]);
    RunOne(Run(s, steps), step);
  }

  lemma CreatorPublishes(s: State, p: nat, k: nat)
    requires Underway(s, p, k, Resolved) && s.resource == Some(k)
    ensures var t := Run(s, [Resume(p), Resume(p)]);
            && p in t.publishers && t.publishers[p] == Published(k)
            && t.resource == Some(k) && t.initialization.None?
  {
    RunTwo(s, Resume(p), Resume(p));
  }

  lemma AnswersLead(s: State, p: nat, ok: bool)
    requires Inv(s) && !s.stopped && s.resource.None? && s.initialization.None? && p !in s.publishers
    ensures var t := Run(s, EmitAndAnswers(s, p, ok));
            && p in t.publishers && t.publishers[p] == Published(|s.sessions|)
            && t.resource == Some(|s.sessions|) && t.initialization.None?
  {
    hide Run, Inv, EmitAndAnswers, Answers;
    var k := |s.sessions|;
    var a0 := [Emit(p)] + (if CleanupDone(s, s.cleanup) then [] else [DisposalDone(s.cleanup.value, ok)]);
    Starts(s, p, ok);
    StartCleanup(s, p, ok);
    Advances(s, a0, AfterCleanup(k), p, k, AwaitCleanup(s.cleanup), Connecting);
    var a1 := a0 + [AfterCleanup(k)];
    Advances(s, a1, Connected(k, true), p, k, Connecting, OpeningChannel);
    var a2 := a1 + [Connected(k, true)];
    Advances(s, a2, ChannelOpened(k, true), p, k, OpeningChannel, Asserting);
    var a3 := a2 + [ChannelOpened(k, true)];
    Advances(s, a3, ExchangeAsserted(k, true), p, k, Asserting, Resolved);
    var a4 := a3 + [ExchangeAsserted(k, true)];
    CreatorPublishes(Run(s, a4), p, k);
    RunAppend(s, a4, [Resume(p), Resume(p)]);
    StepsInOrder(s, p, ok, a0);
  }

  lemma StepsInOrder(s: State, p: nat, ok: bool, first: seq<Step>)
    requires first == [Emit(p)] + (if CleanupDone(s, s.cleanup) then [] else [DisposalDone(s.cleanup.value, ok)])
    ensures var k := |s.sessions|;
            EmitAndAnswers(s, p, ok)
            == first + [AfterCleanup(k)] + [Connected(k, true)] + [ChannelOpened(k, true)] + [ExchangeAsserted(k, true)]
               + [Resume(p), Resume(p)]
  {
  }

  lemma StartCleanup(s: State, p: nat, ok: bool)
    requires Inv(s) && s.initialization.None? && s.resource.None? && !s.stopped && p !in s.publishers
    ensures var cleaned := if CleanupDone(s, s.cleanup) then [] else [DisposalDone(s.cleanup.value, ok)];
            Run(s, [Emit(p)] + cleaned).cleanup == s.cleanup
  {
    RunOne(s, Emit(p));
    if CleanupDone(s, s.cleanup) {
      assert [Emit(p)] + [] == [Emit(p)];
    } else {
      RunAppend(s, [Emit(p)], [DisposalDone(s.cleanup.value, ok)]);
      RunOne(Apply(s, Emit(p)), DisposalDone(s.cleanup.value, ok));
    }
  }

  /**
   With neither a session nor an initialization, an emit waits for the pending cleanup, however that ends, and the
   broker's positive answers then publish it on a new session.
   */
  lemma EmitsOnNewSession(steps: seq<Step>, p: nat, ok: bool)
    requires var s := Run(INITIAL, steps);
             !s.stopped && s.resource.None? && s.initialization.None? && p !in s.publishers
    ensures var s := Run(INITIAL, steps);
            var t := Run(s, EmitAndAnswers(s, p, ok));
            && p in t.publishers && t.publishers[p] == Published(|s.sessions|)
            && t.resource == Some(|s.sessions|)
  {
    hide *;
    Reachable(steps);
    AnswersLead(Run(INITIAL, steps), p, ok);
  }

  lemma EventTakes(s: State, k: nat)
    requires Inv(s) && !s.stopped && s.resource == Some(k) && s.initialization.None?
    ensures var t := Apply(s, BrokerEvent(k));
            && !t.stopped && t.resource.None? && t.initialization.None? && t.publishers == s.publishers
            && |t.sessions| == |s.sessions|
  {
    ResourceLive(s, k);
  }

  /** After a broker event has taken the live session, the next emit is published on another one. */
  lemma ReconnectsAfterEvent(steps: seq<Step>, k: nat, p: nat, ok: bool)
    requires var s := Run(INITIAL, steps);
             !s.stopped && s.resource == Some(k) && s.initialization.None? && p !in s.publishers
    ensures var s := Run(INITIAL, steps);
            var lost := Apply(s, BrokerEvent(k));
            var t := Run(lost, EmitAndAnswers(lost, p, ok));
            && p in t.publishers && t.publishers[p] == Published(|s.sessions|) && k < |s.sessions|
  {
    hide *;
    var s := Run(INITIAL, steps);
    Reachable(steps);
    StepKeeps(s, BrokerEvent(k));
    EventTakes(s, k);
    ResourceLive(s, k);
    AnswersLead(Apply(s, BrokerEvent(k)), p, ok);
  }

  /*** Negative answers ***/

  // A negative answer to what the session is waiting for.
  predicate Negative(phase: Phase, step: Step, k: nat) {
    || (phase == Connecting && step == Connected(k, false))
    || (phase == OpeningChannel && step == ChannelOpened(k, false))
    || (phase == Asserting && step == ExchangeAsserted(k, false))
  }

  // Session k of an unstopped strategy is given up, for publisher p, which still waits.
  predicate GivenUp(s: State, p: nat, k: nat, disposal: Disposal, phase: Phase) {
    && !s.stopped && s.initialization == Some(k) && s.resource.None? && k < |s.sessions|
    && s.sessions[k].phase == phase && s.sessions[k].disposal == disposal && s.sessions[k].closings == 1
    && p in s.publishers && s.publishers[p] == Waiting(k, true)
  }

  lemma GivesUp(s: State, p: nat, k: nat, step: Step)
    requires Inv(s) && !s.stopped && s.initialization == Some(k) && k < |s.sessions|
    requires Negative(s.sessions[k].phase, step, k)
    requires p in s.publishers && s.publishers[p] == Waiting(k, true)
    ensures GivenUp(Apply(s, step), p, k, Running, Abandoning)
  {
    assert SessionsOk(s) && UnsettledOk(s, k) && SessionOk(s.sessions[k]);
  }

  lemma GivenUpEnds(s: State, p: nat, k: nat, ok: bool)
    requires GivenUp(s, p, k, Running, Abandoning)
    ensures var t := Run(s, [DisposalDone(k, ok), Abandoned(k)] + [Resume(p)]);
            && p in t.publishers && t.publishers[p] == Failed
            && t.resource.None? && t.initialization.None? && !t.stopped
            && k < |t.sessions| && t.sessions[k].phase.Rejected? && t.sessions[k].closings == 1
  {
    RunTwo(s, DisposalDone(k, ok), Abandoned(k));
    var mid := Apply(Apply(s, DisposalDone(k, ok)), Abandoned(k));
    assert GivenUp(Apply(s, DisposalDone(k, ok)), p, k, Finished(ok), Abandoning);
    assert GivenUp(mid, p, k, Finished(ok), Rejected);
    RunAppend(s, [DisposalDone(k, ok), Abandoned(k)], [Resume(p)]);
    RunOne(mid, Resume(p));
  }

  /**
   A negative answer of the broker closes the session once, rejects the initialization when the closing has ended in
   any way, and fails the emit that started it; the next emit can start another one.
   */
  lemma NegativeAnswersFail(steps: seq<Step>, p: nat, k: nat, step: Step, ok: bool)
    requires var s := Run(INITIAL, steps);
             && !s.stopped && s.initialization == Some(k) && k < |s.sessions| && Negative(s.sessions[k].phase, step, k)
             && p in s.publishers && s.publishers[p] == Waiting(k, true)
    ensures var s := Run(INITIAL, steps);
            var t := Run(Apply(s, step), [DisposalDone(k, ok), Abandoned(k)] + [Resume(p)]);
            && p in t.publishers && t.publishers[p] == Failed
            && t.resource.None? && t.initialization.None? && !t.stopped
            && k < |t.sessions| && t.sessions[k].phase.Rejected? && t.sessions[k].closings == 1
  {
    hide Run, Inv, Apply, GivenUp;
    Reachable(steps);
    GivesUp(Run(INITIAL, steps), p, k, step);
    GivenUpEnds(Apply(Run(INITIAL, steps), step), p, k, ok);
  }

  /*** Failing ***/

  /**
   An emit fails only because the strategy is stopped, its initialization was rejected, or its session is no longer
   the live one when it is about to publish.
   */
  lemma FailsOnlyIf(s: State, step: Step, p: nat)
    requires p in Apply(s, step).publishers && Apply(s, step).publishers[p] == Failed
    requires p in s.publishers ==> s.publishers[p] != Failed
    ensures if p !in s.publishers then step == Emit(p) && s.stopped
            else
              && step == Resume(p)
              && match s.publishers[p]
                 case Waiting(k, _) => k < |s.sessions| && s.sessions[k].phase.Rejected?
                 case Ready(k) => s.stopped || s.resource != Some(k)
                 case _ => false
  {
  }

  /*** Lost sessions ***/

  // A session that will never be the live one again.
  predicate Lost(s: State, k: nat) {
    k < |s.sessions| && s.sessions[k].invalid && s.resource != Some(k)
  }

  lemma StepLost(s: State, step: Step, k: nat)
    requires Lost(s, k)
    ensures Lost(Apply(s, step), k)
  {
  }

  lemma {:induction false} RunLost(s: State, steps: seq<Step>, k: nat)
    requires Lost(s, k)
    ensures Lost(Run(s, steps), k)
    decreases |steps|
  {
    hide Apply, Lost;
    if steps != [] {
      StepLost(s, steps[0], k);
      RunLost(Apply(s, steps[0]), steps[1..], k);
    }
  }

  lemma EventLoses(s: State, k: nat)
    requires k < |s.sessions| && s.sessions[k].connected
    ensures Lost(Apply(s, BrokerEvent(k)), k)
  {
  }

  /** After an error or close event of a connected session nothing is ever published on it again. */
  lemma EventsEndASession(before: seq<Step>, k: nat, after: seq<Step>, step: Step, p: nat)
    requires var s := Run(INITIAL, before); k < |s.sessions| && s.sessions[k].connected
    requires var t := Run(Apply(Run(INITIAL, before), BrokerEvent(k)), after);
             p in t.publishers ==> t.publishers[p] != Published(k)
    ensures var u := Apply(Run(Apply(Run(INITIAL, before), BrokerEvent(k)), after), step);
            p in u.publishers ==> u.publishers[p] != Published(k)
  {
    hide Run, Apply;
    var s := Run(INITIAL, before);
    EventLoses(s, k);
    RunLost(Apply(s, BrokerEvent(k)), after, k);
    var t := Run(Apply(s, BrokerEvent(k)), after);
    assert t.resource != Some(k);
    if p in Apply(t, step).publishers && Apply(t, step).publishers[p] == Published(k) {
      PublishStep(t, step, p, k);
    }
  }
}
