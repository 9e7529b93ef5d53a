/** Safety of the broker sessions under every schedule, and the end of destroy. */
module RabbitTheorems {
  import opened Common
  import opened RabbitSessions

  /*** Safety over every schedule ***/

  predicate Open(x: Session) {
    x.connected && !x.disposal.Finished?
  }

  lemma OneOpen(s: State, j: nat, k: nat)
    requires Inv(s) && j < |s.sessions| && k < |s.sessions| && Open(s.sessions[j]) && Open(s.sessions[k])
    ensures j == k
  {
    assert UnsettledOk(s, j) && UnsettledOk(s, k) && SettledOk(s, j) && SettledOk(s, k);
    assert SessionOk(s.sessions[j]) && SessionOk(s.sessions[k]);
  }

  /** At most one connected session has an unfinished disposal, and each session is closed at most once. */
  lemma SessionsAreExclusive(steps: seq<Step>, j: nat, k: nat)
    requires var s := Run(INITIAL, steps); j < |s.sessions| && k < |s.sessions|
    ensures var s := Run(INITIAL, steps);
            && (Open(s.sessions[j]) && Open(s.sessions[k]) ==> j == k)
            && s.sessions[k].closings == (if s.sessions[k].disposal.NotStarted? then 0 else 1)
  {
    hide Run;
    Reachable(steps);
    var s := Run(INITIAL, steps);
    if Open(s.sessions[j]) && Open(s.sessions[k]) {
      OneOpen(s, j, k);
    }
    assert SessionOk(s.sessions[k]);
  }

  /** A cleanup that is still pending is never replaced by another one. */
  lemma CleanupIsNeverOverwritten(steps: seq<Step>, step: Step)
    requires !CleanupDone(Run(INITIAL, steps), Run(INITIAL, steps).cleanup)
    ensures Apply(Run(INITIAL, steps), step).cleanup == Run(INITIAL, steps).cleanup
  {
    hide Run;
    Reachable(steps);
    var s := Run(INITIAL, steps);
    assert ResourceOk(s);
  }

  // A publisher publishes only on the resource it finds when it resumes.
  lemma PublishStep(s: State, step: Step, p: nat, k: nat)
    requires p in s.publishers ==> s.publishers[p] != Published(k)
    requires p in Apply(s, step).publishers && Apply(s, step).publishers[p] == Published(k)
    ensures !s.stopped && s.resource == Some(k)
  {
  }

  lemma ResourceLive(s: State, k: nat)
    requires Inv(s) && s.resource == Some(k)
    ensures k < |s.sessions| && Open(s.sessions[k])
    ensures s.sessions[k].connected && s.sessions[k].channel && !s.sessions[k].invalid
    ensures s.sessions[k].disposal.NotStarted?
  {
    assert ResourceOk(s) && SessionOk(s.sessions[k]);
  }

  /**
   A message is published only while the strategy is not stopped, on its current session, which is connected,
   valid and not being closed, and of which no other session is open.
   */
  lemma PublishesOnLiveSession(steps: seq<Step>, step: Step, p: nat, k: nat)
    requires var s := Run(INITIAL, steps);
             && (p in s.publishers ==> s.publishers[p] != Published(k))
             && p in Apply(s, step).publishers && Apply(s, step).publishers[p] == Published(k)
    ensures var s := Run(INITIAL, steps);
            && !s.stopped && s.resource == Some(k) && k < |s.sessions|
            && s.sessions[k].connected && s.sessions[k].channel && !s.sessions[k].invalid
            && s.sessions[k].disposal.NotStarted?
            && (forall j | 0 <= j < |s.sessions| && j != k :: !Open(s.sessions[j]))
  {
    hide Run, Apply, Inv;
    Reachable(steps);
    var s := Run(INITIAL, steps);
    PublishStep(s, step, p, k);
    ResourceLive(s, k);
    forall j | 0 <= j < |s.sessions| && j != k ensures !Open(s.sessions[j]) {
      if Open(s.sessions[j]) {
        OneOpen(s, j, k);
      }
    }
  }

  lemma AllFinished(s: State)
    requires Inv(s) && s.destruction.Destroyed?
    ensures forall k | 0 <= k < |s.sessions| :: s.sessions[k].disposal.Finished?
  {
    forall k | 0 <= k < |s.sessions| ensures s.sessions[k].disposal.Finished? {
      assert UnsettledOk(s, k) && SettledOk(s, k);
    }
  }

  lemma {:induction false} DestroyedStays(s: State, steps: seq<Step>)
    requires Inv(s) && s.destruction.Destroyed?
    ensures var t := Run(s, steps); t.destruction.Destroyed? && |t.sessions| == |s.sessions|
    decreases |steps|
  {
    if steps != [] {
      StepKeeps(s, steps[0]);
      OneDestroyedStep(s, steps[0]);
      DestroyedStays(Apply(s, steps[0]), steps[1..]);
    }
  }

  lemma OneDestroyedStep(s: State, step: Step)
    requires Inv(s) && s.destruction.Destroyed?
    ensures var t := Apply(s, step); t.destruction.Destroyed? && |t.sessions| == |s.sessions|
  {
  }

  /** Once destroy has finished, every session ever opened is disposed of, and no session is ever opened again. */
  lemma DestroyLeavesNothingOpen(before: seq<Step>, after: seq<Step>)
    requires Run(INITIAL, before).destruction.Destroyed?
    ensures var s := Run(INITIAL, before);
            var t := Run(s, after);
            && |t.sessions| == |s.sessions|
            && (forall k | 0 <= k < |t.sessions| :: t.sessions[k].disposal.Finished?)
  {
    hide Run, Inv;
    Reachable(before);
    var s := Run(INITIAL, before);
    DestroyedStays(s, after);
    RunKeeps(s, after);
    AllFinished(Run(s, after));
  }

  /*** What a stop prevents and what destroy reports ***/

  // No session is new, none begins to connect, and none becomes the live one.
  predicate NothingBegins(s: State, t: State) {
    && t.stopped && |t.sessions| == |s.sessions|
    && (forall k | 0 <= k < |t.sessions| :: t.sessions[k].phase.Connecting? ==> s.sessions[k].phase.Connecting?)
    && (t.resource.Some? ==> t.resource == s.resource)
  }

  lemma StoppedStep(s: State, step: Step)
    requires s.stopped
    ensures NothingBegins(s, Apply(s, step))
  {
  }

  lemma {:induction false} StoppedRun(s: State, steps: seq<Step>)
    requires s.stopped
    ensures NothingBegins(s, Run(s, steps))
    decreases |steps|
  {
    hide Apply;
    if steps != [] {
      StoppedStep(s, steps[0]);
      StoppedRun(Apply(s, steps[0]), steps[1..]);
    }
  }

  /** From a stop on no session is created, no session begins to connect and none becomes the live one. */
  lemma StoppedBeginsNothing(before: seq<Step>, after: seq<Step>)
    requires Run(INITIAL, before).stopped
    ensures var s, t := Run(INITIAL, before), Run(Run(INITIAL, before), after);
            && t.stopped && |t.sessions| == |s.sessions|
            && (forall k | 0 <= k < |t.sessions| :: t.sessions[k].phase.Connecting? ==> s.sessions[k].phase.Connecting?)
            && (t.resource.Some? ==> t.resource == s.resource)
  {
    hide Run;
    StoppedRun(Run(INITIAL, before), after);
  }

  // Destroy has given up session k, or had none to give up, and will report how its closing ends.
  predicate WillReport(s: State, k: Option<nat>) {
    && (k.Some? ==> k.value < |s.sessions|)
    && match s.destruction
       case AwaitDispose(j) => k == Some(j)
       case AwaitLast(_) => k.Some? ==> s.sessions[k.value].disposal == Finished(true)
       case Destroyed(ok) => if k.Some? then s.sessions[k.value].disposal == Finished(ok) else ok
       case _ => false
  }

  lemma StepReports(s: State, step: Step, k: Option<nat>)
    requires WillReport(s, k)
    ensures WillReport(Apply(s, step), k)
  {
  }

  lemma {:induction false} RunReports(s: State, steps: seq<Step>, k: Option<nat>)
    requires WillReport(s, k)
    ensures WillReport(Run(s, steps), k)
    decreases |steps|
  {
    hide Apply, WillReport;
    if steps != [] {
      StepReports(s, steps[0], k);
      RunReports(Apply(s, steps[0]), steps[1..], k);
    }
  }

  /**
   Destroy, once the initialization it awaits has settled, gives up the live session; whenever it finishes, it reports
   how the closing of that session ended, and success if there was none.
   */
  lemma DestroyReportsTheClosing(before: seq<Step>, after: seq<Step>)
    requires var s := Run(INITIAL, before); s.destruction.AwaitInit? && InitDone(s, s.destruction.init)
    requires Run(Apply(Run(INITIAL, before), ResumeDestroy), after).destruction.Destroyed?
    ensures var s := Run(INITIAL, before);
            var t := Run(Apply(s, ResumeDestroy), after);
            match s.resource
            case None => t.destruction == Destroyed(true)
            case Some(k) => k < |t.sessions| && t.sessions[k].disposal == Finished(t.destruction.ok)
  {
    hide Run;
    Reachable(before);
    var s := Run(INITIAL, before);
    assert ResourceOk(s);
    RunReports(Apply(s, ResumeDestroy), after, s.resource);
  }

  /*** Destroy comes to an end ***/

  function PhaseRank(p: Phase): nat {
    match p
    case AwaitCleanup(_) => 6
    case Connecting => 5
    case OpeningChannel => 4
    case Asserting => 3
    case Abandoning => 1
    case _ => 0
  }

  function SessionRank(x: Session): nat {
    PhaseRank(x.phase) + (match x.disposal case NotStarted => 2 case Running => 1 case Finished(_) => 0)
  }

  function TotalRank(xs: seq<Session>): nat {
    if xs == [] then 0 else SessionRank(xs[0]) + TotalRank(xs[1..])
  }

  function Rank(s: State): nat {
    TotalRank(s.sessions) + DestructionRank(s.destruction)
  }

  function DestructionRank(d: Destruction): nat {
    match d
    case Alive => 4
    case AwaitInit(_) => 3
    case AwaitDispose(_) => 2
    case AwaitLast(_) => 1
    case Destroyed(_) => 0
  }

  lemma {:induction false} PutRank(xs: seq<Session>, k: nat, x: Session)
    requires k < |xs|
    ensures TotalRank(xs[k := x]) + SessionRank(xs[k]) == TotalRank(xs) + SessionRank(x)
  {
    if k == 0 {
      assert xs[k := x][1..] == xs[1..];
    } else {
      assert xs[k := x][1..] == xs[1..][k - 1 := x];
      PutRank(xs[1..], k - 1, x);
    }
  }

  // The steps of the strategy and the broker's answers, as opposed to new emits, events and destroy itself.
  predicate Internal(step: Step) {
    !step.Emit? && !step.Resume? && !step.BrokerEvent? && !step.Destroy?
  }

  // The session a step works on.
  function Touched(s: State, step: Step): nat {
    match step
    case Emit(_) => 0
    case Resume(_) => 0
    case Destroy => 0
    case ResumeDestroy => if s.resource.Some? then s.resource.value else 0
    case _ => step.k
  }

  lemma OneSessionRank(s: State, step: Step)
    requires Inv(s) && s.stopped
    ensures |Apply(s, step).sessions| == |s.sessions|
    ensures var k := Touched(s, step);
            if k < |s.sessions|
            then Apply(s, step).sessions == s.sessions[k := Apply(s, step).sessions[k]]
                 && SessionRank(Apply(s, step).sessions[k]) <= SessionRank(s.sessions[k])
                 && (Apply(s, step).sessions != s.sessions && !step.BrokerEvent? ==>
                       SessionRank(Apply(s, step).sessions[k]) < SessionRank(s.sessions[k]))
            else Apply(s, step).sessions == s.sessions
  {
    hide PublishersOk, UnsettledOk, SettledOk;
    if Touched(s, step) < |s.sessions| {
      assert SessionOk(s.sessions[Touched(s, step)]);
    }
  }

  lemma OtherFields(s: State, step: Step)
    requires s.stopped && !s.destruction.Alive?
    ensures var t := Apply(s, step);
            && DestructionRank(t.destruction) <= DestructionRank(s.destruction)
            && (Internal(step) && t.sessions == s.sessions && t != s ==>
                  DestructionRank(t.destruction) < DestructionRank(s.destruction))
  {
  }

  /** After destroy has begun no step raises the rank, and every internal step that does anything lowers it. */
  lemma RankFalls(s: State, step: Step)
    requires Inv(s) && s.stopped
    ensures Rank(Apply(s, step)) <= Rank(s)
    ensures Internal(step) && Apply(s, step) != s ==> Rank(Apply(s, step)) < Rank(s)
  {
    hide SessionsOk, PublishersOk, Apply, SessionRank;
    OneSessionRank(s, step);
    OtherFields(s, step);
    var k := Touched(s, step);
    if k < |s.sessions| {
      PutRank(s.sessions, k, Apply(s, step).sessions[k]);
    }
  }

  // The answer a destroy that has not finished is waiting for.
  function Awaited(s: State): Step {
    match s.destruction
    case AwaitInit(i) =>
      if i.Some? && i.value < |s.sessions| && !Settled(s.sessions[i.value]) then
        var k := i.value;
        match s.sessions[k].phase
        case AwaitCleanup(c) => if c.Some? && !CleanupDone(s, c) then DisposalDone(c.value, true) else AfterCleanup(k)
        case Connecting => Connected(k, true)
        case OpeningChannel => ChannelOpened(k, true)
        case Asserting => ExchangeAsserted(k, true)
        case _ => if s.sessions[k].disposal.Finished? then Abandoned(k) else DisposalDone(k, true)
      else ResumeDestroy
    case AwaitDispose(k) =>
      if k < |s.sessions| && s.sessions[k].disposal.Running? then DisposalDone(k, true) else ResumeDestroy
    case AwaitLast(c) => if c.Some? && !CleanupDone(s, c) then DisposalDone(c.value, true) else ResumeDestroy
    case _ => ResumeDestroy
  }

  /** A destroy that has not finished always waits for an answer that is due and moves it on: it cannot deadlock. */
  lemma DestroyIsNeverStuck(s: State)
    requires Inv(s) && s.stopped && !s.destruction.Destroyed?
    ensures Internal(Awaited(s)) && Apply(s, Awaited(s)) != s
  {
    var t := Apply(s, Awaited(s));
    if s.initialization.Some? {
      var k := s.initialization.value;
      assert UnsettledOk(s, k) && SessionOk(s.sessions[k]);
    }
    if s.destruction.AwaitInit? && s.destruction.init.Some? {
      var k := s.destruction.init.value;
      assert UnsettledOk(s, k) && SessionOk(s.sessions[k]);
      assert k < |t.sessions|;
    }
    if s.cleanup.Some? {
      assert SessionOk(s.sessions[s.cleanup.value]);
      assert s.cleanup.value < |t.sessions|;
    }
    if s.destruction.AwaitDispose? {
      assert s.destruction.session < |t.sessions|;
    }
  }

  // The schedule in which the broker gives the awaited answers.
  ghost function Ending(s: State): (steps: seq<Step>)
    requires Inv(s) && s.stopped
    ensures Run(s, steps).destruction.Destroyed?
    decreases Rank(s)
  {
    if s.destruction.Destroyed? then []
    else
      DestroyIsNeverStuck(s);
      RankFalls(s, Awaited(s));
      StepKeeps(s, Awaited(s));
      var t := Apply(s, Awaited(s));
      assert t.stopped;
      var rest := Ending(t);
      assert ([Awaited(s)] + rest)[1..] == rest;
      [Awaited(s)] + rest
  }

  /**
   Whatever happened before and whatever emits and events come in between, destroy finishes as soon as the
   awaited answers have arrived: from every stopped state some schedule of answers completes it, and all
   schedules together contain at most Rank(s) effective internal steps.
   */
  lemma DestroyFinishes(before: seq<Step>) returns (after: seq<Step>)
    requires Run(INITIAL, before).stopped
    ensures Run(Run(INITIAL, before), after).destruction.Destroyed?
  {
    hide Run, Inv;
    Reachable(before);
    after := Ending(Run(INITIAL, before));
  }

  function Effective(s: State, steps: seq<Step>): nat
    decreases |steps|
  {
    if steps == [] then 0
    else
      (if Internal(steps[0]) && Apply(s, steps[0]) != s then 1 else 0) + Effective(Apply(s, steps[0]), steps[1..])
  }

  lemma {:induction false} EffectiveStepsAreBounded(s: State, steps: seq<Step>)
    requires Inv(s) && s.stopped
    ensures Effective(s, steps) + Rank(Run(s, steps)) <= Rank(s)
    decreases |steps|
  {
    hide Inv, Rank, Internal, Apply;
    if steps != [] {
      RankFalls(s, steps[0]);
      StepKeeps(s, steps[0]);
      StoppedStays(s, steps[0]);
      EffectiveStepsAreBounded(Apply(s, steps[0]), steps[1..]);
    }
  }

  lemma StoppedStays(s: State, step: Step)
    requires s.stopped
    ensures Apply(s, step).stopped
  {
  }
}
