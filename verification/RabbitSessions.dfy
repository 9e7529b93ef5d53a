/**
 Broker sessions of the RabbitMQ event strategy. Every await is a preemption point, so a run is any sequence of
 the steps below: emits, resumed awaits with the broker's answers, connection events and destroy. Session k is
 the session object, with its one channel, of the k-th call of initialize.
 */
module RabbitSessions {
  import opened Common

  datatype Disposal = NotStarted | Running | Finished(ok: bool)

  // Where a call of initialize stands; it holds the cleanup promise it awaits.
  datatype Phase =
    | AwaitCleanup(cleanup: Option<nat>)
    | Connecting
    | OpeningChannel
    | Asserting
    | Abandoning
    | Resolved
    | Rejected

  // closings counts how often the session's connection and channel were told to close.
  datatype Session = Session(
    phase: Phase,
    connected: bool,
    channel: bool,
    invalid: bool,
    disposal: Disposal,
    closings: nat
  )

  datatype Publisher =
    | Waiting(session: nat, creator: bool)
    | Ready(session: nat)
    | Published(session: nat)
    | Failed

  datatype Destruction =
    | Alive
    | AwaitInit(init: Option<nat>)
    | AwaitDispose(session: nat)
    | AwaitLast(cleanup: Option<nat>)
    | Destroyed(ok: bool)

  // A promise of cleanup is the disposal of a session, or resolved from the start.
  datatype State = State(
    resource: Option<nat>,
    initialization: Option<nat>,
    cleanup: Option<nat>,
    stopped: bool,
    destruction: Destruction,
    sessions: seq<Session>,
    publishers: map<nat, Publisher>
  )

  const INITIAL: State := State(None, None, None, false, Alive, [], map[])

  datatype Step =
    | Emit(p: nat)
    | Resume(p: nat)
    | AfterCleanup(k: nat)
    | Connected(k: nat, ok: bool)
    | ChannelOpened(k: nat, ok: bool)
    | ExchangeAsserted(k: nat, ok: bool)
    | DisposalDone(k: nat, ok: bool)
    | Abandoned(k: nat)
    | BrokerEvent(k: nat)
    | Destroy
    | ResumeDestroy

  /*** Promises ***/

  predicate Settled(x: Session) {
    x.phase.Resolved? || x.phase.Rejected?
  }

  predicate InitDone(s: State, i: Option<nat>) {
    i.Some? && i.value < |s.sessions| ==> Settled(s.sessions[i.value])
  }

  predicate CleanupDone(s: State, c: Option<nat>) {
    c.Some? && c.value < |s.sessions| ==> s.sessions[c.value].disposal.Finished?
  }

  /*** Segments between awaits ***/

  /** Disposing marks the session invalid and closes it once; later calls share the first disposal. */
  function Dispose(x: Session): Session {
    x.(invalid := true,
       disposal := if x.disposal.NotStarted? then Running else x.disposal,
       closings := if x.disposal.NotStarted? then x.closings + 1 else x.closings)
  }

  // Abandoning an initialization disposes of its session.
  function Abandon(x: Session): Session {
    Dispose(x).(phase := Abandoning)
  }

  function Put(s: State, k: nat, x: Session): State
    requires k < |s.sessions|
  {
    s.(sessions := s.sessions[k := x])
  }

  /** publish up to its first await: reuse the running initialization, the resource, or start to initialize. */
  function EmitStep(s: State, p: nat): State {
    if p in s.publishers then s
    else if s.stopped then s.(publishers := s.publishers[p := Failed])
    else if s.initialization.Some? then s.(publishers := s.publishers[p := Waiting(s.initialization.value, false)])
    else if s.resource.Some? then s.(publishers := s.publishers[p := Ready(s.resource.value)])
    else
      var k := |s.sessions|;
      s.(sessions := s.sessions + [Session(AwaitCleanup(s.cleanup), false, false, false, NotStarted, 0)],
         initialization := Some(k),
         publishers := s.publishers[p := Waiting(k, true)])
  }

  /** A publisher continues: with the channel or the failure of its initialization, then with the last check. */
  function ResumeStep(s: State, p: nat): State {
    if p !in s.publishers then s
    else
      match s.publishers[p]
      case Waiting(k, creator) =>
        if k >= |s.sessions| || !Settled(s.sessions[k]) then s
        else
          s.(initialization := if creator then None else s.initialization,
             publishers := s.publishers[p := if s.sessions[k].phase.Resolved? then Ready(k) else Failed])
      case Ready(k) =>
        if s.stopped || s.resource != Some(k) then s.(publishers := s.publishers[p := Failed])
        else s.(publishers := s.publishers[p := Published(k)])
      case _ => s
  }

  /** The segments of initialize for session k. */
  function InitStep(s: State, k: nat, step: Step): State {
    if k >= |s.sessions| then s
    else
      var x := s.sessions[k];
      match (step, x.phase)
      case (AfterCleanup(_), AwaitCleanup(c)) =>
        if !CleanupDone(s, c) then s
        else Put(s, k, if s.stopped then Abandon(x) else x.(phase := Connecting))
      case (Connected(_, ok), Connecting) =>
        Put(s, k, if ok then x.(connected := true, phase := OpeningChannel) else Abandon(x))
      case (ChannelOpened(_, ok), OpeningChannel) =>
        Put(s, k, if ok then x.(channel := true, phase := Asserting) else Abandon(x))
      case (ExchangeAsserted(_, ok), Asserting) =>
        if ok && !x.invalid && !s.stopped then Put(s, k, x.(phase := Resolved)).(resource := Some(k))
        else Put(s, k, Abandon(x))
      case (Abandoned(_), Abandoning) =>
        if x.disposal.Finished? then Put(s, k, x.(phase := Rejected)) else s
      case _ => s
  }

  function DisposalStep(s: State, k: nat, ok: bool): State {
    if k < |s.sessions| && s.sessions[k].disposal.Running?
    then Put(s, k, s.sessions[k].(disposal := Finished(ok)))
    else s
  }

  /** An error or close event: the current session is given up and its disposal becomes the cleanup. */
  function BrokerStep(s: State, k: nat): State {
    if k >= |s.sessions| || !s.sessions[k].connected then s
    else if s.resource == Some(k) then
      Put(s, k, Dispose(s.sessions[k])).(resource := None, cleanup := Some(k))
    else Put(s, k, s.sessions[k].(invalid := true))
  }

  function DestroyStep(s: State): State {
    if !s.destruction.Alive? then s else s.(stopped := true, destruction := AwaitInit(s.initialization))
  }

  function ResumeDestroyStep(s: State): State {
    match s.destruction
    case AwaitInit(i) =>
      if !InitDone(s, i) then s
      else if s.resource.Some? && s.resource.value < |s.sessions| then
        var k := s.resource.value;
        Put(s, k, Dispose(s.sessions[k])).(resource := None, destruction := AwaitDispose(k))
      else s.(destruction := AwaitLast(s.cleanup))
    case AwaitDispose(k) =>
      if k < |s.sessions| && s.sessions[k].disposal.Finished? then
        s.(destruction := if s.sessions[k].disposal.ok then AwaitLast(s.cleanup) else Destroyed(false))
      else s
    case AwaitLast(c) => if CleanupDone(s, c) then s.(destruction := Destroyed(true)) else s
    case _ => s
  }

  function Apply(s: State, step: Step): State {
    match step
    case Emit(p) => EmitStep(s, p)
    case Resume(p) => ResumeStep(s, p)
    case DisposalDone(k, ok) => DisposalStep(s, k, ok)
    case BrokerEvent(k) => BrokerStep(s, k)
    case Destroy => DestroyStep(s)
    case ResumeDestroy => ResumeDestroyStep(s)
    case _ => InitStep(s, step.k, step)
  }

  function Run(s: State, steps: seq<Step>): State
    decreases |steps|
  {
    if steps == [] then s else Run(Apply(s, steps[0]), steps[1..])
  }

  /*** The invariant ***/

  // What the fields of one session say about each other.
  predicate SessionOk(x: Session) {
    && x.closings == (if x.disposal.NotStarted? then 0 else 1)
    && (!x.disposal.NotStarted? ==> x.invalid)
    && match x.phase
       case AwaitCleanup(_) => !x.connected && x.disposal.NotStarted?
       case Connecting => !x.connected && x.disposal.NotStarted?
       case OpeningChannel => x.connected && x.disposal.NotStarted?
       case Asserting => x.connected && x.channel && x.disposal.NotStarted?
       case Abandoning => !x.disposal.NotStarted?
       case Resolved => x.connected && x.channel
       case Rejected => x.disposal.Finished?
  }

  predicate Ref(s: State, r: Option<nat>) {
    r.Some? ==> r.value < |s.sessions|
  }

  predicate Quiet(s: State) {
    CleanupDone(s, s.cleanup) && !s.destruction.AwaitDispose?
  }

  // A session whose initialization has not settled is the running one, and the strategy owns no other session.
  predicate UnsettledOk(s: State, k: nat)
    requires k < |s.sessions|
  {
    !Settled(s.sessions[k]) ==>
      && s.initialization == Some(k) && s.resource.None? && !s.destruction.AwaitDispose?
      && (if s.sessions[k].phase.AwaitCleanup? then s.sessions[k].phase.cleanup == s.cleanup
          else CleanupDone(s, s.cleanup))
      && (s.stopped ==> s.destruction == AwaitInit(Some(k)))
  }

  // A settled session that is not disposed of is the resource, the pending cleanup or what destroy waits for.
  predicate SettledOk(s: State, k: nat)
    requires k < |s.sessions|
  {
    Settled(s.sessions[k]) && !s.sessions[k].disposal.Finished? ==>
      s.resource == Some(k) || s.cleanup == Some(k) || s.destruction == AwaitDispose(k)
  }

  predicate ResourceOk(s: State) {
    s.resource.Some? ==>
      && s.resource.value < |s.sessions| && Quiet(s)
      && s.sessions[s.resource.value].phase.Resolved?
      && !s.sessions[s.resource.value].invalid
      && (s.destruction.Alive? || s.destruction.AwaitInit?)
  }

  predicate DestructionOk(s: State) {
    && (s.stopped <==> !s.destruction.Alive?)
    && match s.destruction
       case Alive => true
       case AwaitInit(i) => Ref(s, i)
       case AwaitDispose(k) =>
         && k < |s.sessions| && s.resource.None? && CleanupDone(s, s.cleanup)
         && !s.sessions[k].disposal.NotStarted?
       case AwaitLast(c) => s.resource.None? && c == s.cleanup
       case Destroyed(_) => s.resource.None? && CleanupDone(s, s.cleanup)
  }

  // Only the caller that started the running initialization will clear the field.
  predicate PublisherOk(s: State, p: nat)
    requires p in s.publishers
  {
    match s.publishers[p]
    case Waiting(k, creator) => k < |s.sessions| && (creator ==> s.initialization == Some(k))
    case Ready(k) => k < |s.sessions|
    case _ => true
  }

  ghost predicate PublishersOk(s: State) {
    && (forall p | p in s.publishers :: PublisherOk(s, p))
    && (forall p, q | p in s.publishers && q in s.publishers && p != q ::
          !(Creator(s.publishers[p]) && Creator(s.publishers[q])))
  }

  predicate Creator(p: Publisher) {
    p.Waiting? && p.creator
  }

  ghost predicate SessionsOk(s: State) {
    && (forall k | 0 <= k < |s.sessions| :: SessionOk(s.sessions[k]))
    && (forall k | 0 <= k < |s.sessions| :: UnsettledOk(s, k) && SettledOk(s, k))
  }

  ghost predicate Inv(s: State) {
    && Ref(s, s.initialization)
    && (s.cleanup.Some? ==> s.cleanup.value < |s.sessions| && !s.sessions[s.cleanup.value].disposal.NotStarted?)
    && ResourceOk(s)
    && DestructionOk(s)
    && SessionsOk(s)
    && PublishersOk(s)
  }

  // Steps that leave the publishers alone.
  lemma SamePublishers(s: State, t: State)
    requires PublishersOk(s) && t.publishers == s.publishers && t.initialization == s.initialization
    requires |t.sessions| == |s.sessions|
    ensures PublishersOk(t)
  {
    forall p | p in t.publishers ensures PublisherOk(t, p) {
      assert PublisherOk(s, p);
    }
  }

  lemma EmitKeepsPublishers(s: State, p: nat)
    requires Inv(s)
    ensures PublishersOk(EmitStep(s, p))
  {
    hide SessionsOk;
    var t := EmitStep(s, p);
    forall q | q in t.publishers ensures PublisherOk(t, q) {
      if q != p {
        assert PublisherOk(s, q);
      }
    }
  }

  lemma EmitKeeps(s: State, p: nat)
    requires Inv(s)
    ensures Inv(EmitStep(s, p))
  {
    hide PublishersOk;
    var t := EmitStep(s, p);
    EmitKeepsPublishers(s, p);
    assert forall k | 0 <= k < |s.sessions| :: t.sessions[k] == s.sessions[k];
    forall k | 0 <= k < |t.sessions| ensures UnsettledOk(t, k) && SettledOk(t, k) {
      if k < |s.sessions| {
        assert UnsettledOk(s, k) && SettledOk(s, k);
      }
    }
  }

  lemma ResumeKeepsPublishers(s: State, p: nat)
    requires PublishersOk(s)
    ensures PublishersOk(ResumeStep(s, p))
  {
    var t := ResumeStep(s, p);
    forall q | q in t.publishers ensures PublisherOk(t, q) {
      assert PublisherOk(s, q);
      if q != p && p in s.publishers && Creator(s.publishers[p]) {
        assert !Creator(s.publishers[q]);
      }
    }
  }

  lemma ResumeKeepsAt(s: State, p: nat, j: nat)
    requires Inv(s) && j < |s.sessions|
    ensures UnsettledOk(ResumeStep(s, p), j) && SettledOk(ResumeStep(s, p), j)
  {
    if p in s.publishers {
      assert PublisherOk(s, p);
    }
    assert UnsettledOk(s, j) && SettledOk(s, j);
    hide PublishersOk, SessionsOk;
  }

  lemma ResumeKeepsControl(s: State, p: nat)
    requires Inv(s)
    ensures var t := ResumeStep(s, p);
            && Ref(t, t.initialization) && ResourceOk(t) && DestructionOk(t)
            && t.sessions == s.sessions && t.cleanup == s.cleanup
  {
    hide PublishersOk, SessionsOk;
  }

  lemma ResumeKeeps(s: State, p: nat)
    requires Inv(s)
    ensures Inv(ResumeStep(s, p))
  {
    ResumeKeepsPublishers(s, p);
    ResumeKeepsControl(s, p);
    hide ResumeStep, PublishersOk, ResourceOk, DestructionOk, SessionOk, UnsettledOk, SettledOk;
    var t := ResumeStep(s, p);
    forall j | 0 <= j < |t.sessions| ensures UnsettledOk(t, j) && SettledOk(t, j) {
      ResumeKeepsAt(s, p, j);
    }
  }

  lemma InitKeepsControl(s: State, k: nat, step: Step)
    requires Inv(s)
    ensures var t := InitStep(s, k, step);
            && ResourceOk(t) && DestructionOk(t)
            && (t.cleanup.Some? ==>
                  t.cleanup.value < |t.sessions| && !t.sessions[t.cleanup.value].disposal.NotStarted?)
            && (k < |s.sessions| ==> SessionOk(t.sessions[k]))
  {
    hide PublishersOk, SettledOk;
    if k < |s.sessions| {
      assert UnsettledOk(s, k) && SessionOk(s.sessions[k]);
    }
  }

  lemma SessionAt(s: State, j: nat)
    requires SessionsOk(s) && j < |s.sessions|
    ensures SessionOk(s.sessions[j]) && UnsettledOk(s, j) && SettledOk(s, j)
  {
  }

  lemma InitKeepsOwn(s: State, k: nat, step: Step)
    requires Inv(s) && k < |s.sessions|
    ensures UnsettledOk(InitStep(s, k, step), k) && SettledOk(InitStep(s, k, step), k)
  {
    SessionAt(s, k);
    hide PublishersOk, SessionsOk, ResourceOk;
  }

  lemma InitKeepsOther(s: State, k: nat, step: Step, j: nat)
    requires Inv(s) && k < |s.sessions| && j < |s.sessions| && j != k
    ensures UnsettledOk(InitStep(s, k, step), j) && SettledOk(InitStep(s, k, step), j)
    ensures SessionOk(InitStep(s, k, step).sessions[j])
  {
    SessionAt(s, k);
    SessionAt(s, j);
    hide PublishersOk, SessionsOk, ResourceOk;
  }

  lemma SameShape(s: State, k: nat, step: Step)
    ensures var t := InitStep(s, k, step);
            && t.publishers == s.publishers && t.initialization == s.initialization
            && |t.sessions| == |s.sessions| && (k >= |s.sessions| ==> t == s)
  {
  }

  lemma InitKeeps(s: State, k: nat, step: Step)
    requires Inv(s)
    ensures Inv(InitStep(s, k, step))
  {
    hide InitStep, PublishersOk, ResourceOk, DestructionOk, UnsettledOk, SettledOk, SessionOk;
    var t := InitStep(s, k, step);
    SameShape(s, k, step);
    SamePublishers(s, t);
    InitKeepsControl(s, k, step);
    if k < |s.sessions| {
      InitKeepsOwn(s, k, step);
      forall j | 0 <= j < |t.sessions| && j != k
        ensures UnsettledOk(t, j) && SettledOk(t, j) && SessionOk(t.sessions[j])
      {
        InitKeepsOther(s, k, step, j);
      }
    }
  }

  lemma DisposalKeeps(s: State, k: nat, ok: bool)
    requires Inv(s)
    ensures Inv(DisposalStep(s, k, ok))
  {
    hide PublishersOk;
    var t := DisposalStep(s, k, ok);
    SamePublishers(s, t);
    forall j | 0 <= j < |t.sessions| ensures UnsettledOk(t, j) && SettledOk(t, j) {
      assert UnsettledOk(s, j) && SettledOk(s, j);
    }
  }

  lemma BrokerKeeps(s: State, k: nat)
    requires Inv(s)
    ensures Inv(BrokerStep(s, k))
  {
    hide PublishersOk;
    var t := BrokerStep(s, k);
    SamePublishers(s, t);
    if k < |s.sessions| && s.sessions[k].connected {
      assert SessionOk(s.sessions[k]) && UnsettledOk(s, k);
      assert SessionOk(t.sessions[k]);
      BrokerKeepsControl(s, k);
      forall j | 0 <= j < |t.sessions| ensures UnsettledOk(t, j) && SettledOk(t, j) {
        assert UnsettledOk(s, j) && SettledOk(s, j);
      }
    }
  }

  lemma BrokerKeepsControl(s: State, k: nat)
    requires Inv(s)
    ensures var t := BrokerStep(s, k);
            && ResourceOk(t) && DestructionOk(t)
            && (CleanupDone(s, s.cleanup) && s.resource != Some(k) ==> CleanupDone(t, t.cleanup))
            && (t.cleanup.Some? ==>
                  t.cleanup.value < |t.sessions| && !t.sessions[t.cleanup.value].disposal.NotStarted?)
  {
    hide PublishersOk, SessionsOk;
  }

  lemma DestroyKeeps(s: State)
    requires Inv(s)
    ensures Inv(DestroyStep(s))
  {
    hide PublishersOk;
    var t := DestroyStep(s);
    SamePublishers(s, t);
    forall j | 0 <= j < |s.sessions| ensures UnsettledOk(t, j) && SettledOk(t, j) {
      assert UnsettledOk(s, j) && SettledOk(s, j);
    }
  }

  lemma ResumeDestroyKeepsControl(s: State)
    requires Inv(s)
    ensures var t := ResumeDestroyStep(s);
            && ResourceOk(t) && DestructionOk(t)
            && (t.cleanup.Some? ==>
                  t.cleanup.value < |t.sessions| && !t.sessions[t.cleanup.value].disposal.NotStarted?)
            && (forall k | 0 <= k < |t.sessions| :: SessionOk(t.sessions[k]))
  {
    hide PublishersOk, SettledOk, UnsettledOk;
  }

  lemma ResumeDestroyKeeps(s: State)
    requires Inv(s)
    ensures Inv(ResumeDestroyStep(s))
  {
    hide PublishersOk, SessionOk;
    var t := ResumeDestroyStep(s);
    SamePublishers(s, t);
    ResumeDestroyKeepsControl(s);
    forall j | 0 <= j < |s.sessions| ensures UnsettledOk(t, j) && SettledOk(t, j) {
      assert UnsettledOk(s, j) && SettledOk(s, j);
    }
  }

  lemma StepKeeps(s: State, step: Step)
    requires Inv(s)
    ensures Inv(Apply(s, step))
  {
    hide Inv, EmitStep, ResumeStep, DisposalStep, BrokerStep, DestroyStep, ResumeDestroyStep, InitStep;
    match step
    case Emit(p) => EmitKeeps(s, p);
    case Resume(p) => ResumeKeeps(s, p);
    case DisposalDone(k, ok) => DisposalKeeps(s, k, ok);
    case BrokerEvent(k) => BrokerKeeps(s, k);
    case Destroy => DestroyKeeps(s);
    case ResumeDestroy => ResumeDestroyKeeps(s);
    case _ => InitKeeps(s, step.k, step);
  }

  lemma Reachable(steps: seq<Step>)
    ensures Inv(Run(INITIAL, steps))
  {
    RunKeeps(INITIAL, steps);
  }

  lemma {:induction false} RunKeeps(s: State, steps: seq<Step>)
    requires Inv(s)
    ensures Inv(Run(s, steps))
    decreases |steps|
  {
    hide Inv, Apply;
    if steps != [] {
      StepKeeps(s, steps[0]);
      RunKeeps(Apply(s, steps[0]), steps[1..]);
    }
  }
}
