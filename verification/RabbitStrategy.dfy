/**
 The strategy and its session objects: each method is the code that runs between two awaits, working on the
 fields of the objects. RabbitSessions and RabbitTheorems prove what every order of these calls keeps.
 */
module RabbitStrategy {
  import opened Common
  import opened RabbitSessions

  class BrokerSession {
    var phase: Phase
    var connected: bool
    var channel: bool
    var invalid: bool
    var disposal: Disposal
    var closings: nat

    function Fields(): Session
      reads this
    {
      Session(phase, connected, channel, invalid, disposal, closings)
    }

    constructor (cleanup: Option<nat>)
      ensures Fields() == Session(AwaitCleanup(cleanup), false, false, false, NotStarted, 0)
    {
      phase, connected, channel, invalid, disposal, closings :=
        AwaitCleanup(cleanup), false, false, false, NotStarted, 0;
    }

    /** invalid is set at once; closing starts only for the first caller. */
    method Close()
      modifies this
      ensures Fields() == Dispose(old(Fields()))
    {
      invalid := true;
      if disposal.NotStarted? {
        disposal := Running;
        closings := closings + 1;
      }
    }

    method GiveUp()
      modifies this
      ensures Fields() == Abandon(old(Fields()))
    {
      Close();
      phase := Abandoning;
    }
  }

  // One object of many has changed.
  lemma OneChanged(before: seq<Session>, after: seq<Session>, k: nat, x: Session)
    requires k < |before| == |after| && after[k] == x
    requires forall i | 0 <= i < |before| && i != k :: after[i] == before[i]
    ensures after == before[k := x]
  {
  }

  lemma RefsInRange(s: State)
    requires Inv(s)
    ensures s.resource.Some? ==> s.resource.value < |s.sessions|
    ensures s.destruction.AwaitDispose? ==> s.destruction.session < |s.sessions|
  {
  }

  class RabbitMqEventStrategy {
    var resource: Option<nat>
    var initialization: Option<nat>
    var cleanup: Option<nat>
    var stopped: bool
    var destruction: Destruction
    // The session objects created so far; the other fields refer to them by position.
    var sessions: seq<BrokerSession>
    var publishers: map<nat, Publisher>

    function Sessions(): (r: seq<Session>)
      reads this, sessions
      ensures |r| == |sessions| && forall i | 0 <= i < |r| :: r[i] == sessions[i].Fields()
    {
      seq(|sessions|, i requires 0 <= i < |sessions| reads this, sessions => sessions[i].Fields())
    }

    function Fields(): State
      reads this, sessions
    {
      State(resource, initialization, cleanup, stopped, destruction, Sessions(), publishers)
    }

    ghost predicate Valid()
      reads this, sessions
    {
      (forall i, j | 0 <= i < j < |sessions| :: sessions[i] != sessions[j]) && Inv(Fields())
    }

    constructor ()
      ensures Valid() && Fields() == INITIAL
    {
      resource, initialization, cleanup, stopped := None, None, None, false;
      destruction, sessions, publishers := Alive, [], map[];
    }

    /** publish up to its first await. */
    method Publish(p: nat)
      requires Valid() && p !in publishers
      modifies this
      ensures p in publishers && publishers == old(publishers)[p := publishers[p]]
      ensures publishers[p] == (if stopped then Failed
                                else if old(initialization).Some? then Waiting(old(initialization).value, false)
                                else if resource.Some? then Ready(resource.value)
                                else Waiting(|old(sessions)|, true))
      ensures resource == old(resource) && cleanup == old(cleanup) && stopped == old(stopped)
      ensures Valid() && Fields() == EmitStep(old(Fields()), p)
      ensures old(sessions) <= sessions && fresh(set i | |old(sessions)| <= i < |sessions| :: sessions[i])
    {
      hide Inv;
      EmitKeeps(Fields(), p);
      if stopped {
        publishers := publishers[p := Failed];
        assert Sessions() == old(Sessions());
        return;
      }
      if initialization.Some? {
        publishers := publishers[p := Waiting(initialization.value, false)];
        assert Sessions() == old(Sessions());
        return;
      }
      if resource.Some? {
        publishers := publishers[p := Ready(resource.value)];
        assert Sessions() == old(Sessions());
        return;
      }
      var session := new BrokerSession(cleanup);
      initialization := Some(|sessions|);
      publishers := publishers[p := Waiting(|sessions|, true)];
      sessions := sessions + [session];
      assert Sessions() == old(Sessions()) + [session.Fields()];
    }

    method ResumePublish(p: nat)
      requires Valid() && p in publishers
      modifies this
      ensures Valid() && Fields() == ResumeStep(old(Fields()), p) && sessions == old(sessions)
    {
      hide Inv;
      ResumeKeeps(Fields(), p);
      var waiting := publishers[p];
      if waiting.Waiting? {
        if waiting.session < |sessions| && Settled(sessions[waiting.session].Fields()) {
          if waiting.creator {
            initialization := None;
          }
          publishers := publishers[p := if sessions[waiting.session].phase.Resolved? then Ready(waiting.session)
                                        else Failed];
        }
      } else if waiting.Ready? {
        publishers := publishers[p := if stopped || resource != Some(waiting.session) then Failed
                                      else Published(waiting.session)];
      }
      assert Sessions() == old(Sessions());
    }

    /** initialize once the cleanup has settled; a stop in between abandons it. */
    method AfterCleanupSettled(k: nat)
      requires Valid() && k < |sessions| && sessions[k].phase.AwaitCleanup?
      requires CleanupDone(Fields(), sessions[k].phase.cleanup)
      modifies sessions[k]
      ensures Valid() && Fields() == InitStep(old(Fields()), k, AfterCleanup(k)) && sessions == old(sessions)
    {
      hide Inv, Dispose, Abandon;
      InitKeeps(Fields(), k, AfterCleanup(k));
      var session := sessions[k];
      if stopped {
        session.GiveUp();
      } else {
        session.phase := Connecting;
      }
      OneChanged(old(Sessions()), Sessions(), k, session.Fields());
    }

    /** initialize once the broker has answered the connect. */
    method AfterConnect(k: nat, ok: bool)
      requires Valid() && k < |sessions| && sessions[k].phase.Connecting?
      modifies sessions[k]
      ensures Valid() && Fields() == InitStep(old(Fields()), k, Connected(k, ok)) && sessions == old(sessions)
    {
      hide Inv, Dispose, Abandon;
      InitKeeps(Fields(), k, Connected(k, ok));
      var session := sessions[k];
      if ok {
        session.connected, session.phase := true, OpeningChannel;
      } else {
        session.GiveUp();
      }
      OneChanged(old(Sessions()), Sessions(), k, session.Fields());
    }

    /** initialize once the broker has answered the request for a channel. */
    method AfterCreateChannel(k: nat, ok: bool)
      requires Valid() && k < |sessions| && sessions[k].phase.OpeningChannel?
      modifies sessions[k]
      ensures Valid() && Fields() == InitStep(old(Fields()), k, ChannelOpened(k, ok)) && sessions == old(sessions)
    {
      hide Inv, Dispose, Abandon;
      InitKeeps(Fields(), k, ChannelOpened(k, ok));
      var session := sessions[k];
      if ok {
        session.channel, session.phase := true, Asserting;
      } else {
        session.GiveUp();
      }
      OneChanged(old(Sessions()), Sessions(), k, session.Fields());
    }

    /** The last segment of initialize: only a valid session of a running strategy becomes the resource. */
    method AfterAssertExchange(k: nat, ok: bool)
      requires Valid() && k < |sessions| && sessions[k].phase.Asserting?
      modifies this`resource, sessions[k]
      ensures Valid() && Fields() == InitStep(old(Fields()), k, ExchangeAsserted(k, ok)) && sessions == old(sessions)
    {
      hide Inv, Dispose, Abandon;
      InitKeeps(Fields(), k, ExchangeAsserted(k, ok));
      var session := sessions[k];
      if ok && !session.invalid && !stopped {
        resource := Some(k);
        session.phase := Resolved;
      } else {
        session.GiveUp();
      }
      OneChanged(old(Sessions()), Sessions(), k, session.Fields());
    }

    /** A failed initialize rejects once its session is disposed of. */
    method AfterAbandon(k: nat)
      requires Valid() && k < |sessions| && sessions[k].phase.Abandoning? && sessions[k].disposal.Finished?
      modifies sessions[k]
      ensures Valid() && Fields() == InitStep(old(Fields()), k, Abandoned(k)) && sessions == old(sessions)
    {
      hide Inv, Dispose, Abandon;
      InitKeeps(Fields(), k, Abandoned(k));
      var session := sessions[k];
      session.phase := Rejected;
      OneChanged(old(Sessions()), Sessions(), k, session.Fields());
    }

    method FinishDisposal(k: nat, ok: bool)
      requires Valid() && k < |sessions|
      modifies sessions[k]
      ensures Valid() && Fields() == DisposalStep(old(Fields()), k, ok) && sessions == old(sessions)
    {
      hide Inv;
      DisposalKeeps(Fields(), k, ok);
      var session := sessions[k];
      if session.disposal.Running? {
        session.disposal := Finished(ok);
      }
      OneChanged(old(Sessions()), Sessions(), k, session.Fields());
      assert old(Sessions())[k := old(Sessions())[k]] == old(Sessions());
    }

    /** The error and close listener of a session. */
    method Invalidate(k: nat)
      requires Valid() && k < |sessions| && sessions[k].connected
      modifies this, sessions[k]
      ensures Valid() && Fields() == BrokerStep(old(Fields()), k) && sessions == old(sessions)
    {
      hide Inv;
      BrokerKeeps(Fields(), k);
      var session := sessions[k];
      session.invalid := true;
      if resource == Some(k) {
        resource := None;
        session.Close();
        cleanup := Some(k);
      }
      OneChanged(old(Sessions()), Sessions(), k, session.Fields());
    }

    method OnModuleDestroy()
      requires Valid()
      modifies this
      ensures Valid() && Fields() == DestroyStep(old(Fields())) && sessions == old(sessions)
    {
      hide Inv;
      DestroyKeeps(Fields());
      if destruction.Alive? {
        stopped := true;
        destruction := AwaitInit(initialization);
      }
      assert Sessions() == old(Sessions());
    }

    method ResumeOnDestroy()
      requires Valid()
      modifies this, sessions
      ensures Valid() && Fields() == ResumeDestroyStep(old(Fields())) && sessions == old(sessions)
    {
      hide Inv;
      ResumeDestroyKeeps(Fields());
      RefsInRange(Fields());
      match destruction {
        case AwaitInit(i) =>
          if InitDone(Fields(), i) {
            if resource.Some? {
              var k := resource.value;
              var session := sessions[k];
              resource := None;
              session.Close();
              destruction := AwaitDispose(k);
              OneChanged(old(Sessions()), Sessions(), k, session.Fields());
            } else {
              destruction := AwaitLast(cleanup);
              assert Sessions() == old(Sessions());
            }
          }
        case AwaitDispose(k) =>
          if sessions[k].disposal.Finished? {
            destruction := if sessions[k].disposal.ok then AwaitLast(cleanup) else Destroyed(false);
            assert Sessions() == old(Sessions());
          }
        case AwaitLast(c) =>
          if CleanupDone(Fields(), c) {
            destruction := Destroyed(true);
            assert Sessions() == old(Sessions());
          }
        case _ =>
      }
    }
  }
}
