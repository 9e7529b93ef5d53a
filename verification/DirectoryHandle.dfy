/** A handle of the directory as the object it is: fields that time, the write gate and transactions update. */
module DirectoryHandle {
  import opened Common
  import opened CanonicalText
  import opened DirectoryRows
  import opened DirectoryTransactions
  import opened DirectoryProtocol

  /** The tables of one namespace; a transaction works on them in place and rolls back when it throws. */
  class Tables {
    var identities: seq<IdentityRow>
    var revisions: map<Text, nat>
    var commands: seq<CommandRow>
    var consents: seq<ConsentRow>
    var events: seq<EventRow>

    function Contents(): Store
      reads this
    {
      Store(identities, revisions, commands, consents, events)
    }

    constructor ()
      ensures Contents() == Store([], map[], [], [], [])
    {
      identities, revisions, commands, consents, events := [], map[], [], [], [];
    }

    method Restore(st: Store)
      modifies this
      ensures Contents() == st
    {
      identities, revisions, commands, consents, events :=
        st.identities, st.revisions, st.commands, st.consents, st.events;
    }

    /** One write; a refused write changes nothing. */
    method Write(plan: Plan, d: Draft, step: nat) returns (ok: bool)
      requires step < WRITES
      modifies this
      ensures ok == WriteAt(old(Contents()), plan, d, step).Some?
      ensures Contents() == if ok then WriteAt(old(Contents()), plan, d, step).value else old(Contents())
    {
      var next := WriteAt(Contents(), plan, d, step);
      ok := next.Some?;
      if ok {
        Restore(next.value);
      }
    }

    /** The five writes in order; the first refusal undoes the ones before it. */
    method WriteRows(plan: Plan, d: Draft) returns (ok: bool)
      modifies this
      ensures ok == WriteAll(old(Contents()), plan, d, 0).Some?
      ensures Contents() == if ok then WriteAll(old(Contents()), plan, d, 0).value else old(Contents())
    {
      var before := Contents();
      var step := 0;
      ok := true;
      while step < WRITES && ok
        invariant 0 <= step <= WRITES
        invariant ok ==> WriteAll(before, plan, d, 0) == WriteAll(Contents(), plan, d, step)
        invariant !ok ==> WriteAll(before, plan, d, 0).None?
        decreases WRITES - step, ok
      {
        ok := Write(plan, d, step);
        step := step + 1;
      }
      if !ok {
        Restore(before);
      }
    }

    /** The callback of the commit transaction: check again, compare with the plan, write. */
    method CommitRows(cfg: Config, fenced: bool, failure: Option<Code>, i: Intent, plan: Plan, d: Draft)
      returns (result: Result<CommandResult, Code>)
      modifies this
      ensures var body := CommitBody(cfg, old(Contents()), fenced, failure, i, plan, d);
              && (body.Err? ==> result == Err(body.error) && Contents() == old(Contents()))
              && (body.Ok? ==> result == Ok(body.value.result) && Contents() == body.value.store)
    {
      if failure.Some? {
        return Err(failure.value);
      }
      if fenced {
        return Err(CommitUnknown);
      }
      var current := Preflight(cfg, Contents(), i);
      if current.Err? {
        return Err(current.error);
      }
      if current.value.receipt.Some? {
        var receipt := current.value.receipt.value;
        return if receipt.reservationId == d.receipt.reservationId then Ok(receipt.result.(replay := true))
               else Err(CommandConflict);
      }
      if current.value.revision != plan.revision
         || Canonical(TargetJson(current.value.target)) != Canonical(TargetJson(plan.target))
      {
        return Err(IdentityConflict);
      }
      var taken := StoredLink(cfg, Contents(), d.identity.linkId);
      if taken.Err? {
        return Err(taken.error);
      }
      if taken.value.Some? && plan.target.None? {
        return Err(IdentityConflict);
      }
      var ok := WriteRows(plan, d);
      return if ok then Ok(d.receipt.result) else Err(IdentityConflict);
    }
  }

  class DirectoryClosure {
    const cfg: Config
    const tables: Tables
    var fenced: bool
    var lastTime: nat
    var concurrent: nat

    function Fields(): Handle
      reads this
    {
      Handle(fenced, lastTime, concurrent)
    }

    constructor (cfg: Config, tables: Tables)
      ensures Fields() == Handle(false, 0, 0) && this.cfg == cfg && this.tables == tables
    {
      this.cfg, this.tables := cfg, tables;
      fenced, lastTime, concurrent := false, 0, 0;
    }

    method Time(now: nat) returns (ok: bool)
      modifies this
      ensures ok <==> old(lastTime) <= now <= MAX_SAFE
      ensures lastTime == (if ok then now else old(lastTime)) && concurrent == old(concurrent)
      ensures fenced <==> old(fenced) || !ok
      ensures (Fields(), ok) == Observe(old(Fields()), now)
    {
      ok := now <= MAX_SAFE && now >= lastTime;
      if ok {
        lastTime := now;
      } else {
        fenced := true;
      }
    }

    method EnterWrite() returns (refused: Option<Code>)
      modifies this`concurrent
      ensures refused == (if fenced then Some(CommitUnknown)
                          else if old(concurrent) >= cfg.maxConcurrentCommands then Some(CapacityExceeded) else None)
      ensures concurrent == old(concurrent) + (if refused.None? then 1 else 0)
      ensures var entered := Enter(cfg, old(Fields()));
              && (entered.Ok? ==> refused.None? && Fields() == entered.value)
              && (entered.Err? ==> refused == Some(entered.error) && Fields() == old(Fields()))
    {
      if fenced {
        return Some(CommitUnknown);
      }
      if concurrent >= cfg.maxConcurrentCommands {
        return Some(CapacityExceeded);
      }
      concurrent := concurrent + 1;
      return None;
    }

    method LeaveWrite()
      modifies this`concurrent
      ensures Fields() == Leave(old(Fields()))
    {
      if concurrent > 0 {
        concurrent := concurrent - 1;
      }
    }

    /**
     The commit transaction: the store applies the callback's writes or not, reports an outcome, and everything
     but a committed outcome of a completed callback or a confirmed abort fences the handle. On the object this is
     the commit step of the protocol, for every protocol state s in which operation op runs on this handle.
     */
    method CommitTransaction(failure: Option<Code>, i: Intent, plan: Plan, d: Draft, outcome: Outcome,
                             ghost s: State, ghost op: nat)
      returns (reply: Reply<CommandResult>)
      requires op in s.ops && s.ops[op].phase == Checked(i, plan, d, failure)
      requires s.store == tables.Contents() && HandleOf(s, s.ops[op].handle) == Fields()
      modifies this`fenced, tables
      ensures fenced <==> old(fenced) || reply.Lost?
      ensures var body := CommitBody(cfg, old(tables.Contents()), old(fenced), failure, i, plan, d);
              && reply == Atomic(if body.Ok? then Ok(body.value.result) else Err(body.error), outcome)
              && tables.Contents() == (if body.Ok? && (outcome.Committed? || (outcome.Unknown? && outcome.applied))
                                       then body.value.store else old(tables.Contents()))
      ensures var t := CommitStep(cfg, s, op, outcome);
              && tables.Contents() == t.store
              && fenced == HandleOf(t, s.ops[op].handle).fenced
              && op in t.ops && Reported(t.ops[op].phase, d.receipt.reservationId, reply)
    {
      var before := tables.Contents();
      var result := tables.CommitRows(cfg, fenced, failure, i, plan, d);
      if !(outcome.Committed? || (outcome.Unknown? && outcome.applied)) {
        tables.Restore(before);
      }
      match outcome {
        case Committed =>
          reply := if result.Ok? then Value(result.value) else Lost;
        case ConfirmedAbort =>
          reply := Refused(if result.Err? then result.error else StorageUnavailable);
        case Unknown(_) =>
          reply := Lost;
      }
      fenced := fenced || reply.Lost?;
      CommitStepIsTransaction(cfg, s, op, outcome);
    }
  }

  // The phase that follows a reply: settle the value, release after the abort, or end with the reservation kept.
  predicate Reported(p: Phase, id: Text, reply: Reply<CommandResult>) {
    match reply
    case Value(result) => p == Settling(id, result)
    case Refused(error) => p == Releasing(id, error)
    case Lost => p == Ended(Err(CommitUnknown), KeptHold(id))
  }

  // The commit step of the protocol in terms of the callback and the outcome.
  lemma CommitStepIsTransaction(cfg: Config, s: State, op: nat, outcome: Outcome)
    requires op in s.ops && s.ops[op].phase.Checked?
    ensures var o := s.ops[op];
            var t := CommitStep(cfg, s, op, outcome);
            var body := BodyOf(cfg, s, o);
            && t.store == (if body.Ok? && (outcome.Committed? || (outcome.Unknown? && outcome.applied))
                           then body.value.store else s.store)
            && HandleOf(t, o.handle).fenced == (HandleOf(s, o.handle).fenced || Atomic(body, outcome).Lost?)
            && op in t.ops
            && Reported(t.ops[op].phase, o.phase.draft.receipt.reservationId,
                        Atomic(if body.Ok? then Ok(body.value.result) else Err(body.error), outcome))
  {
    hide CommitBody;
  }
}
