/** When a handle is fenced, and what the command that runs into it is told. */
module DirectoryFencing {
  import opened Common
  import opened CanonicalText
  import opened DirectoryRows
  import opened DirectoryTransactions
  import opened DirectoryProtocol
  import opened DirectoryInvariants
  import opened DirectoryTheorems

  function Done<T>(r: Result<T, Code>): Result<(), Code> {
    if r.Ok? then Ok(()) else Err(r.error)
  }

  predicate BadClock(h: Handle, now: nat) {
    now < h.lastTime || now > MAX_SAFE
  }

  // How the callback of the transaction that a step of operation o runs ends; none if it runs no transaction.
  function Callback(cfg: Config, st: Store, h: Handle, o: Op, step: Step): Option<Result<(), Code>>
    requires o.horizon.Some?
  {
    match (step, o.phase)
    case (RunGuard(_, _), Guarding(_, source)) => Some(Done(ActorRow(cfg, st, source)))
    case (ResolveIntent(_, _, answer), Guarded(request, _)) =>
      if answer.Approve? && request.ToUnlink? then Some(Done(StoredLink(cfg, st, request.linkId))) else None
    case (RunPreflight(_, _), Deciding(intent)) => Some(Done(Preflight(cfg, st, intent)))
    case (CheckAgain(_, now, _, _, again, _), Reserved(intent, _, _)) =>
      if !h.fenced && !BadClock(h, now) && intent.actor.Some?
         && ParseHorizon(intent.horizon.commandId, now, cfg.replayWindow).Ok?
      then Some(Done(ActorRow(cfg, st, again)))
      else None
    case (RunCommit(_, _), Checked(intent, plan, draft, failure)) =>
      Some(Done(CommitBody(cfg, st, h.fenced, failure, intent, plan, draft)))
    case (RunLookUp(_, _), Looking(account, approved)) =>
      Some(Done(LookUpBody(cfg, st, o.horizon.value, account, approved)))
    case _ => None
  }

  // The store may or may not have applied the transaction, or claims to have committed a failed callback.
  predicate InDoubt(cfg: Config, st: Store, h: Handle, o: Op, step: Step)
    requires o.horizon.Some?
  {
    var callback := Callback(cfg, st, h, o, step);
    callback.Some? && (step.outcome.Unknown? || (step.outcome.Committed? && callback.value.Err?))
  }

  // Settling or releasing is not acknowledged.
  predicate Unacknowledged(o: Op, step: Step) {
    step.FinishHold? && !step.acknowledged && (o.phase.Settling? || o.phase.Releasing? || o.phase.Replaying?)
  }

  // The operation reads the clock of its handle and finds it run backwards or out of range.
  predicate ReadsBadClock(h: Handle, o: Op, step: Step) {
    match (step, o.phase)
    case (PriceRows(_, usable, now, _, _, _), Planned(intent, plan)) =>
      MethodLeft(intent, plan, usable) && BadClock(h, now)
    case (CheckAgain(_, now, _, _, _, _), Reserved(_, _, _)) => BadClock(h, now)
    case _ => false
  }

  predicate Raises(cfg: Config, st: Store, h: Handle, o: Op, step: Step) {
    o.horizon.Some? && (InDoubt(cfg, st, h, o, step) || ReadsBadClock(h, o, step) || Unacknowledged(o, step))
  }

  // A new command reads the clock once the gate has let it in.
  predicate EntersOnBadClock(cfg: Config, h: Handle, request: Request, now: nat) {
    && BadClock(h, now)
    && (request.ToReconcileSession? || request.ToReconcileProvision?
        || (!h.fenced && h.concurrent < cfg.maxConcurrentCommands))
  }

  // The step fences handle n.
  predicate Fences(cfg: Config, s: State, step: Step, n: nat) {
    match step
    case AdmitCommand(op, k, _, now, request) =>
      k == n && op !in s.ops && EntersOnBadClock(cfg, HandleOf(s, n), request, now)
    case Tick(k, now) => k == n && BadClock(HandleOf(s, n), now)
    case AcknowledgeEvent(_) => false
    case _ =>
      step.op in s.ops && s.ops[step.op].handle == n && Raises(cfg, s.store, HandleOf(s, n), s.ops[step.op], step)
  }

  // Before the plan: the guard, the row of an unlink, the preflight and the look-up.
  lemma ReadingRaises(cfg: Config, st: Store, h: Handle, o: Op, step: Step)
    requires step.ReceiveAnswer? || step.RunGuard? || step.ResolveIntent? || step.RunPreflight? || step.RunLookUp?
    ensures var m := Local(cfg, st, h, o, step);
            if m.Some? then m.value.handle.fenced <==> h.fenced || Raises(cfg, st, h, o, step)
            else !Raises(cfg, st, h, o, step)
  {
    hide ActorRow, StoredLink, Preflight, LookUpBody, IntentOk;
  }

  lemma PlanningRaises(cfg: Config, st: Store, h: Handle, o: Op, step: Step)
    requires step.PriceRows? || step.ReserveGrowth? || step.CheckAgain?
    ensures var m := Local(cfg, st, h, o, step);
            if m.Some? then m.value.handle.fenced <==> h.fenced || Raises(cfg, st, h, o, step)
            else !Raises(cfg, st, h, o, step)
  {
    hide ActorRow, ParseHorizon, MakeDraft, Sized, MethodLeft, IdOk, Portable, Funded;
  }

  predicate FencedAfter(cfg: Config, s: State, step: Step, n: nat) {
    HandleOf(Apply(cfg, s, step), n).fenced <==> HandleOf(s, n).fenced || Fences(cfg, s, step, n)
  }

  lemma UpdateFences(s: State, op: nat, m: Move, p: Phase, n: nat)
    requires op in s.ops
    ensures HandleOf(Granted(Update(s, op, m), op, p), n).fenced
            == (if n == s.ops[op].handle then m.handle.fenced else HandleOf(s, n).fenced)
  {
  }

  lemma LocalFences(cfg: Config, s: State, step: Step, n: nat)
    requires !step.AdmitCommand? && !step.Tick? && !step.AcknowledgeEvent? && !step.RunCommit? && !step.FinishHold?
    ensures FencedAfter(cfg, s, step, n)
  {
    hide Local, Raises, Update, Granted, HandleOf, AdmitStep, CommitStep, FinishStep, TickStep;
    if step.op in s.ops {
      var o := s.ops[step.op];
      var h := HandleOf(s, o.handle);
      if step.PriceRows? || step.ReserveGrowth? || step.CheckAgain? {
        PlanningRaises(cfg, s.store, h, o, step);
      } else {
        ReadingRaises(cfg, s.store, h, o, step);
      }
      var m := Local(cfg, s.store, h, o, step);
      if m.Some? {
        UpdateFences(s, step.op, m.value, m.value.phase, n);
      }
    }
  }

  lemma CommitFences(cfg: Config, s: State, op: nat, outcome: Outcome, n: nat)
    requires op in s.ops && s.ops[op].phase.Checked? ==> s.ops[op].horizon.Some?
    ensures FencedAfter(cfg, s, RunCommit(op, outcome), n)
  {
    hide CommitBody, LocalStep, AdmitStep, FinishStep, TickStep;
  }

  lemma FinishFences(cfg: Config, s: State, op: nat, acknowledged: bool, n: nat)
    ensures FencedAfter(cfg, s, FinishHold(op, acknowledged), n)
  {
    hide LocalStep, AdmitStep, CommitStep, TickStep;
  }

  lemma AdmissionFences(cfg: Config, s: State, op: nat, k: nat, raw: Text, now: nat, request: Request, n: nat)
    ensures FencedAfter(cfg, s, AdmitCommand(op, k, raw, now, request), n)
  {
    hide ParseHorizon, LocalStep, CommitStep, FinishStep, TickStep;
  }

  lemma OtherFences(cfg: Config, s: State, step: Step, n: nat)
    requires step.Tick? || step.AcknowledgeEvent?
    ensures FencedAfter(cfg, s, step, n)
  {
    hide AdmitStep, LocalStep, CommitStep, FinishStep;
  }

  /**
   In every reachable state a step fences a handle if and only if, on that handle, it runs a transaction that stays in
   doubt, reads a bad clock, or has a capacity call unacknowledged; a fence is never lifted.
   */
  lemma FencesExactly(cfg: Config, steps: seq<Step>, step: Step, n: nat)
    ensures var s := Run(cfg, INITIAL, steps);
            HandleOf(Apply(cfg, s, step), n).fenced <==> HandleOf(s, n).fenced || Fences(cfg, s, step, n)
  {
    hide Apply, Fences, Inv, Run;
    var s := Run(cfg, INITIAL, steps);
    Reachable(cfg, steps);
    match step
    case AdmitCommand(op, k, raw, now, request) => AdmissionFences(cfg, s, op, k, raw, now, request, n);
    case Tick(_, _) => OtherFences(cfg, s, step, n);
    case AcknowledgeEvent(_) => OtherFences(cfg, s, step, n);
    case RunCommit(op, outcome) =>
      if op in s.ops && s.ops[op].phase.Checked? {
        ReservedHorizon(cfg, s, op);
      }
      CommitFences(cfg, s, op, outcome, n);
    case FinishHold(op, acknowledged) => FinishFences(cfg, s, op, acknowledged, n);
    case _ => LocalFences(cfg, s, step, n);
  }

  /*** What the command is told ***/

  // Where a failed transaction leaves its operation: a failed recheck is kept for the commit, a commit in doubt keeps
  // the reservation, an aborted one goes on to release it, and everything else has ended.
  function Failed(p: Phase, error: Code, aborted: bool): Phase {
    match p
    case Reserved(intent, plan, draft) => Checked(intent, plan, draft, Some(error))
    case Checked(_, _, draft, _) =>
      var id := draft.receipt.reservationId;
      if aborted then Releasing(id, error) else Ended(Err(error), KeptHold(id))
    case _ => Ended(Err(error), NoHold)
  }

  lemma LocalTells(cfg: Config, st: Store, h: Handle, o: Op, step: Step)
    requires o.horizon.Some? && Callback(cfg, st, h, o, step).Some? && !step.RunCommit?
    ensures var m, callback := Local(cfg, st, h, o, step), Callback(cfg, st, h, o, step).value;
            && m.Some?
            && (InDoubt(cfg, st, h, o, step) ==> m.value.phase == Failed(o.phase, CommitUnknown, false))
            && (step.outcome.ConfirmedAbort? ==>
                  m.value.phase
                  == Failed(o.phase, if callback.Err? then callback.error else StorageUnavailable, true))
  {
    hide ActorRow, StoredLink, Preflight, LookUpBody, IntentOk, ParseHorizon, MethodLeft;
  }

  lemma CommitTells(cfg: Config, s: State, op: nat, outcome: Outcome)
    requires op in s.ops && s.ops[op].horizon.Some? && s.ops[op].phase.Checked?
    ensures var o, t := s.ops[op], CommitStep(cfg, s, op, outcome);
            var h, step := HandleOf(s, o.handle), RunCommit(op, outcome);
            var callback := Callback(cfg, s.store, h, o, step).value;
            && op in t.ops
            && (InDoubt(cfg, s.store, h, o, step) ==> t.ops[op].phase == Failed(o.phase, CommitUnknown, false))
            && (outcome.ConfirmedAbort? ==>
                  && t.store == s.store
                  && t.ops[op].phase
                     == Failed(o.phase, if callback.Err? then callback.error else StorageUnavailable, true))
  {
    hide CommitBody, ActorRow, StoredLink, Preflight, LookUpBody, ParseHorizon, BadClock;
  }

  lemma LocalSteps(cfg: Config, s: State, step: Step)
    requires !step.AdmitCommand? && !step.Tick? && !step.AcknowledgeEvent? && !step.RunCommit? && !step.FinishHold?
    requires step.op in s.ops
    requires Local(cfg, s.store, HandleOf(s, s.ops[step.op].handle), s.ops[step.op], step).Some?
    ensures var m := Local(cfg, s.store, HandleOf(s, s.ops[step.op].handle), s.ops[step.op], step).value;
            var t := Apply(cfg, s, step);
            t.store == s.store && step.op in t.ops && t.ops[step.op] == s.ops[step.op].(phase := m.phase)
  {
    hide Local, AdmitStep, CommitStep, FinishStep, TickStep;
  }

  /**
   A command whose transaction stays in doubt is told that the outcome is unknown; one whose transaction was aborted is
   told what its callback found, or that the storage failed. Only a commit in doubt may have written.
   */
  lemma FailuresAreTold(cfg: Config, s: State, step: Step)
    requires !step.AdmitCommand? && !step.Tick? && !step.AcknowledgeEvent?
    requires step.op in s.ops && s.ops[step.op].horizon.Some?
    requires Callback(cfg, s.store, HandleOf(s, s.ops[step.op].handle), s.ops[step.op], step).Some?
    ensures var o, t := s.ops[step.op], Apply(cfg, s, step);
            var h := HandleOf(s, o.handle);
            var callback := Callback(cfg, s.store, h, o, step).value;
            && step.op in t.ops
            && (InDoubt(cfg, s.store, h, o, step) ==> t.ops[step.op].phase == Failed(o.phase, CommitUnknown, false))
            && (step.outcome.ConfirmedAbort? ==>
                  && t.store == s.store
                  && t.ops[step.op].phase
                     == Failed(o.phase, if callback.Err? then callback.error else StorageUnavailable, true))
  {
    hide Local, CommitStep, Failed;
    if step.RunCommit? {
      CommitTells(cfg, s, step.op, step.outcome);
    } else {
      LocalTells(cfg, s.store, HandleOf(s, s.ops[step.op].handle), s.ops[step.op], step);
      LocalSteps(cfg, s, step);
    }
  }

  /**
   Settling, releasing and replaying make one capacity call each; the command is told its result once the call is
   acknowledged, and otherwise that the outcome is unknown, with its own hold kept.
   */
  lemma CapacityCallsAreTold(cfg: Config, s: State, op: nat, acknowledged: bool)
    requires op in s.ops && s.ops[op].horizon.Some?
    ensures var t, p := Apply(cfg, s, FinishHold(op, acknowledged)), s.ops[op].phase;
            var commandId, unknown := s.ops[op].horizon.value.commandId, Err(CommitUnknown);
            && op in t.ops && t.store == s.store
            && match p
               case Settling(id, result) =>
                 && t.calls == s.calls + [Settle(id, commandId)]
                 && t.ops[op].phase == (if acknowledged then Ended(Ok(Some(result)), SettledHold(id))
                                        else Ended(unknown, KeptHold(id)))
               case Releasing(id, error) =>
                 && t.calls == s.calls + [ReleaseConfirmedAbort(id, commandId)]
                 && t.ops[op].phase == (if acknowledged then Ended(Err(error), ReleasedHold(id))
                                        else Ended(unknown, KeptHold(id)))
               case Replaying(r) =>
                 && t.calls == s.calls + [Settle(r.reservationId, r.commandId)]
                 && t.ops[op].phase == (if acknowledged then Ended(Ok(Some(r.result.(replay := true))), NoHold)
                                        else Ended(unknown, NoHold))
               case _ => t == s
  {
    hide AdmitStep, LocalStep, CommitStep, TickStep;
  }
}
