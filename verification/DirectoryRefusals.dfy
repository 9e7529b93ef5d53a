/** Commands that are refused: what their callers are told, and that nothing is left behind. */
module DirectoryRefusals {
  import opened Common
  import opened CanonicalText
  import opened DirectoryRows
  import opened DirectoryTransactions
  import opened DirectoryProtocol
  import opened DirectoryInvariants
  import opened DirectoryReservations
  import opened DirectoryTheorems

  // The command has ended with this error, and neither a row nor a capacity call has been added.
  predicate RefusedWith(s: State, t: State, op: nat, error: Code) {
    && op in t.ops && t.ops[op].phase == Ended(Err(error), NoHold)
    && t.store == s.store && t.calls == s.calls && t.granted == s.granted
  }

  lemma StopRefuses(s: State, op: nat, h: Handle, error: Code)
    requires op in s.ops
    ensures RefusedWith(s, Update(s, op, Stop(h, error)), op, error)
  {
  }

  lemma LocalRefuses(cfg: Config, s: State, step: Step, op: nat, h: Handle, error: Code)
    requires step.ReceiveAnswer? || step.ResolveIntent? || step.PriceRows? || step.ReserveGrowth?
    requires op in s.ops && step.op == op
    requires Local(cfg, s.store, HandleOf(s, s.ops[op].handle), s.ops[op], step) == Some(Stop(h, error))
    ensures RefusedWith(s, Apply(cfg, s, step), op, error)
  {
    hide Local, Update, RefusedWith;
    StopRefuses(s, op, h, error);
  }

  /** A host port that refuses, before or after the guard, ends the command with its error. */
  lemma PortRefusalsAreTold(cfg: Config, s: State, op: nat, error: Code, outcome: Outcome)
    requires op in s.ops && s.ops[op].horizon.Some? && (s.ops[op].phase.Opening? || s.ops[op].phase.Guarded?)
    ensures var step := if s.ops[op].phase.Opening? then ReceiveAnswer(op, Refuse(error))
                        else ResolveIntent(op, outcome, Refuse(error));
            RefusedWith(s, Apply(cfg, s, step), op, error)
  {
    hide RefusedWith, Apply;
    var h := HandleOf(s, s.ops[op].handle);
    if s.ops[op].phase.Opening? {
      LocalRefuses(cfg, s, ReceiveAnswer(op, Refuse(error)), op, h, error);
    } else {
      LocalRefuses(cfg, s, ResolveIntent(op, outcome, Refuse(error)), op, h, error);
    }
  }

  predicate PortableWithin(t: Text, max: nat) {
    1 <= |t| <= max && forall i | 0 <= i < |t| :: SixBits(t[i]) >= 0 || t[i] == 46
  }

  // The lengths and alphabets of what a command is approved for.
  predicate Approvable(account: Text, a: Answer)
    requires a.Approve?
  {
    && 1 <= |account| <= 512 && PortableWithin(a.consentId, 128) && PortableWithin(a.provider, 80)
    && a.issuer != [] && Utf8(a.issuer) <= 2048 && a.subject != [] && Utf8(a.subject) <= 512
  }

  /** An approved provision or link goes on if and only if the approval is within bounds, and is refused otherwise. */
  lemma ApprovalsAreChecked(cfg: Config, s: State, op: nat, a: Answer, outcome: Outcome, admitted: nat)
    requires op in s.ops && a.Approve? && s.ops[op].horizon.Some?
    requires ParseHorizon(s.ops[op].horizon.value.commandId, admitted, cfg.replayWindow) == Ok(s.ops[op].horizon.value)
    requires s.ops[op].phase == Opening(ToProvision) || (s.ops[op].phase.Guarded? && s.ops[op].phase.request == ToLink)
    ensures var opening := s.ops[op].phase.Opening?;
            var account := if opening then a.account else s.ops[op].phase.actor.source.account;
            var t := Apply(cfg, s, if opening then ReceiveAnswer(op, a) else ResolveIntent(op, outcome, a));
            if Approvable(account, a) then
              && op in t.ops && t.ops[op].phase.Deciding?
              && t.ops[op].phase.intent.account == account && t.ops[op].phase.intent.consentId == a.consentId
              && t.ops[op].phase.intent.provider == a.provider
              && t.ops[op].phase.intent.target == ByIdentity(a.issuer, a.subject)
            else RefusedWith(s, t, op, AuthorizationDenied)
  {
    hide RefusedWith, Utf8, Portable, SixBits, Digits, IdOk, DecimalValue, AdmitStep, CommitStep, FinishStep, TickStep;
    PortableIs(a.consentId, 128);
    PortableIs(a.provider, 80);
    var h := HandleOf(s, s.ops[op].handle);
    if s.ops[op].phase.Opening? {
      if !Approvable(a.account, a) {
        LocalRefuses(cfg, s, ReceiveAnswer(op, a), op, h, AuthorizationDenied);
      }
    } else if !Approvable(s.ops[op].phase.actor.source.account, a) {
      LocalRefuses(cfg, s, ResolveIntent(op, outcome, a), op, h, AuthorizationDenied);
    }
  }

  // Revision and generation have no successor.
  predicate Exhausted(plan: Plan) {
    || (plan.revision.Some? && plan.revision.value >= MAX_SAFE)
    || (plan.target.Some? && plan.target.value.generation >= MAX_SAFE)
  }

  lemma DraftRefusal(cfg: Config, i: Intent, plan: Plan, now: nat, linkId: Text, eventId: Text)
    requires plan.target.None? ==> i.target.ByIdentity?
    ensures var made := MakeDraft(cfg, i, plan, now, linkId, eventId);
            if Exhausted(plan) then made == Err(StorageUnavailable) else made.Ok?
  {
  }

  // What pricing finds first: the last method, the clock or the drawn ids, an exhausted counter, no room for the rows.
  function PriceError(cfg: Config, h: Handle, i: Intent, plan: Plan, usable: set<Text>, now: nat, linkId: Text,
                      eventId: Text, quoted: bool): Option<Code>
  {
    var made := MakeDraft(cfg, i, plan, now, linkId, eventId);
    if i.action == Unlink && i.target.ByLink? && !UsableLeft(plan.links, i.target.linkId, usable) then Some(LastMethod)
    else if now < h.lastTime || now > MAX_SAFE || !IdOk(linkId) || !IdOk(eventId) then Some(InvalidInput)
    else if Exhausted(plan) then Some(StorageUnavailable)
    else if !quoted || (made.Ok? && !Sized(cfg, made.value)) then Some(CapacityExceeded)
    else None
  }

  lemma Prices(cfg: Config, s: State, op: nat, usable: set<Text>, now: nat, linkId: Text, eventId: Text, quoted: bool)
    requires op in s.ops && s.ops[op].horizon.Some? && s.ops[op].phase.Planned?
    requires s.ops[op].phase.plan.target.None? ==> s.ops[op].phase.intent.target.ByIdentity?
    ensures var i, plan := s.ops[op].phase.intent, s.ops[op].phase.plan;
            var error := PriceError(cfg, HandleOf(s, s.ops[op].handle), i, plan, usable, now, linkId, eventId, quoted);
            var t := Apply(cfg, s, PriceRows(op, usable, now, linkId, eventId, quoted));
            match error
            case Some(code) => RefusedWith(s, t, op, code)
            case None => op in t.ops && t.ops[op].phase.Priced? && t.store == s.store
                         && Ok(t.ops[op].phase.draft) == MakeDraft(cfg, i, plan, now, linkId, eventId)
  {
    hide RefusedWith, MakeDraft, Sized, UsableLeft, IdOk, AdmitStep, CommitStep, FinishStep, TickStep;
    var i, plan := s.ops[op].phase.intent, s.ops[op].phase.plan;
    var h := HandleOf(s, s.ops[op].handle);
    DraftRefusal(cfg, i, plan, now, linkId, eventId);
    var m := OnPrice(cfg, h, i, plan, usable, now, linkId, eventId, quoted);
    if m.phase.Ended? {
      LocalRefuses(cfg, s, PriceRows(op, usable, now, linkId, eventId, quoted), op, m.handle, m.phase.outcome.error);
    }
  }

  /** What pricing finds ends a command before it asks for a reservation; otherwise its rows are ready. */
  lemma PricesAreTold(cfg: Config, steps: seq<Step>, op: nat, usable: set<Text>, now: nat, linkId: Text, eventId: Text,
                      quoted: bool)
    requires var s := Run(cfg, INITIAL, steps); op in s.ops && s.ops[op].phase.Planned?
    ensures var s := Run(cfg, INITIAL, steps);
            var i, plan := s.ops[op].phase.intent, s.ops[op].phase.plan;
            var error := PriceError(cfg, HandleOf(s, s.ops[op].handle), i, plan, usable, now, linkId, eventId, quoted);
            var t := Apply(cfg, s, PriceRows(op, usable, now, linkId, eventId, quoted));
            match error
            case Some(code) => RefusedWith(s, t, op, code)
            case None => op in t.ops && t.ops[op].phase.Priced? && t.store == s.store
                         && Ok(t.ops[op].phase.draft) == MakeDraft(cfg, i, plan, now, linkId, eventId)
  {
    hide *;
    var s := Run(cfg, INITIAL, steps);
    Reachable(cfg, steps);
    PlannedTarget(cfg, s, op);
    Prices(cfg, s, op, usable, now, linkId, eventId, quoted);
  }

  lemma PlannedTarget(cfg: Config, s: State, op: nat)
    requires Inv(cfg, s) && op in s.ops && s.ops[op].phase.Planned?
    ensures s.ops[op].horizon.Some?
    ensures s.ops[op].phase.plan.target.None? ==> s.ops[op].phase.intent.target.ByIdentity?
  {
    hide CallOk, Prepared, PlanHolds;
    PhaseOf(cfg, s, op);
  }

  /** An unlink of a link that is not stored, or is stored for another account, is a conflict. */
  lemma ForeignLinkIsRefused(cfg: Config, s: State, op: nat, answer: Answer)
    requires op in s.ops && s.ops[op].horizon.Some? && s.ops[op].phase.Guarded? && s.ops[op].phase.request.ToUnlink?
    requires answer.Approve? && StoredLink(cfg, s.store, s.ops[op].phase.request.linkId).Ok?
    requires !exists k | 0 <= k < |s.store.identities| ::
               && s.store.identities[k].linkId == s.ops[op].phase.request.linkId
               && s.store.identities[k].account == s.ops[op].phase.actor.source.account
    ensures RefusedWith(s, Apply(cfg, s, ResolveIntent(op, Committed, answer)), op, IdentityConflict)
  {
    hide RefusedWith, Apply, IdentityRowOk;
    var h := HandleOf(s, s.ops[op].handle);
    if StoredLink(cfg, s.store, s.ops[op].phase.request.linkId).value.Some? {
      LinkRead(cfg, s.store, s.ops[op].phase.request.linkId);
    }
    LocalRefuses(cfg, s, ResolveIntent(op, Committed, answer), op, h, IdentityConflict);
  }

  lemma LinkRead(cfg: Config, st: Store, linkId: Text)
    requires StoredLink(cfg, st, linkId).Ok? && StoredLink(cfg, st, linkId).value.Some?
    ensures var row := StoredLink(cfg, st, linkId).value.value; row in st.identities && row.linkId == linkId
  {
  }

  /** A command whose growth is not granted, or is granted under an unusable id, ends for lack of capacity. */
  lemma UngrantedIsRefused(cfg: Config, s: State, op: nat, id: Option<Text>)
    requires op in s.ops && s.ops[op].horizon.Some? && s.ops[op].phase.Priced?
    requires id.Some? ==> !Portable(id.value, 128)
    ensures RefusedWith(s, Apply(cfg, s, ReserveGrowth(op, id)), op, CapacityExceeded)
  {
    hide RefusedWith, Apply, Portable;
    var h := HandleOf(s, s.ops[op].handle);
    LocalRefuses(cfg, s, ReserveGrowth(op, id), op, h, CapacityExceeded);
  }

  // Why a command is not admitted: its handle is fenced or busy, the clock is bad, or its id is.
  function AdmissionError(cfg: Config, h: Handle, raw: Text, now: nat, gated: bool): Option<Code> {
    if gated && h.fenced then Some(CommitUnknown)
    else if gated && h.concurrent >= cfg.maxConcurrentCommands then Some(CapacityExceeded)
    else if now < h.lastTime || now > MAX_SAFE then Some(InvalidInput)
    else if ParseHorizon(raw, now, cfg.replayWindow).Err? then Some(ParseHorizon(raw, now, cfg.replayWindow).error)
    else None
  }

  /** A new command is open with its parsed id, or has ended with the reason it was not admitted for. */
  lemma AdmissionsAreTold(cfg: Config, s: State, op: nat, h: nat, raw: Text, now: nat, request: Request)
    requires op !in s.ops
    ensures var gated := request.ToProvision? || request.ToLink? || request.ToUnlink?;
            var error := AdmissionError(cfg, HandleOf(s, h), raw, now, gated);
            var t := Apply(cfg, s, AdmitCommand(op, h, raw, now, request));
            && op in t.ops && t.store == s.store && t.calls == s.calls
            && t.ops[op].phase == (if error.Some? then Ended(Err(error.value), NoHold) else Opening(request))
            && (error.None? ==> t.ops[op].gated == gated && t.ops[op].handle == h
                                && Ok(t.ops[op].horizon.value) == ParseHorizon(raw, now, cfg.replayWindow))
  {
    hide ParseHorizon;
  }

  // Nothing but the handle, the operation, the aborts and one release has changed.
  predicate ReleasedWith(s: State, t: State, op: nat, id: Text, commandId: Text, error: Code) {
    && op in t.ops && t.ops[op].phase == Ended(Err(error), ReleasedHold(id))
    && t.store == s.store && t.calls == s.calls + [ReleaseConfirmedAbort(id, commandId)]
  }

  lemma FailedAborts(cfg: Config, s: State, op: nat, error: Code)
    requires op in s.ops && s.ops[op].phase.Checked? && s.ops[op].phase.failure == Some(error)
    ensures var o := s.ops[op];
            var t := Apply(cfg, s, RunCommit(op, ConfirmedAbort));
            && t.store == s.store && t.calls == s.calls && op in t.ops
            && t.ops[op] == o.(phase := Releasing(o.phase.draft.receipt.reservationId, error))
  {
    hide Preflight, WriteAll;
  }

  lemma ReleasingEnds(cfg: Config, s: State, op: nat, error: Code)
    requires op in s.ops && s.ops[op].phase.Releasing? && s.ops[op].phase.error == error && s.ops[op].horizon.Some?
    ensures ReleasedWith(s, Apply(cfg, s, FinishHold(op, true)), op, s.ops[op].phase.reservationId,
                         s.ops[op].horizon.value.commandId, error)
  {
  }

  // A failure kept for the commit leads to an abort that releases the reservation, and the caller is told.
  lemma FailureIsTold(cfg: Config, s: State, op: nat, error: Code, between: seq<Step>)
    requires Inv(cfg, s) && op in s.ops && s.ops[op].phase.Checked? && s.ops[op].phase.failure == Some(error)
    requires var t := Run(cfg, s, between); op in t.ops && t.ops[op].phase.Checked?
    ensures var t := Run(cfg, s, between);
            var u := Apply(cfg, Apply(cfg, t, RunCommit(op, ConfirmedAbort)), FinishHold(op, true));
            s.ops[op].horizon.Some? && ReleasedWith(t, u, op, s.ops[op].phase.draft.receipt.reservationId,
                                                    s.ops[op].horizon.value.commandId, error)
  {
    hide *;
    var t := Run(cfg, s, between);
    ReservedHorizon(cfg, s, op);
    HoldingChecked(s.ops[op]);
    RunFollows(cfg, s, between, op);
    StillChecked(t, op, s.ops[op]);
    FailedAborts(cfg, t, op, error);
    var aborted := Apply(cfg, t, RunCommit(op, ConfirmedAbort));
    ReleasingEnds(cfg, aborted, op, error);
    ReleasedSame(t, aborted, Apply(cfg, aborted, FinishHold(op, true)), op, s.ops[op].phase.draft.receipt.reservationId,
                 s.ops[op].horizon.value.commandId, error);
  }

  // What a recheck whose guard runs to its end finds first: the fence, the clock, the id's window, the actor, a port's
  // objection, the last method.
  function RecheckError(cfg: Config, st: Store, h: Handle, i: Intent, plan: Plan, now: nat, usable: set<Text>,
                        denied: Option<Code>, again: Source): Option<Code>
  {
    var horizon := ParseHorizon(i.horizon.commandId, now, cfg.replayWindow);
    if h.fenced then Some(CommitUnknown)
    else if now < h.lastTime || now > MAX_SAFE then Some(InvalidInput)
    else if horizon.Err? then Some(horizon.error)
    else if i.actor.Some? && ActorRow(cfg, st, again) != Ok(i.actor.value) then Some(AuthenticationDenied)
    else if denied.Some? then denied
    else if i.action == Unlink && i.target.ByLink? && !UsableLeft(plan.links, i.target.linkId, usable)
    then Some(LastMethod)
    else None
  }

  lemma RecheckFinds(cfg: Config, st: Store, h: Handle, i: Intent, plan: Plan, now: nat, usable: set<Text>,
                     denied: Option<Code>, again: Source)
    requires i.actor.Some? ==> ActorRow(cfg, st, again).Ok?
    ensures Rechecked(cfg, st, h, i, plan, now, usable, denied, again, Committed).1
            == RecheckError(cfg, st, h, i, plan, now, usable, denied, again)
  {
    hide ParseHorizon, ActorRow, UsableLeft;
  }

  /**
   What a failed recheck finds is what the caller is told, whatever happens before the abort, with the reservation
   released and no row written.
   */
  lemma RecheckFailuresAreTold(cfg: Config, before: seq<Step>, op: nat, now: nat, usable: set<Text>,
                               denied: Option<Code>, again: Source, between: seq<Step>)
    requires var s := Run(cfg, INITIAL, before);
             && op in s.ops && s.ops[op].phase.Reserved?
             && (s.ops[op].phase.intent.actor.Some? ==> ActorRow(cfg, s.store, again).Ok?)
             && RecheckError(cfg, s.store, HandleOf(s, s.ops[op].handle), s.ops[op].phase.intent, s.ops[op].phase.plan,
                             now, usable, denied, again).Some?
    requires var s := Run(cfg, INITIAL, before);
             var t := Run(cfg, Apply(cfg, s, CheckAgain(op, now, usable, denied, again, Committed)), between);
             op in t.ops && t.ops[op].phase.Checked?
    ensures var s := Run(cfg, INITIAL, before);
            var t := Run(cfg, Apply(cfg, s, CheckAgain(op, now, usable, denied, again, Committed)), between);
            var u := Apply(cfg, Apply(cfg, t, RunCommit(op, ConfirmedAbort)), FinishHold(op, true));
            && s.ops[op].horizon.Some?
            && ReleasedWith(t, u, op, s.ops[op].phase.draft.receipt.reservationId, s.ops[op].horizon.value.commandId,
                            RecheckError(cfg, s.store, HandleOf(s, s.ops[op].handle), s.ops[op].phase.intent,
                                         s.ops[op].phase.plan, now, usable, denied, again).value)
  {
    hide *;
    var s := Run(cfg, INITIAL, before);
    var step := CheckAgain(op, now, usable, denied, again, Committed);
    Reachable(cfg, before);
    ReservedHorizon(cfg, s, op);
    CheckedAgain(cfg, s, op, now, usable, denied, again, Committed);
    RecheckFinds(cfg, s.store, HandleOf(s, s.ops[op].handle), s.ops[op].phase.intent, s.ops[op].phase.plan, now, usable,
                 denied, again);
    var error := RecheckError(cfg, s.store, HandleOf(s, s.ops[op].handle), s.ops[op].phase.intent, s.ops[op].phase.plan,
                              now, usable, denied, again).value;
    StepKeeps(cfg, s, step);
    FailureIsTold(cfg, Apply(cfg, s, step), op, error, between);
  }

  lemma ReleasedSame(s: State, mid: State, t: State, op: nat, id: Text, commandId: Text, error: Code)
    requires ReleasedWith(mid, t, op, id, commandId, error) && mid.store == s.store && mid.calls == s.calls
    ensures ReleasedWith(s, t, op, id, commandId, error)
  {
  }
}
