/**
 The command protocol of the identity directory as a step system: any number of handles run any number of
 commands on one store. Every transaction, clock reading and capacity call is one atomic step, and the steps
 of different commands interleave freely. Host ports may answer anything, differently at every call.
 */
module DirectoryProtocol {
  import opened Common
  import opened CanonicalText
  import opened DirectoryRows
  import opened DirectoryTransactions
  import opened DirectoryStoreLaws

  /*** State ***/

  datatype Handle = Handle(fenced: bool, lastTime: nat, concurrent: nat)

  datatype Request =
    | ToProvision
    | ToLink
    | ToUnlink(linkId: Text)
    | ToReconcileSession
    | ToReconcileProvision

  // What became of the reservation of a command.
  datatype Hold = NoHold | SettledHold(id: Text) | ReleasedHold(id: Text) | KeptHold(id: Text)

  datatype Phase =
    | Opening(request: Request)
    | Guarding(request: Request, source: Source)
    | Guarded(request: Request, actor: Actor)
    | Deciding(intent: Intent)
    | Planned(intent: Intent, plan: Plan)
    | Priced(intent: Intent, plan: Plan, draft: Draft)
    | Reserved(intent: Intent, plan: Plan, draft: Draft)
    | Checked(intent: Intent, plan: Plan, draft: Draft, failure: Option<Code>)
    | Settling(reservationId: Text, result: CommandResult)
    | Releasing(reservationId: Text, error: Code)
    | Looking(account: Text, approved: Option<Intent>)
    | Replaying(receipt: CommandRow)
    | Ended(outcome: Result<Option<CommandResult>, Code>, hold: Hold)

  datatype Op = Op(handle: nat, gated: bool, horizon: Option<Horizon>, phase: Phase)

  datatype Call =
    | Settle(reservationId: Text, commandId: Text)
    | ReleaseConfirmedAbort(reservationId: Text, commandId: Text)

  datatype State = State(
    store: Store,
    handles: map<nat, Handle>,
    ops: map<nat, Op>,
    // History: capacity calls in order, confirmed aborts of commit transactions, who was granted a reservation.
    calls: seq<Call>,
    aborts: set<(Text, Text)>,
    granted: map<Text, nat>,
    // The latest time any handle has observed.
    clock: nat
  )

  const INITIAL: State := State(EMPTY, map[], map[], [], {}, map[], 0)

  function HandleOf(s: State, h: nat): Handle {
    if h in s.handles then s.handles[h] else Handle(false, 0, 0)
  }

  /*** Transactions ***/

  // A truthful store: committed writes are durable, a confirmed abort wrote nothing, and an unknown outcome
  // (also a lost acknowledgement or a throwing store) may or may not have applied the writes.
  datatype Outcome = Committed | ConfirmedAbort | Unknown(applied: bool)

  datatype Reply<+T> = Value(value: T) | Refused(error: Code) | Lost

  /** What a handle makes of a transaction: only a committed outcome of a completed callback yields a value. */
  function Atomic<T>(body: Result<T, Code>, o: Outcome): Reply<T> {
    match o
    case Committed => if body.Ok? then Value(body.value) else Lost
    case ConfirmedAbort => Refused(if body.Err? then body.error else StorageUnavailable)
    case Unknown(_) => Lost
  }

  /*** Handle fields ***/

  /** A clock reading below an earlier one of the same handle fences the handle. */
  function Observe(h: Handle, now: nat): (r: (Handle, bool)) {
    if h.lastTime <= now <= MAX_SAFE then (h.(lastTime := now), true) else (h.(fenced := true), false)
  }

  /** The write gate: fenced handles and handles at their concurrency limit refuse. */
  function Enter(cfg: Config, h: Handle): Result<Handle, Code> {
    if h.fenced then Err(CommitUnknown)
    else if h.concurrent >= cfg.maxConcurrentCommands then Err(CapacityExceeded)
    else Ok(h.(concurrent := h.concurrent + 1))
  }

  function Leave(h: Handle): Handle {
    h.(concurrent := if h.concurrent > 0 then h.concurrent - 1 else 0)
  }

  // What one step makes of the handle and the phase of its operation.
  datatype Move = Move(handle: Handle, phase: Phase)

  function Stop(h: Handle, error: Code): Move {
    Move(h, Ended(Err(error), NoHold))
  }

  /** An operation whose outcome is not known ends and fences its handle; a reservation stays held. */
  function Lose(h: Handle, hold: Hold): Move {
    Move(h.(fenced := true), Ended(Err(CommitUnknown), hold))
  }

  function Max(a: nat, b: nat): nat {
    if a < b then b else a
  }

  /** The state after operation op has moved; an ended command leaves the write gate. */
  function Update(s: State, op: nat, m: Move): State
    requires op in s.ops
  {
    var o := s.ops[op];
    s.(handles := s.handles[o.handle := if m.phase.Ended? && o.gated then Leave(m.handle) else m.handle],
       ops := s.ops[op := o.(phase := m.phase)],
       clock := Max(s.clock, m.handle.lastTime))
  }

  /*** Steps ***/

  datatype Answer =
    | Refuse(error: Code)
    | Session(source: Source)
    | Approve(account: Text, consentId: Text, issuer: Text, subject: Text, provider: Text)

  datatype Step =
    | AdmitCommand(op: nat, handle: nat, raw: Text, now: nat, request: Request)
    | ReceiveAnswer(op: nat, answer: Answer)
    | RunGuard(op: nat, outcome: Outcome)
    | ResolveIntent(op: nat, outcome: Outcome, answer: Answer)
    | RunPreflight(op: nat, outcome: Outcome)
    | PriceRows(op: nat, usable: set<Text>, now: nat, linkId: Text, eventId: Text, quoted: bool)
    | ReserveGrowth(op: nat, id: Option<Text>)
    | CheckAgain(op: nat, now: nat, usable: set<Text>, denied: Option<Code>, again: Source, outcome: Outcome)
    | RunCommit(op: nat, outcome: Outcome)
    | FinishHold(op: nat, acknowledged: bool)
    | RunLookUp(op: nat, outcome: Outcome)
    | AcknowledgeEvent(n: nat)
    | Tick(handle: nat, now: nat)

  // Reading the request of a newly admitted operation.
  function Admission(cfg: Config, h: Handle, raw: Text, now: nat, request: Request): (Move, Option<Horizon>) {
    var (observed, ok) := Observe(h, now);
    if !ok then (Stop(observed, InvalidInput), None)
    else
      var horizon := ParseHorizon(raw, now, cfg.replayWindow);
      if horizon.Err? then (Stop(observed, horizon.error), None)
      else (Move(observed, Opening(request)), Some(horizon.value))
  }

  predicate Gated(request: Request) {
    request.ToProvision? || request.ToLink? || request.ToUnlink?
  }

  function AdmitStep(cfg: Config, s: State, op: nat, h: nat, raw: Text, now: nat, request: Request): State {
    if op in s.ops then s
    else
      var gated := Gated(request);
      var entered := if gated then Enter(cfg, HandleOf(s, h)) else Ok(HandleOf(s, h));
      if entered.Err? then s.(ops := s.ops[op := Op(h, false, None, Ended(Err(entered.error), NoHold))])
      else
        var (move, horizon) := Admission(cfg, entered.value, raw, now, request);
        Update(s.(ops := s.ops[op := Op(h, gated, horizon, Opening(request))]), op, move)
  }

  function ProvisionIntent(horizon: Horizon, a: Answer): Intent
    requires a.Approve?
  {
    Intent(Provision, horizon, a.account, a.consentId, ByIdentity(a.issuer, a.subject), a.provider, None)
  }

  function Decide(cfg: Config, h: Handle, intent: Intent): Move {
    if IntentOk(cfg, intent) then Move(h, Deciding(intent)) else Stop(h, AuthorizationDenied)
  }

  function OnAnswer(cfg: Config, h: Handle, request: Request, horizon: Horizon, answer: Answer): Option<Move> {
    match answer
    case Refuse(error) => Some(Stop(h, error))
    case Session(source) =>
      if request.ToProvision? || request.ToReconcileProvision? then None else Some(Move(h, Guarding(request, source)))
    case Approve(account, _, _, _, _) =>
      var intent := ProvisionIntent(horizon, answer);
      if request.ToProvision? then Some(Decide(cfg, h, intent))
      else if request.ToReconcileProvision? then Some(Move(h, Looking(account, Some(intent))))
      else None
  }

  function OnGuard(cfg: Config, st: Store, h: Handle, request: Request, source: Source, outcome: Outcome): Move {
    match Atomic(ActorRow(cfg, st, source), outcome)
    case Value(actor) => Move(h, Guarded(request, actor))
    case Refused(error) => Stop(h, error)
    case Lost => Lose(h, NoHold)
  }

  /** The intent of a guarded command; the row an unlink names must belong to the actor's account. */
  function OnResolve(cfg: Config, st: Store, h: Handle, request: Request, actor: Actor, horizon: Horizon,
                     outcome: Outcome, answer: Answer): Option<Move>
  {
    if answer.Refuse? then Some(Stop(h, answer.error))
    else if request.ToReconcileSession? then Some(Move(h, Looking(actor.source.account, None)))
    else if !answer.Approve? then None
    else if request.ToLink? then
      Some(Decide(cfg, h, Intent(Link, horizon, actor.source.account, answer.consentId,
                                 ByIdentity(answer.issuer, answer.subject), answer.provider, Some(actor))))
    else if request.ToUnlink? then
      match Atomic(StoredLink(cfg, st, request.linkId), outcome)
      case Lost => Some(Lose(h, NoHold))
      case Refused(error) => Some(Stop(h, error))
      case Value(row) =>
        if row.None? || row.value.account != actor.source.account then Some(Stop(h, IdentityConflict))
        else
          Some(Decide(cfg, h, Intent(Unlink, horizon, actor.source.account, answer.consentId,
                                     ByLink(request.linkId), row.value.provider, Some(actor))))
    else None
  }

  function OnPreflight(cfg: Config, st: Store, h: Handle, intent: Intent, outcome: Outcome): Move {
    match Atomic(Preflight(cfg, st, intent), outcome)
    case Value(plan) => Move(h, if plan.receipt.Some? then Replaying(plan.receipt.value) else Planned(intent, plan))
    case Refused(error) => Stop(h, error)
    case Lost => Lose(h, NoHold)
  }

  /** Some other active link of the plan is routed to an enabled provider. */
  predicate UsableLeft(links: seq<IdentityRow>, linkId: Text, usable: set<Text>) {
    exists i | 0 <= i < |links| :: links[i].linkId != linkId && links[i].active && links[i].linkId in usable
  }

  predicate MethodLeft(i: Intent, plan: Plan, usable: set<Text>) {
    i.target.ByLink? && i.action == Unlink ==> UsableLeft(plan.links, i.target.linkId, usable)
  }

  function OnPrice(cfg: Config, h: Handle, intent: Intent, plan: Plan, usable: set<Text>, now: nat, linkId: Text,
                   eventId: Text, quoted: bool): Move
  {
    if !MethodLeft(intent, plan, usable) then Stop(h, LastMethod)
    else
      var (observed, ok) := Observe(h, now);
      if !ok || !IdOk(linkId) || !IdOk(eventId) then Stop(observed, InvalidInput)
      else
        var made := MakeDraft(cfg, intent, plan, now, linkId, eventId);
        if made.Err? then Stop(observed, made.error)
        else if !Sized(cfg, made.value) || !quoted then Stop(observed, CapacityExceeded)
        else Move(observed, Priced(intent, plan, made.value))
  }

  function OnReserve(h: Handle, intent: Intent, plan: Plan, draft: Draft, id: Option<Text>): Move {
    if id.None? || !Portable(id.value, 128) then Stop(h, CapacityExceeded)
    else Move(h, Reserved(intent, plan, Funded(draft, id.value)))
  }

  // The actor as the repeated guard sees it, compared with the actor of the intent.
  // The session may meanwhile have another binding.
  function ActorAgain(cfg: Config, st: Store, i: Intent, again: Source, outcome: Outcome): Reply<bool> {
    if i.actor.None? then Value(true)
    else
      match Atomic(ActorRow(cfg, st, again), outcome)
      case Value(actor) => Value(actor == i.actor.value)
      case Refused(error) => Refused(error)
      case Lost => Lost
  }

  /** After the reservation everything is checked again; a failure is kept for the commit transaction. */
  function Rechecked(cfg: Config, st: Store, h: Handle, intent: Intent, plan: Plan, now: nat, usable: set<Text>,
                     denied: Option<Code>, again: Source, outcome: Outcome): (Handle, Option<Code>)
  {
    if h.fenced then (h, Some(CommitUnknown))
    else
      var (observed, ok) := Observe(h, now);
      if !ok then (observed, Some(InvalidInput))
      else
        var horizon := ParseHorizon(intent.horizon.commandId, now, cfg.replayWindow);
        if horizon.Err? then (observed, Some(horizon.error))
        else
          match ActorAgain(cfg, st, intent, again, outcome)
          case Lost => (observed.(fenced := true), Some(CommitUnknown))
          case Refused(error) => (observed, Some(error))
          case Value(same) =>
            if !same then (observed, Some(AuthenticationDenied))
            else if denied.Some? then (observed, denied)
            else if !MethodLeft(intent, plan, usable) then (observed, Some(LastMethod))
            else (observed, None)
  }

  function LookUpBody(cfg: Config, st: Store, horizon: Horizon, account: Text, approved: Option<Intent>)
    : Result<Option<CommandRow>, Code>
  {
    var found :- StoredCommand(cfg, st, horizon.commandId);
    if found.None? then Ok(None)
    else if found.value.account != account || found.value.expiresAt != horizon.deadline then Err(CommandConflict)
    else if approved.Some? && !ReceiptMatches(cfg, found.value, approved.value) then Err(CommandConflict)
    else Ok(found)
  }

  function OnLookUp(cfg: Config, st: Store, h: Handle, horizon: Horizon, account: Text, approved: Option<Intent>,
                    outcome: Outcome): Move
  {
    match Atomic(LookUpBody(cfg, st, horizon, account, approved), outcome)
    case Value(found) => Move(h, if found.Some? then Replaying(found.value) else Ended(Ok(None), NoHold))
    case Refused(error) => Stop(h, error)
    case Lost => Lose(h, NoHold)
  }

  /** The move of a step that neither writes nor settles; none if the step is not enabled. */
  function Local(cfg: Config, st: Store, h: Handle, o: Op, step: Step): Option<Move> {
    if o.horizon.None? then None
    else
      match (step, o.phase)
      case (ReceiveAnswer(_, answer), Opening(request)) => OnAnswer(cfg, h, request, o.horizon.value, answer)
      case (RunGuard(_, outcome), Guarding(request, source)) => Some(OnGuard(cfg, st, h, request, source, outcome))
      case (ResolveIntent(_, outcome, answer), Guarded(request, actor)) =>
        OnResolve(cfg, st, h, request, actor, o.horizon.value, outcome, answer)
      case (RunPreflight(_, outcome), Deciding(intent)) => Some(OnPreflight(cfg, st, h, intent, outcome))
      case (PriceRows(_, usable, now, linkId, eventId, quoted), Planned(intent, plan)) =>
        Some(OnPrice(cfg, h, intent, plan, usable, now, linkId, eventId, quoted))
      case (ReserveGrowth(_, id), Priced(intent, plan, draft)) => Some(OnReserve(h, intent, plan, draft, id))
      case (CheckAgain(_, now, usable, denied, again, outcome), Reserved(intent, plan, draft)) =>
        var (handle, failure) := Rechecked(cfg, st, h, intent, plan, now, usable, denied, again, outcome);
        Some(Move(handle, Checked(intent, plan, draft, failure)))
      case (RunLookUp(_, outcome), Looking(account, approved)) =>
        Some(OnLookUp(cfg, st, h, o.horizon.value, account, approved, outcome))
      case _ => None
  }

  // A granted reservation is entered in the history.
  function Granted(s: State, op: nat, p: Phase): State {
    if p.Reserved? then s.(granted := s.granted[p.draft.receipt.reservationId := op]) else s
  }

  function LocalStep(cfg: Config, s: State, step: Step): State
    requires !step.AcknowledgeEvent? && !step.Tick?
  {
    if step.op !in s.ops then s
    else
      var o := s.ops[step.op];
      var move := Local(cfg, s.store, HandleOf(s, o.handle), o, step);
      if move.None? then s else Granted(Update(s, step.op, move.value), step.op, move.value.phase)
  }

  /*** The commit transaction and what follows it ***/

  function BodyOf(cfg: Config, s: State, o: Op): Result<Commit, Code>
    requires o.phase.Checked?
  {
    CommitBody(cfg, s.store, HandleOf(s, o.handle).fenced, o.phase.failure, o.phase.intent, o.phase.plan, o.phase.draft)
  }

  function CommitStep(cfg: Config, s: State, op: nat, outcome: Outcome): State {
    if op !in s.ops || !s.ops[op].phase.Checked? then s
    else
      var o := s.ops[op];
      var id, commandId := o.phase.draft.receipt.reservationId, o.phase.intent.horizon.commandId;
      var h, body := HandleOf(s, o.handle), BodyOf(cfg, s, o);
      match Atomic(body, outcome)
      case Value(c) => Update(s.(store := c.store), op, Move(h, Settling(id, c.result)))
      case Refused(error) => Update(s.(aborts := s.aborts + {(id, commandId)}), op, Move(h, Releasing(id, error)))
      case Lost =>
        var applied := outcome.Unknown? && outcome.applied && body.Ok?;
        Update(if applied then s.(store := body.value.store) else s, op, Lose(h, KeptHold(id)))
  }

  /** Settling a committed or replayed receipt, or releasing after a confirmed abort. */
  function Closing(o: Op): Option<(Call, Phase, Hold)> {
    if o.horizon.None? then None
    else
      var commandId := o.horizon.value.commandId;
      match o.phase
      case Settling(id, result) => Some((Settle(id, commandId), Ended(Ok(Some(result)), SettledHold(id)), KeptHold(id)))
      case Releasing(id, error) =>
        Some((ReleaseConfirmedAbort(id, commandId), Ended(Err(error), ReleasedHold(id)), KeptHold(id)))
      case Replaying(receipt) =>
        Some((Settle(receipt.reservationId, receipt.commandId),
              Ended(Ok(Some(receipt.result.(replay := true))), NoHold), NoHold))
      case _ => None
  }

  function FinishStep(s: State, op: nat, acknowledged: bool): State {
    if op !in s.ops || Closing(s.ops[op]).None? then s
    else
      var (call, phase, hold) := Closing(s.ops[op]).value;
      var h := HandleOf(s, s.ops[op].handle);
      Update(s.(calls := s.calls + [call]), op, if acknowledged then Move(h, phase) else Lose(h, hold))
  }

  function TickStep(s: State, h: nat, now: nat): State {
    var (observed, _) := Observe(HandleOf(s, h), now);
    s.(handles := s.handles[h := observed], clock := Max(s.clock, observed.lastTime))
  }

  /** One step; a step that is not enabled changes nothing. */
  function Apply(cfg: Config, s: State, step: Step): State {
    match step
    case AdmitCommand(op, h, raw, now, request) => AdmitStep(cfg, s, op, h, raw, now, request)
    case RunCommit(op, outcome) => CommitStep(cfg, s, op, outcome)
    case FinishHold(op, acknowledged) => FinishStep(s, op, acknowledged)
    case AcknowledgeEvent(n) => s.(store := Acknowledged(s.store, n))
    case Tick(h, now) => TickStep(s, h, now)
    case _ => LocalStep(cfg, s, step)
  }

  /** A schedule of steps, run in order. */
  function Run(cfg: Config, s: State, steps: seq<Step>): State
    decreases |steps|
  {
    if steps == [] then s else Run(cfg, Apply(cfg, s, steps[0]), steps[1..])
  }
}
