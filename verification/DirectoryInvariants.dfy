/** The inductive invariant of the command protocol: every step of every schedule preserves it. */
module DirectoryInvariants {
  import opened Common
  import opened CanonicalText
  import opened DirectoryRows
  import opened DirectoryTransactions
  import opened DirectoryStoreLaws
  import opened DirectoryProtocol

  /*** The invariant ***/

  // A plan is not newer than the store; while the account's revision stands, so do the links the plan saw.
  ghost predicate PlanHolds(st: Store, i: Intent, plan: Plan) {
    var seen := if plan.revision.Some? then plan.revision.value else 0;
    && (plan.revision.Some? ==> 1 <= seen)
    && seen <= RevisionOf(st, i.account)
    && (i.action == Unlink && seen == RevisionOf(st, i.account) ==> plan.links == Owned(st.identities, i.account))
  }

  ghost predicate PlanOk(cfg: Config, st: Store, i: Intent, plan: Plan) {
    && IntentOk(cfg, i) && plan.receipt.None? && TargetAllowed(i, plan.target) && PlanHolds(st, i, plan)
    && (i.action == Unlink ==> plan.target.Some? && plan.target.value.linkId == i.target.linkId)
  }

  ghost predicate Prepared(cfg: Config, st: Store, i: Intent, plan: Plan, d: Draft) {
    && PlanOk(cfg, st, i, plan)
    && Shape(cfg, i, plan, d)
    && (i.action == Unlink ==> OtherActive(plan.links, i.target.linkId))
  }

  ghost predicate Recorded(st: Store, id: Text, commandId: Text) {
    exists k | 0 <= k < |st.commands| :: st.commands[k].reservationId == id && st.commands[k].commandId == commandId
  }

  // The receipt of the command holds this result.
  ghost predicate Resulted(st: Store, commandId: Text, r: CommandResult) {
    exists k | 0 <= k < |st.commands| ::
      st.commands[k].commandId == commandId && st.commands[k].result == r.(replay := false)
  }

  ghost predicate PhaseOk(cfg: Config, s: State, o: Op) {
    match o.phase
    case Opening(_) => true
    case Guarding(_, _) => true
    case Guarded(_, _) => true
    case Deciding(i) => o.horizon == Some(i.horizon) && IntentOk(cfg, i)
    case Planned(i, plan) => o.horizon == Some(i.horizon) && PlanOk(cfg, s.store, i, plan)
    case Priced(i, plan, d) => o.horizon == Some(i.horizon) && Prepared(cfg, s.store, i, plan, d)
    case Reserved(i, plan, d) => o.horizon == Some(i.horizon) && Prepared(cfg, s.store, i, plan, d)
    case Checked(i, plan, d, _) => o.horizon == Some(i.horizon) && Prepared(cfg, s.store, i, plan, d)
    case Settling(id, r) =>
      && o.horizon.Some? && Recorded(s.store, id, o.horizon.value.commandId)
      && Resulted(s.store, o.horizon.value.commandId, r)
    case Releasing(id, _) => o.horizon.Some? && (id, o.horizon.value.commandId) in s.aborts
    case Looking(_, _) => o.horizon.Some?
    case Replaying(receipt) =>
      && o.horizon.Some? && receipt.commandId == o.horizon.value.commandId
      && !receipt.result.replay && receipt in s.store.commands
    case Ended(outcome, hold) => EndedOk(s, o, outcome, hold)
  }

  // Success means a recorded result and a settled reservation; any other end released or never had the
  // reservation, or keeps it on a fenced handle.
  ghost predicate EndedOk(s: State, o: Op, outcome: Result<Option<CommandResult>, Code>, hold: Hold) {
    && (outcome.Ok? ==> hold.NoHold? || hold.SettledHold?)
    && (outcome.Ok? && outcome.value.Some? ==>
          o.horizon.Some? && Resulted(s.store, o.horizon.value.commandId, outcome.value.value))
    && (hold.SettledHold? ==> outcome.Ok? && o.horizon.Some? && Settle(hold.id, o.horizon.value.commandId) in s.calls)
    && (hold.ReleasedHold? ==>
          outcome.Err? && o.horizon.Some? && ReleaseConfirmedAbort(hold.id, o.horizon.value.commandId) in s.calls)
    && (hold.KeptHold? ==> outcome == Err(CommitUnknown) && HandleOf(s, o.handle).fenced)
  }

  ghost predicate CallOk(s: State, c: Call) {
    match c
    case Settle(id, commandId) => Recorded(s.store, id, commandId)
    case ReleaseConfirmedAbort(id, commandId) => (id, commandId) in s.aborts
  }

  ghost predicate Inv(cfg: Config, s: State) {
    && StoreOk(cfg, s.store)
    && (forall op | op in s.ops :: PhaseOk(cfg, s, s.ops[op]))
    && (forall c | c in s.calls :: CallOk(s, c))
    && (forall k | 0 <= k < |s.store.commands| :: !s.store.commands[k].result.replay)
  }

  /*** Progress of a state ***/

  ghost predicate Extends(s: State, t: State) {
    && Grows(s.store, t.store)
    && s.calls <= t.calls
    && s.aborts <= t.aborts
    && (forall h: nat | HandleOf(s, h).fenced :: HandleOf(t, h).fenced)
  }

  lemma ExtendsReflexive(s: State)
    ensures Extends(s, s)
  {
    GrowsReflexive(s.store);
  }

  lemma ExtendsTransitive(s: State, t: State, u: State)
    requires Extends(s, t) && Extends(t, u)
    ensures Extends(s, u)
  {
    GrowsTransitive(s.store, t.store, u.store);
  }

  lemma RecordedStays(s: Store, t: Store, id: Text, commandId: Text)
    requires s.commands <= t.commands && Recorded(s, id, commandId)
    ensures Recorded(t, id, commandId)
  {
    var k :| 0 <= k < |s.commands| && s.commands[k].reservationId == id && s.commands[k].commandId == commandId;
    assert t.commands[k] == s.commands[k];
  }

  lemma ResultedStays(s: Store, t: Store, commandId: Text, r: CommandResult)
    requires s.commands <= t.commands && Resulted(s, commandId, r)
    ensures Resulted(t, commandId, r)
  {
    var k :| 0 <= k < |s.commands| && s.commands[k].commandId == commandId
             && s.commands[k].result == r.(replay := false);
    assert t.commands[k] == s.commands[k];
  }

  lemma PlanHoldsStays(s: Store, t: Store, i: Intent, plan: Plan)
    requires Grows(s, t) && PlanHolds(s, i, plan)
    ensures PlanHolds(t, i, plan)
  {
    assert RevisionOf(s, i.account) <= RevisionOf(t, i.account);
  }

  lemma EndedStays(s: State, t: State, o: Op, outcome: Result<Option<CommandResult>, Code>, hold: Hold)
    requires Extends(s, t) && EndedOk(s, o, outcome, hold)
    ensures EndedOk(t, o, outcome, hold)
  {
    if outcome.Ok? && outcome.value.Some? {
      ResultedStays(s.store, t.store, o.horizon.value.commandId, outcome.value.value);
    }
  }

  /** What holds of an operation keeps holding while other operations step. */
  lemma PhaseStays(cfg: Config, s: State, t: State, o: Op)
    requires Extends(s, t) && PhaseOk(cfg, s, o)
    ensures PhaseOk(cfg, t, o)
  {
    match o.phase
    case Planned(i, plan) => PlanHoldsStays(s.store, t.store, i, plan);
    case Priced(i, plan, _) => PlanHoldsStays(s.store, t.store, i, plan);
    case Reserved(i, plan, _) => PlanHoldsStays(s.store, t.store, i, plan);
    case Checked(i, plan, _, _) => PlanHoldsStays(s.store, t.store, i, plan);
    case Settling(id, r) =>
      RecordedStays(s.store, t.store, id, o.horizon.value.commandId);
      ResultedStays(s.store, t.store, o.horizon.value.commandId, r);
    case Ended(outcome, hold) => EndedStays(s, t, o, outcome, hold);
    case _ =>
  }

  lemma CallStays(s: State, t: State, c: Call)
    requires Extends(s, t) && CallOk(s, c)
    ensures CallOk(t, c)
  {
    if c.Settle? {
      RecordedStays(s.store, t.store, c.reservationId, c.commandId);
    }
  }

  /** A step that leaves the store alone and changes one operation preserves the invariant if that operation is fine. */
  lemma OneOperation(cfg: Config, s: State, t: State, op: nat)
    requires Inv(cfg, s) && Extends(s, t) && StoreOk(cfg, t.store)
    requires forall k | 0 <= k < |t.store.commands| :: !t.store.commands[k].result.replay
    requires op in t.ops && PhaseOk(cfg, t, t.ops[op])
    requires forall p | p in t.ops && p != op :: p in s.ops && t.ops[p] == s.ops[p]
    requires forall c | c in t.calls :: c in s.calls || CallOk(t, c)
    ensures Inv(cfg, t)
  {
    forall p | p in t.ops ensures PhaseOk(cfg, t, t.ops[p]) {
      if p != op {
        PhaseStays(cfg, s, t, s.ops[p]);
      }
    }
    forall c | c in t.calls ensures CallOk(t, c) {
      if c in s.calls {
        CallStays(s, t, c);
      }
    }
  }

  lemma UpdateExtends(s: State, op: nat, m: Move)
    requires op in s.ops && (HandleOf(s, s.ops[op].handle).fenced ==> m.handle.fenced)
    ensures Extends(s, Update(s, op, m))
    ensures HandleOf(Update(s, op, m), s.ops[op].handle).fenced == m.handle.fenced
  {
    hide Grows;
    GrowsReflexive(s.store);
  }

  /** A state whose store and calls are as before and of which one operation has moved. */
  lemma UpdateKeeps(cfg: Config, s: State, op: nat, m: Move)
    requires Inv(cfg, s) && op in s.ops && (HandleOf(s, s.ops[op].handle).fenced ==> m.handle.fenced)
    requires PhaseOk(cfg, Update(s, op, m), s.ops[op].(phase := m.phase))
    ensures Inv(cfg, Update(s, op, m)) && Extends(s, Update(s, op, m))
  {
    hide Grows, StoreOk, PhaseOk, CallOk, Extends;
    UpdateExtends(s, op, m);
    OneOperation(cfg, s, Update(s, op, m), op);
  }

  /*** The steps that leave the store alone ***/

  /** A fresh plan holds: it has read the account's revision and links in one transaction. */
  lemma FreshPlan(cfg: Config, st: Store, i: Intent)
    requires StoreOk(cfg, st) && IntentOk(cfg, i)
    requires Preflight(cfg, st, i).Ok? && Preflight(cfg, st, i).value.receipt.None?
    ensures PlanOk(cfg, st, i, Preflight(cfg, st, i).value)
  {
    hide StoreOk, IntentOk, Preflight, FindTarget, Admits, StoredRevision, Links;
    PreflightFacts(cfg, st, i);
    RevisionSeen(cfg, st, i.account);
    var p := Preflight(cfg, st, i).value;
    TargetHasId(cfg, st, i, p.target);
    if i.action == Unlink {
      LinksSeen(cfg, st, i.account);
    }
  }

  // A revision is read as it is, counting from one.
  lemma RevisionSeen(cfg: Config, st: Store, account: Text)
    requires StoredRevision(st, account).Ok?
    ensures var r := StoredRevision(st, account).value;
            RevisionOf(st, account) == (if r.Some? then r.value else 0) && (r.Some? ==> 1 <= r.value)
  {
  }

  lemma TargetHasId(cfg: Config, st: Store, i: Intent, target: Option<IdentityRow>)
    requires IntentOk(cfg, i) && FindTarget(cfg, st, i.target) == Ok(target) && TargetAllowed(i, target)
    ensures i.action == Unlink ==> target.Some? && i.target.ByLink? && target.value.linkId == i.target.linkId
  {
    hide IdentityRowOk, TextOk, Portable, AccountOk;
  }

  lemma LinksSeen(cfg: Config, st: Store, account: Text)
    requires StoreOk(cfg, st) && Links(cfg, st, account).Ok?
    ensures Links(cfg, st, account).value == Owned(st.identities, account)
  {
    hide IdentityRowOk, Parity, Counted, KeepsMethod, Corresponding, UniqueKeys, UniqueIdentities;
  }

  lemma UsableIsActive(links: seq<IdentityRow>, linkId: Text, usable: set<Text>)
    requires UsableLeft(links, linkId, usable)
    ensures OtherActive(links, linkId)
  {
  }

  lemma MadeShape(cfg: Config, i: Intent, plan: Plan, at: nat, drawn: Text, eventId: Text)
    requires IntentOk(cfg, i) && TargetAllowed(i, plan.target) && MakeDraft(cfg, i, plan, at, drawn, eventId).Ok?
    ensures Shape(cfg, i, plan, MakeDraft(cfg, i, plan, at, drawn, eventId).value)
  {
    var d := MakeDraft(cfg, i, plan, at, drawn, eventId).value;
    assert d == Funded(d, d.receipt.reservationId);
    DraftShape(cfg, i, plan, d, at, drawn, eventId);
  }

  // What holds of a running operation, apart from its capacity calls.
  ghost predicate RunningOk(cfg: Config, st: Store, o: Op) {
    match o.phase
    case Deciding(i) => o.horizon == Some(i.horizon) && IntentOk(cfg, i)
    case Planned(i, plan) => o.horizon == Some(i.horizon) && PlanOk(cfg, st, i, plan)
    case Priced(i, plan, d) => o.horizon == Some(i.horizon) && Prepared(cfg, st, i, plan, d)
    case Reserved(i, plan, d) => o.horizon == Some(i.horizon) && Prepared(cfg, st, i, plan, d)
    case Checked(i, plan, d, _) => o.horizon == Some(i.horizon) && Prepared(cfg, st, i, plan, d)
    case Looking(_, _) => o.horizon.Some?
    case Replaying(receipt) =>
      && o.horizon.Some? && receipt.commandId == o.horizon.value.commandId
      && !receipt.result.replay && receipt in st.commands
    case Settling(_, _) => false
    case Releasing(_, _) => false
    case Ended(outcome, hold) => hold == NoHold && (outcome.Err? || outcome == Ok(None))
    case _ => true
  }

  lemma PreflightMove(cfg: Config, st: Store, h: Handle, o: Op, outcome: Outcome)
    requires StoreOk(cfg, st) && o.phase.Deciding? && RunningOk(cfg, st, o)
    ensures RunningOk(cfg, st, o.(phase := OnPreflight(cfg, st, h, o.phase.intent, outcome).phase))
  {
    hide StoreOk, PlanOk, IntentOk, ReceiptMatches, Preflight;
    var i := o.phase.intent;
    var body := Preflight(cfg, st, i);
    if body.Ok? {
      if body.value.receipt.Some? {
        ReceiptFound(cfg, st, i);
      } else {
        FreshPlan(cfg, st, i);
      }
    }
  }

  lemma PlanFits(cfg: Config, st: Store, i: Intent, plan: Plan)
    requires PlanOk(cfg, st, i, plan)
    ensures i.action == Unlink ==> i.target.ByLink?
  {
  }

  lemma PriceMove(cfg: Config, st: Store, h: Handle, o: Op, usable: set<Text>, now: nat, linkId: Text,
                  eventId: Text, quoted: bool)
    requires o.phase.Planned? && RunningOk(cfg, st, o)
    ensures var m := OnPrice(cfg, h, o.phase.intent, o.phase.plan, usable, now, linkId, eventId, quoted);
            RunningOk(cfg, st, o.(phase := m.phase))
  {
    hide MakeDraft, Sized, UsableLeft, OtherActive, Observe, Shape, IntentOk, TargetAllowed, PlanHolds;
    var Planned(i, plan) := o.phase;
    PlanFits(cfg, st, i, plan);
    if MakeDraft(cfg, i, plan, now, linkId, eventId).Ok? {
      MadeShape(cfg, i, plan, now, linkId, eventId);
    }
    if i.action == Unlink && MethodLeft(i, plan, usable) {
      UsableIsActive(plan.links, i.target.linkId, usable);
    }
  }

  lemma ReserveMove(cfg: Config, st: Store, h: Handle, o: Op, id: Option<Text>)
    requires o.phase.Priced? && RunningOk(cfg, st, o)
    ensures var m := OnReserve(h, o.phase.intent, o.phase.plan, o.phase.draft, id);
            RunningOk(cfg, st, o.(phase := m.phase))
  {
  }

  lemma LookUpMove(cfg: Config, st: Store, h: Handle, o: Op, outcome: Outcome)
    requires o.phase.Looking? && RunningOk(cfg, st, o)
    ensures var m := OnLookUp(cfg, st, h, o.horizon.value, o.phase.account, o.phase.approved, outcome);
            RunningOk(cfg, st, o.(phase := m.phase))
  {
    hide LookUpBody;
    FoundCommand(cfg, st, o.horizon.value, o.phase.account, o.phase.approved);
  }

  lemma FoundCommand(cfg: Config, st: Store, horizon: Horizon, account: Text, approved: Option<Intent>)
    ensures var body := LookUpBody(cfg, st, horizon, account, approved);
            body.Ok? && body.value.Some? ==>
              && body.value.value in st.commands && body.value.value.commandId == horizon.commandId
              && !body.value.value.result.replay
  {
    hide StoredCommand, ReceiptMatches;
    CommandFound(cfg, st, horizon.commandId);
  }

  lemma RecheckMove(cfg: Config, st: Store, h: Handle, o: Op, now: nat, usable: set<Text>, denied: Option<Code>,
                    again: Source, outcome: Outcome)
    requires o.phase.Reserved? && RunningOk(cfg, st, o)
    ensures var Reserved(i, plan, d) := o.phase;
            var (handle, failure) := Rechecked(cfg, st, h, i, plan, now, usable, denied, again, outcome);
            RunningOk(cfg, st, o.(phase := Checked(i, plan, d, failure))) && (h.fenced ==> handle.fenced)
  {
    hide Prepared, ActorRow, ParseHorizon;
  }

  lemma EarlyMoves(cfg: Config, st: Store, h: Handle, o: Op, step: Step)
    requires step.ReceiveAnswer? || step.RunGuard? || step.ResolveIntent?
    requires RunningOk(cfg, st, o) && Local(cfg, st, h, o, step).Some?
    ensures var m := Local(cfg, st, h, o, step).value;
            RunningOk(cfg, st, o.(phase := m.phase)) && (h.fenced ==> m.handle.fenced)
  {
    hide ActorRow, StoredLink, IntentOk;
  }

  /** A local move keeps what is known of its operation and never lifts a fence. */
  lemma LocalOk(cfg: Config, st: Store, h: Handle, o: Op, step: Step)
    requires StoreOk(cfg, st) && RunningOk(cfg, st, o) && Local(cfg, st, h, o, step).Some?
    ensures var m := Local(cfg, st, h, o, step).value;
            RunningOk(cfg, st, o.(phase := m.phase)) && (h.fenced ==> m.handle.fenced)
  {
    hide StoreOk, RunningOk, OnAnswer, OnGuard, OnResolve, Rechecked, Preflight, LookUpBody, MakeDraft, Sized,
         MethodLeft;
    match step
    case RunPreflight(_, outcome) => PreflightMove(cfg, st, h, o, outcome);
    case PriceRows(_, usable, now, linkId, eventId, quoted) =>
      PriceMove(cfg, st, h, o, usable, now, linkId, eventId, quoted);
    case ReserveGrowth(_, id) => ReserveMove(cfg, st, h, o, id);
    case CheckAgain(_, now, usable, denied, again, outcome) =>
      RecheckMove(cfg, st, h, o, now, usable, denied, again, outcome);
    case RunLookUp(_, outcome) => LookUpMove(cfg, st, h, o, outcome);
    case _ => EarlyMoves(cfg, st, h, o, step);
  }

  lemma RunningPhase(cfg: Config, s: State, o: Op)
    requires RunningOk(cfg, s.store, o)
    ensures PhaseOk(cfg, s, o)
  {
  }

  lemma PhaseRunning(cfg: Config, s: State, o: Op)
    requires PhaseOk(cfg, s, o) && !o.phase.Settling? && !o.phase.Releasing? && !o.phase.Ended?
    ensures RunningOk(cfg, s.store, o)
  {
  }

  lemma PhaseOf(cfg: Config, s: State, op: nat)
    requires Inv(cfg, s) && op in s.ops
    ensures PhaseOk(cfg, s, s.ops[op])
  {
  }

  lemma InvStore(cfg: Config, s: State)
    requires Inv(cfg, s)
    ensures StoreOk(cfg, s.store)
    ensures forall k | 0 <= k < |s.store.commands| :: !s.store.commands[k].result.replay
  {
    hide StoreOk, PhaseOk, CallOk;
  }

  lemma LocalHasMove(cfg: Config, st: Store, h: Handle, o: Op, step: Step)
    requires Local(cfg, st, h, o, step).Some?
    ensures !o.phase.Settling? && !o.phase.Releasing? && !o.phase.Ended?
  {
    hide OnAnswer, OnGuard, OnResolve, OnPreflight, OnPrice, OnReserve, Rechecked, OnLookUp;
  }

  lemma GrantedKeeps(cfg: Config, s: State, t: State, op: nat, p: Phase)
    requires Inv(cfg, t) && Extends(s, t)
    ensures Inv(cfg, Granted(t, op, p)) && Extends(s, Granted(t, op, p))
  {
    hide Grows, StoreOk, CallOk, PhaseOk;
    forall q | q in t.ops ensures PhaseOk(cfg, Granted(t, op, p), t.ops[q]) {
      GrantedPhase(cfg, t, op, p, t.ops[q]);
    }
    forall c | c in t.calls ensures CallOk(Granted(t, op, p), c) {
      GrantedCall(t, op, p, c);
    }
  }

  lemma GrantedPhase(cfg: Config, t: State, op: nat, p: Phase, o: Op)
    requires PhaseOk(cfg, t, o)
    ensures PhaseOk(cfg, Granted(t, op, p), o)
  {
    hide Prepared, PlanOk, IntentOk, Recorded, Resulted;
  }

  lemma GrantedCall(t: State, op: nat, p: Phase, c: Call)
    requires CallOk(t, c)
    ensures CallOk(Granted(t, op, p), c)
  {
    hide Recorded;
  }

  lemma LocalUpdateKeeps(cfg: Config, s: State, step: Step, op: nat)
    requires !step.AcknowledgeEvent? && !step.Tick?
    requires Inv(cfg, s) && op in s.ops
    requires Local(cfg, s.store, HandleOf(s, s.ops[op].handle), s.ops[op], step).Some?
    ensures var m := Local(cfg, s.store, HandleOf(s, s.ops[op].handle), s.ops[op], step).value;
            Inv(cfg, Update(s, op, m)) && Extends(s, Update(s, op, m))
  {
    hide *;
    var o := s.ops[op];
    var h := HandleOf(s, o.handle);
    var m := Local(cfg, s.store, h, o, step).value;
    PhaseOf(cfg, s, op);
    LocalHasMove(cfg, s.store, h, o, step);
    PhaseRunning(cfg, s, o);
    InvStore(cfg, s);
    LocalOk(cfg, s.store, h, o, step);
    SameStore(s, op, m);
    RunningPhase(cfg, Update(s, op, m), o.(phase := m.phase));
    UpdateKeeps(cfg, s, op, m);
  }

  lemma SameStore(s: State, op: nat, m: Move)
    requires op in s.ops
    ensures Update(s, op, m).store == s.store
  {
  }

  lemma LocalKeeps(cfg: Config, s: State, step: Step)
    requires !step.AcknowledgeEvent? && !step.Tick?
    requires Inv(cfg, s)
    ensures Inv(cfg, LocalStep(cfg, s, step)) && Extends(s, LocalStep(cfg, s, step))
  {
    hide Inv, Extends, Grows, Local, Update, Granted;
    ExtendsReflexive(s);
    if step.op in s.ops {
      var op, o := step.op, s.ops[step.op];
      var move := Local(cfg, s.store, HandleOf(s, o.handle), o, step);
      if move.Some? {
        LocalUpdateKeeps(cfg, s, step, op);
        GrantedKeeps(cfg, s, Update(s, op, move.value), op, move.value.phase);
      }
    }
  }

  lemma AdmissionEnds(cfg: Config, h: Handle, raw: Text, now: nat, request: Request)
    ensures var (m, horizon) := Admission(cfg, h, raw, now, request);
            && (m.phase == Opening(request) || (m.phase.Ended? && m.phase.outcome.Err? && m.phase.hold.NoHold?))
            && (h.fenced ==> m.handle.fenced)
  {
  }

  // A new operation that has ended or only holds its request.
  lemma OperationAdded(cfg: Config, s: State, op: nat, o: Op)
    requires Inv(cfg, s) && op !in s.ops
    requires o.phase.Opening? || (o.phase.Ended? && o.phase.outcome.Err? && o.phase.hold.NoHold?)
    ensures Inv(cfg, s.(ops := s.ops[op := o])) && Extends(s, s.(ops := s.ops[op := o]))
  {
    hide StoreOk, Grows, PhaseOk, CallOk;
    var t := s.(ops := s.ops[op := o]);
    GrowsReflexive(s.store);
    AddedPhase(cfg, t, o);
    OneOperation(cfg, s, t, op);
  }

  lemma AddedPhase(cfg: Config, s: State, o: Op)
    requires o.phase.Opening? || (o.phase.Ended? && o.phase.outcome.Err? && o.phase.hold.NoHold?)
    ensures PhaseOk(cfg, s, o)
  {
  }

  lemma AdmitKeeps(cfg: Config, s: State, op: nat, h: nat, raw: Text, now: nat, request: Request)
    requires Inv(cfg, s)
    ensures Inv(cfg, AdmitStep(cfg, s, op, h, raw, now, request))
    ensures Extends(s, AdmitStep(cfg, s, op, h, raw, now, request))
  {
    hide Inv, Extends, Admission, Update, PhaseOk;
    ExtendsReflexive(s);
    if op !in s.ops {
      var entered := if Gated(request) then Enter(cfg, HandleOf(s, h)) else Ok(HandleOf(s, h));
      if entered.Err? {
        OperationAdded(cfg, s, op, Op(h, false, None, Ended(Err(entered.error), NoHold)));
      } else {
        AdmissionEnds(cfg, entered.value, raw, now, request);
        var (move, horizon) := Admission(cfg, entered.value, raw, now, request);
        var o := Op(h, Gated(request), horizon, Opening(request));
        var admitted := s.(ops := s.ops[op := o]);
        OperationAdded(cfg, s, op, o);
        AddedPhase(cfg, Update(admitted, op, move), o.(phase := move.phase));
        UpdateKeeps(cfg, admitted, op, move);
        ExtendsTransitive(s, admitted, Update(admitted, op, move));
      }
    }
  }

  /*** The steps that write or call ***/

  /** A commit that writes finds exactly the links its plan saw, so the last-method check is still true. */
  lemma WritingCommit(cfg: Config, st: Store, i: Intent, plan: Plan, d: Draft)
    requires StoreOk(cfg, st) && Prepared(cfg, st, i, plan, d) && Commits(cfg, st, i, plan, d)
    ensures StoreOk(cfg, Written(st, plan, d)) && Grows(st, Written(st, plan, d))
    ensures RevisionOf(Written(st, plan, d), i.account) == RevisionOf(st, i.account) + 1
    ensures Recorded(Written(st, plan, d), d.receipt.reservationId, i.horizon.commandId)
    ensures Resulted(Written(st, plan, d), i.horizon.commandId, d.receipt.result) && !d.receipt.result.replay
    ensures d.receipt.account == i.account
  {
    hide StoreOk, Grows;
    PlannedTarget(cfg, st, i, plan, d);
    hide Prepared, Commits;
    WrittenKeepsStore(cfg, st, i, plan, d);
    assert Written(st, plan, d).commands[|st.commands|] == d.receipt;
  }

  // The writes apply only while the account's revision is the plan's, and then so are its links.
  lemma PlannedTarget(cfg: Config, st: Store, i: Intent, plan: Plan, d: Draft)
    requires Prepared(cfg, st, i, plan, d) && Commits(cfg, st, i, plan, d)
    ensures i.action == Unlink ==>
              && plan.target.Some? && OtherActive(plan.links, plan.target.value.linkId)
              && plan.links == Owned(st.identities, i.account)
    ensures Shape(cfg, i, plan, d)
    ensures d.receipt.commandId == i.horizon.commandId && !d.receipt.result.replay
    ensures d.receipt.account == i.account
  {
    hide IntentDigest, FindTarget, Admits, IntentOk, OtherActive;
  }

  lemma CommitResult(cfg: Config, st: Store, fenced: bool, failure: Option<Code>, i: Intent, plan: Plan, d: Draft)
    requires StoreOk(cfg, st) && Prepared(cfg, st, i, plan, d)
    requires forall k | 0 <= k < |st.commands| :: !st.commands[k].result.replay
    requires CommitBody(cfg, st, fenced, failure, i, plan, d).Ok?
    ensures var c := CommitBody(cfg, st, fenced, failure, i, plan, d).value;
            && StoreOk(cfg, c.store) && Grows(st, c.store)
            && (forall k | 0 <= k < |c.store.commands| :: !c.store.commands[k].result.replay)
            && Recorded(c.store, d.receipt.reservationId, i.horizon.commandId)
            && Resulted(c.store, i.horizon.commandId, c.result)
  {
    hide StoreOk, Grows, Prepared, CommitBody, Commits, ReceiptMatches;
    var replay := CommitCases(cfg, st, fenced, failure, i, plan, d);
    if replay {
      GrowsReflexive(st);
      var k :| 0 <= k < |st.commands| && st.commands[k].commandId == i.horizon.commandId
               && st.commands[k].reservationId == d.receipt.reservationId
               && CommitBody(cfg, st, fenced, failure, i, plan, d).value.result
                  == st.commands[k].result.(replay := true);
      assert st.commands[k].result.(replay := true).(replay := false) == st.commands[k].result;
    } else {
      WritingCommit(cfg, st, i, plan, d);
    }
  }

  // The store and the history of confirmed aborts have grown, and nothing else.
  lemma GrownKeeps(cfg: Config, s: State, t: State)
    requires Inv(cfg, s) && Grows(s.store, t.store) && StoreOk(cfg, t.store)
    requires t == s.(store := t.store, aborts := t.aborts, calls := t.calls)
    requires s.aborts <= t.aborts && s.calls <= t.calls
    requires forall c | c in t.calls :: c in s.calls || CallOk(t, c)
    requires forall k | 0 <= k < |t.store.commands| :: !t.store.commands[k].result.replay
    ensures Inv(cfg, t) && Extends(s, t)
  {
    hide Grows, StoreOk, CallOk, PhaseOk;
    forall p | p in t.ops ensures PhaseOk(cfg, t, t.ops[p]) {
      PhaseStays(cfg, s, t, s.ops[p]);
    }
    forall c | c in t.calls ensures CallOk(t, c) {
      if c in s.calls {
        CallStays(s, t, c);
      }
    }
  }

  lemma SettlingPhase(cfg: Config, t: State, o: Op, id: Text, r: CommandResult)
    requires o.horizon.Some? && Recorded(t.store, id, o.horizon.value.commandId)
    requires Resulted(t.store, o.horizon.value.commandId, r)
    ensures PhaseOk(cfg, t, o.(phase := Settling(id, r)))
  {
    hide Recorded, Resulted;
  }

  lemma KeptPhase(cfg: Config, t: State, o: Op, hold: Hold)
    requires hold.KeptHold? || hold.NoHold?
    requires hold.KeptHold? ==> HandleOf(t, o.handle).fenced
    ensures PhaseOk(cfg, t, o.(phase := Ended(Err(CommitUnknown), hold)))
  {
  }

  lemma ReleasingPhase(cfg: Config, t: State, o: Op, id: Text, error: Code)
    requires o.horizon.Some? && (id, o.horizon.value.commandId) in t.aborts
    ensures PhaseOk(cfg, t, o.(phase := Releasing(id, error)))
  {
  }

  lemma CheckedPhase(cfg: Config, s: State, op: nat)
    requires Inv(cfg, s) && op in s.ops && s.ops[op].phase.Checked?
    ensures var Checked(i, plan, d, _) := s.ops[op].phase;
            s.ops[op].horizon == Some(i.horizon) && Prepared(cfg, s.store, i, plan, d)
  {
    hide Prepared, StoreOk, CallOk;
    PhaseOf(cfg, s, op);
  }

  /** A value, if there is one, is recorded; the store it leaves satisfies the invariants. */
  lemma BodyResult(cfg: Config, s: State, op: nat)
    requires Inv(cfg, s) && op in s.ops && s.ops[op].phase.Checked? && BodyOf(cfg, s, s.ops[op]).Ok?
    ensures var c := BodyOf(cfg, s, s.ops[op]).value;
            && Inv(cfg, s.(store := c.store)) && Extends(s, s.(store := c.store))
            && Recorded(c.store, s.ops[op].phase.draft.receipt.reservationId, s.ops[op].phase.intent.horizon.commandId)
            && Resulted(c.store, s.ops[op].phase.intent.horizon.commandId, c.result)
  {
    hide Inv, Extends, Grows, StoreOk, Prepared, CommitBody, CallOk, Recorded, Resulted;
    var Checked(i, plan, d, failure) := s.ops[op].phase;
    CheckedPhase(cfg, s, op);
    InvStore(cfg, s);
    CommitResult(cfg, s.store, HandleOf(s, s.ops[op].handle).fenced, failure, i, plan, d);
    GrownKeeps(cfg, s, s.(store := BodyOf(cfg, s, s.ops[op]).value.store));
  }

  lemma AbortRecorded(cfg: Config, s: State, pair: (Text, Text))
    requires Inv(cfg, s)
    ensures var t := s.(aborts := s.aborts + {pair}); Inv(cfg, t) && Extends(s, t)
  {
    hide Inv, Extends, Grows, StoreOk;
    InvStore(cfg, s);
    GrowsReflexive(s.store);
    GrownKeeps(cfg, s, s.(aborts := s.aborts + {pair}));
  }

  /** What a commit transaction reports: a value, a confirmed abort or nothing certain. */
  lemma CommitKeeps(cfg: Config, s: State, op: nat, outcome: Outcome)
    requires Inv(cfg, s)
    ensures Inv(cfg, CommitStep(cfg, s, op, outcome)) && Extends(s, CommitStep(cfg, s, op, outcome))
  {
    hide Inv, Extends, BodyOf, Update, PhaseOk, Prepared, Recorded, Resulted;
    ExtendsReflexive(s);
    if op in s.ops && s.ops[op].phase.Checked? {
      var o := s.ops[op];
      var id, commandId := o.phase.draft.receipt.reservationId, o.phase.intent.horizon.commandId;
      var h, body := HandleOf(s, o.handle), BodyOf(cfg, s, o);
      CheckedPhase(cfg, s, op);
      if body.Ok? {
        BodyResult(cfg, s, op);
      }
      match Atomic(body, outcome)
      case Value(c) =>
        var mid, m := s.(store := c.store), Move(h, Settling(id, c.result));
        SameStore(mid, op, m);
        SettlingPhase(cfg, Update(mid, op, m), o, id, c.result);
        UpdateKeeps(cfg, mid, op, m);
        ExtendsTransitive(s, mid, Update(mid, op, m));
      case Refused(error) =>
        var mid, m := s.(aborts := s.aborts + {(id, commandId)}), Move(h, Releasing(id, error));
        AbortRecorded(cfg, s, (id, commandId));
        SameAborts(mid, op, m);
        ReleasingPhase(cfg, Update(mid, op, m), o, id, error);
        UpdateKeeps(cfg, mid, op, m);
        ExtendsTransitive(s, mid, Update(mid, op, m));
      case Lost =>
        var applied := outcome.Unknown? && outcome.applied && body.Ok?;
        var mid, m := if applied then s.(store := body.value.store) else s, Lose(h, KeptHold(id));
        UpdateExtends(mid, op, m);
        KeptPhase(cfg, Update(mid, op, m), o, KeptHold(id));
        UpdateKeeps(cfg, mid, op, m);
        ExtendsTransitive(s, mid, Update(mid, op, m));
    }
  }

  lemma SameAborts(s: State, op: nat, m: Move)
    requires op in s.ops
    ensures Update(s, op, m).aborts == s.aborts && Update(s, op, m).calls == s.calls
  {
  }

  lemma ReplayIsRecorded(st: Store, receipt: CommandRow)
    requires receipt in st.commands && !receipt.result.replay
    ensures Recorded(st, receipt.reservationId, receipt.commandId)
    ensures Resulted(st, receipt.commandId, receipt.result.(replay := true))
  {
    var k :| 0 <= k < |st.commands| && st.commands[k] == receipt;
    assert receipt.result.(replay := true).(replay := false) == st.commands[k].result;
  }

  /** The call that closes an operation is justified, and so is the end it leads to. */
  lemma ClosingOk(cfg: Config, s: State, op: nat)
    requires Inv(cfg, s) && op in s.ops && Closing(s.ops[op]).Some?
    ensures var (call, phase, hold) := Closing(s.ops[op]).value;
            var t := s.(calls := s.calls + [call]);
            && CallOk(t, call)
            && (hold.KeptHold? || hold.NoHold?)
            && phase.Ended? && EndedOk(t, s.ops[op], phase.outcome, phase.hold)
  {
    hide StoreOk, Recorded, Resulted;
    PhaseOf(cfg, s, op);
    if s.ops[op].phase.Replaying? {
      ReplayIsRecorded(s.store, s.ops[op].phase.receipt);
    }
  }

  lemma EndedPhase(cfg: Config, s: State, t: State, o: Op, outcome: Result<Option<CommandResult>, Code>, hold: Hold)
    requires EndedOk(s, o, outcome, hold) && !hold.KeptHold?
    requires t.store == s.store && t.calls == s.calls
    ensures PhaseOk(cfg, t, o.(phase := Ended(outcome, hold)))
  {
    hide Resulted;
  }

  lemma ClosingHold(o: Op)
    requires Closing(o).Some?
    ensures Closing(o).value.1.Ended? && !Closing(o).value.1.hold.KeptHold?
  {
  }

  lemma CallRecorded(cfg: Config, s: State, call: Call)
    requires Inv(cfg, s) && CallOk(s.(calls := s.calls + [call]), call)
    ensures var t := s.(calls := s.calls + [call]); Inv(cfg, t) && Extends(s, t)
  {
    hide Inv, Extends, Grows, StoreOk, CallOk;
    InvStore(cfg, s);
    GrowsReflexive(s.store);
    GrownKeeps(cfg, s, s.(calls := s.calls + [call]));
  }

  lemma FinishKeeps(cfg: Config, s: State, op: nat, acknowledged: bool)
    requires Inv(cfg, s)
    ensures Inv(cfg, FinishStep(s, op, acknowledged)) && Extends(s, FinishStep(s, op, acknowledged))
  {
    hide Inv, Extends, Closing, Update, PhaseOk, EndedOk, CallOk;
    ExtendsReflexive(s);
    if op in s.ops && Closing(s.ops[op]).Some? {
      var o := s.ops[op];
      var (call, phase, hold) := Closing(o).value;
      var h := HandleOf(s, o.handle);
      var mid := s.(calls := s.calls + [call]);
      ClosingOk(cfg, s, op);
      ClosingHold(o);
      CallRecorded(cfg, s, call);
      var m := if acknowledged then Move(h, phase) else Lose(h, hold);
      UpdateExtends(mid, op, m);
      SameStore(mid, op, m);
      SameAborts(mid, op, m);
      if acknowledged {
        EndedPhase(cfg, mid, Update(mid, op, m), o, phase.outcome, phase.hold);
      } else {
        KeptPhase(cfg, Update(mid, op, m), o, hold);
      }
      UpdateKeeps(cfg, mid, op, m);
      ExtendsTransitive(s, mid, Update(mid, op, m));
    }
  }

  lemma AcknowledgeKeeps(cfg: Config, s: State, n: nat)
    requires Inv(cfg, s)
    ensures var t := s.(store := Acknowledged(s.store, n)); Inv(cfg, t) && Extends(s, t)
  {
    hide Inv, Extends, Grows, StoreOk, CallOk;
    InvStore(cfg, s);
    AcknowledgeKeepsStore(cfg, s.store, n);
    GrownKeeps(cfg, s, s.(store := Acknowledged(s.store, n)));
  }

  lemma TickKeeps(cfg: Config, s: State, h: nat, now: nat)
    requires Inv(cfg, s)
    ensures Inv(cfg, TickStep(s, h, now)) && Extends(s, TickStep(s, h, now))
  {
    hide Grows, StoreOk, CallOk, PhaseOk;
    var t := TickStep(s, h, now);
    GrowsReflexive(s.store);
    assert Extends(s, t);
    forall p | p in t.ops ensures PhaseOk(cfg, t, t.ops[p]) {
      PhaseStays(cfg, s, t, s.ops[p]);
    }
    forall c | c in t.calls ensures CallOk(t, c) {
      CallStays(s, t, c);
    }
  }

  /** Every step preserves the invariant and only extends the state. */
  lemma StepKeeps(cfg: Config, s: State, step: Step)
    requires Inv(cfg, s)
    ensures Inv(cfg, Apply(cfg, s, step)) && Extends(s, Apply(cfg, s, step))
  {
    hide Inv, Extends, AdmitStep, CommitStep, FinishStep, Acknowledged, TickStep, LocalStep;
    match step
    case AdmitCommand(op, h, raw, now, request) => AdmitKeeps(cfg, s, op, h, raw, now, request);
    case RunCommit(op, outcome) => CommitKeeps(cfg, s, op, outcome);
    case FinishHold(op, acknowledged) => FinishKeeps(cfg, s, op, acknowledged);
    case AcknowledgeEvent(n) => AcknowledgeKeeps(cfg, s, n);
    case Tick(h, now) => TickKeeps(cfg, s, h, now);
    case _ => LocalKeeps(cfg, s, step);
  }

  lemma InitialInv(cfg: Config)
    ensures Inv(cfg, INITIAL)
  {
    EmptyStoreOk(cfg);
  }

  /** Every schedule preserves the invariant and only extends the state. */
  lemma {:induction false} RunKeeps(cfg: Config, s: State, steps: seq<Step>)
    requires Inv(cfg, s)
    ensures Inv(cfg, Run(cfg, s, steps)) && Extends(s, Run(cfg, s, steps))
    decreases |steps|
  {
    hide Inv, Extends, Apply;
    if steps == [] {
      ExtendsReflexive(s);
    } else {
      var t := Apply(cfg, s, steps[0]);
      StepKeeps(cfg, s, steps[0]);
      RunKeeps(cfg, t, steps[1..]);
      ExtendsTransitive(s, t, Run(cfg, t, steps[1..]));
    }
  }
}
