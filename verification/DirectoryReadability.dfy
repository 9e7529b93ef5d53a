/** Which of the rows the directory has written its later reads accept, under one clock and under skewed clocks. */
module DirectoryReadability {
  import opened Common
  import opened CanonicalText
  import opened DirectoryRows
  import opened DirectoryTransactions
  import opened DirectoryStoreLaws
  import opened DirectoryProtocol
  import opened DirectoryInvariants

  /*** The exact condition for one row ***/

  /** The row of an unlink is readable exactly when the handle's clock has not fallen behind the link's. */
  lemma UnlinkReadableIff(cfg: Config, i: Intent, plan: Plan, at: nat, drawn: Text, eventId: Text)
    requires i.action == Unlink && plan.target.Some? && IdentityRowOk(cfg, plan.target.value) && at <= MAX_SAFE
    requires MakeDraft(cfg, i, plan, at, drawn, eventId).Ok?
    requires Sized(cfg, MakeDraft(cfg, i, plan, at, drawn, eventId).value)
    ensures IdentityRowOk(cfg, MakeDraft(cfg, i, plan, at, drawn, eventId).value.identity)
            <==> plan.target.value.linkedAt <= at
  {
    hide Fits, TextOk, Portable, AccountOk, IdOk;
  }

  /*** Runs under one clock ***/

  // The time a step reads, if it reads one.
  predicate SharedClock(s: State, step: Step) {
    match step
    case AdmitCommand(_, _, _, now, _) => s.clock <= now
    case PriceRows(_, _, now, _, _, _) => s.clock <= now
    case CheckAgain(_, now, _, _, _, _) => s.clock <= now
    case Tick(_, now) => s.clock <= now
    case _ => true
  }

  predicate SharedRun(cfg: Config, s: State, steps: seq<Step>)
    decreases |steps|
  {
    steps == [] || (SharedClock(s, steps[0]) && SharedRun(cfg, Apply(cfg, s, steps[0]), steps[1..]))
  }

  // What every run gives a row, under whatever clocks: everything its validator asks for but the order of its times.
  predicate Formed(cfg: Config, r: IdentityRow) {
    && r.namespace == cfg.namespace
    && TextOk(r.issuer, 2048) && TextOk(r.subject, 512)
    && Portable(r.provider, 80) && AccountOk(r.account) && IdOk(r.linkId)
    && 1 <= r.generation <= MAX_SAFE && r.linkedAt <= MAX_SAFE
    && (if r.active then r.unlinkedAt.None? else r.unlinkedAt.Some? && r.unlinkedAt.value <= MAX_SAFE)
    && Fits(cfg, IdentityJson(r))
  }

  predicate InOrder(r: IdentityRow) {
    r.unlinkedAt.Some? ==> r.linkedAt <= r.unlinkedAt.value
  }

  lemma FormedInOrder(cfg: Config, r: IdentityRow)
    ensures IdentityRowOk(cfg, r) <==> Formed(cfg, r) && InOrder(r)
  {
    hide TextOk, Portable, AccountOk, IdOk, Fits;
  }

  // What is known of a row with clocks of any kind, and with a clock that all handles share.
  predicate IdentityReadable(cfg: Config, shared: bool, clock: nat, r: IdentityRow) {
    Formed(cfg, r) && (shared ==> InOrder(r) && r.linkedAt <= clock)
  }

  predicate RevisionReadable(cfg: Config, account: Text, revision: nat) {
    1 <= revision <= MAX_SAFE && Fits(cfg, RevisionJson(cfg.namespace, account, revision))
  }

  // An event row as its command writes it, before a host acknowledges it.
  predicate EventFits(cfg: Config, e: EventRow) {
    Fits(cfg, EventJson(e.(pending := true)))
  }

  predicate DraftReadable(cfg: Config, shared: bool, clock: nat, d: Draft) {
    && IdentityReadable(cfg, shared, clock, d.identity) && CommandRowOk(cfg, d.receipt) && ConsentRowOk(cfg, d.consent)
    && RevisionReadable(cfg, d.receipt.account, d.revision) && EventFits(cfg, d.event)
  }

  // A priced draft still holds the placeholder.
  predicate PhaseReadable(cfg: Config, shared: bool, clock: nat, p: Phase) {
    match p
    case Deciding(i) => IntentOk(cfg, i)
    case Planned(i, plan) =>
      IntentOk(cfg, i) && (plan.target.Some? ==> IdentityReadable(cfg, shared, clock, plan.target.value))
    case Priced(_, _, d) => DraftReadable(cfg, shared, clock, d) && d.receipt.reservationId == Placeholder()
    case Reserved(_, _, d) => DraftReadable(cfg, shared, clock, d)
    case Checked(_, _, d, _) => DraftReadable(cfg, shared, clock, d)
    case _ => true
  }

  ghost predicate StoreReadable(cfg: Config, shared: bool, clock: nat, st: Store) {
    && (forall k | 0 <= k < |st.identities| :: IdentityReadable(cfg, shared, clock, st.identities[k]))
    && (forall k | 0 <= k < |st.commands| :: CommandRowOk(cfg, st.commands[k]))
    && (forall k | 0 <= k < |st.consents| :: ConsentRowOk(cfg, st.consents[k]))
    && (forall a | a in st.revisions :: RevisionReadable(cfg, a, st.revisions[a]))
    && (forall k | 0 <= k < |st.events| :: EventFits(cfg, st.events[k]))
  }

  ghost predicate Readable(cfg: Config, shared: bool, s: State) {
    && StoreReadable(cfg, shared, s.clock, s.store)
    && (forall op | op in s.ops :: PhaseReadable(cfg, shared, s.clock, s.ops[op].phase))
    && (forall h: nat :: HandleOf(s, h).lastTime <= s.clock)
  }

  /** A sized draft of readable rows, taken at or after every earlier time, is readable. */
  lemma MadeReadable(cfg: Config, shared: bool, i: Intent, plan: Plan, clock: nat, at: nat, drawn: Text,
                     eventId: Text)
    requires IntentOk(cfg, i) && TargetAllowed(i, plan.target) && (shared ==> clock <= at) && at <= MAX_SAFE
    requires plan.target.Some? ==> IdentityReadable(cfg, shared, clock, plan.target.value)
    requires IdOk(drawn) && IdOk(eventId)
    requires MakeDraft(cfg, i, plan, at, drawn, eventId).Ok?
    requires Sized(cfg, MakeDraft(cfg, i, plan, at, drawn, eventId).value)
    ensures DraftReadable(cfg, shared, at, MakeDraft(cfg, i, plan, at, drawn, eventId).value)
    ensures MakeDraft(cfg, i, plan, at, drawn, eventId).value.receipt.reservationId == Placeholder()
  {
    hide Fits, TextOk, Portable, AccountOk, IdOk, Placeholder, IdentityJson, CommandJson, ConsentJson, RevisionJson,
         EventJson, IntentDigest;
    PlaceholderPortable();
    var d := MakeDraft(cfg, i, plan, at, drawn, eventId).value;
    assert d.event == d.event.(pending := true);
    MadeIdentity(cfg, shared, i, plan, clock, at, drawn, eventId);
    assert ConsentRowOk(cfg, d.consent);
    assert CommandRowOk(cfg, d.receipt);
  }

  lemma MadeIdentity(cfg: Config, shared: bool, i: Intent, plan: Plan, clock: nat, at: nat, drawn: Text,
                     eventId: Text)
    requires IntentOk(cfg, i) && TargetAllowed(i, plan.target) && (shared ==> clock <= at) && at <= MAX_SAFE
    requires plan.target.Some? ==> IdentityReadable(cfg, shared, clock, plan.target.value)
    requires IdOk(drawn) && MakeDraft(cfg, i, plan, at, drawn, eventId).Ok?
    requires Fits(cfg, IdentityJson(MakeDraft(cfg, i, plan, at, drawn, eventId).value.identity))
    ensures IdentityReadable(cfg, shared, at, MakeDraft(cfg, i, plan, at, drawn, eventId).value.identity)
  {
    hide Fits, TextOk, Portable, AccountOk, IdOk, IdentityJson, IntentDigest;
  }

  lemma PlaceholderPortable()
    ensures Portable(Placeholder(), 128)
  {
    PortableSize(Placeholder());
  }

  lemma FundedReadable(cfg: Config, shared: bool, clock: nat, d: Draft, id: Text)
    requires DraftReadable(cfg, shared, clock, d) && d.receipt.reservationId == Placeholder() && Portable(id, 128)
    ensures DraftReadable(cfg, shared, clock, Funded(d, id))
  {
    hide Fits, TextOk, Portable, AccountOk, IdOk, Placeholder, IdentityReadable, ConsentRowOk;
    assert d.receipt == d.receipt.(reservationId := Placeholder());
    PlaceholderDominates(cfg, d.receipt, id);
  }

  lemma FoundReadable(cfg: Config, shared: bool, clock: nat, st: Store, t: Target)
    requires StoreReadable(cfg, shared, clock, st) && FindTarget(cfg, st, t).Ok?
    ensures FindTarget(cfg, st, t).value.Some? ==>
              IdentityReadable(cfg, shared, clock, FindTarget(cfg, st, t).value.value)
  {
    hide IdentityReadable;
  }

  lemma PreflightReadable(cfg: Config, shared: bool, clock: nat, st: Store, h: Handle, i: Intent, outcome: Outcome)
    requires StoreReadable(cfg, shared, clock, st) && IntentOk(cfg, i)
    ensures PhaseReadable(cfg, shared, clock, OnPreflight(cfg, st, h, i, outcome).phase)
  {
    hide Preflight, IntentOk, IdentityReadable, StoreReadable, FindTarget;
    var body := Preflight(cfg, st, i);
    if body.Ok? && body.value.receipt.None? {
      PreflightFacts(cfg, st, i);
      FoundReadable(cfg, shared, clock, st, i.target);
    }
  }

  lemma DraftLater(cfg: Config, shared: bool, clock: nat, later: nat, p: Phase)
    requires clock <= later && PhaseReadable(cfg, shared, clock, p)
    ensures PhaseReadable(cfg, shared, later, p)
  {
    hide Formed, CommandRowOk, ConsentRowOk, IntentOk, RevisionReadable, EventFits;
  }

  lemma StoreLater(cfg: Config, shared: bool, clock: nat, later: nat, st: Store)
    requires clock <= later && StoreReadable(cfg, shared, clock, st)
    ensures StoreReadable(cfg, shared, later, st)
  {
    hide Formed, CommandRowOk, ConsentRowOk, RevisionReadable, EventFits;
  }

  lemma PriceReadable(cfg: Config, shared: bool, clock: nat, h: Handle, i: Intent, plan: Plan, usable: set<Text>,
                      now: nat, linkId: Text, eventId: Text, quoted: bool)
    requires PhaseReadable(cfg, shared, clock, Planned(i, plan)) && TargetAllowed(i, plan.target)
    requires shared ==> clock <= now
    ensures var m := OnPrice(cfg, h, i, plan, usable, now, linkId, eventId, quoted);
            PhaseReadable(cfg, shared, Max(clock, m.handle.lastTime), m.phase)
  {
    hide MakeDraft, Sized, IdOk, MethodLeft, IdentityReadable, DraftReadable, TargetAllowed, IntentOk;
    if now <= MAX_SAFE && IdOk(linkId) && IdOk(eventId) {
      var made := MakeDraft(cfg, i, plan, now, linkId, eventId);
      if made.Ok? && Sized(cfg, made.value) {
        MadeReadable(cfg, shared, i, plan, clock, now, linkId, eventId);
        DraftLater(cfg, shared, now, Max(clock, now), Priced(i, plan, made.value));
      }
    }
  }

  lemma ReserveReadable(cfg: Config, shared: bool, clock: nat, h: Handle, i: Intent, plan: Plan, d: Draft,
                        id: Option<Text>)
    requires PhaseReadable(cfg, shared, clock, Priced(i, plan, d))
    ensures PhaseReadable(cfg, shared, clock, OnReserve(h, i, plan, d, id).phase)
  {
    hide DraftReadable, Portable;
    if id.Some? && Portable(id.value, 128) {
      FundedReadable(cfg, shared, clock, d, id.value);
    }
  }

  // Local moves that prepare no rows.
  predicate Plain(step: Step) {
    !step.RunPreflight? && !step.PriceRows? && !step.ReserveGrowth?
  }

  lemma PlainReadable(cfg: Config, shared: bool, clock: nat, st: Store, h: Handle, o: Op, step: Step)
    requires Plain(step) && PhaseReadable(cfg, shared, clock, o.phase) && Local(cfg, st, h, o, step).Some?
    ensures PhaseReadable(cfg, shared, clock, Local(cfg, st, h, o, step).value.phase)
  {
    hide ActorRow, StoredLink, IntentOk, LookUpBody, Rechecked, DraftReadable;
  }

  lemma LocalReadable(cfg: Config, shared: bool, s: State, h: Handle, o: Op, step: Step)
    requires StoreReadable(cfg, shared, s.clock, s.store) && PhaseReadable(cfg, shared, s.clock, o.phase)
    requires o.phase.Planned? ==> TargetAllowed(o.phase.intent, o.phase.plan.target)
    requires Local(cfg, s.store, h, o, step).Some? && h.lastTime <= s.clock && (shared ==> SharedClock(s, step))
    ensures var m := Local(cfg, s.store, h, o, step).value;
            PhaseReadable(cfg, shared, Max(s.clock, m.handle.lastTime), m.phase)
  {
    hide PhaseReadable, StoreReadable, OnAnswer, OnGuard, OnResolve, OnPreflight, OnPrice, OnReserve, OnLookUp,
         Rechecked, TargetAllowed;
    var m := Local(cfg, s.store, h, o, step).value;
    match step
    case RunPreflight(_, outcome) =>
      DecidingOk(cfg, shared, s.clock, o.phase);
      PreflightReadable(cfg, shared, s.clock, s.store, h, o.phase.intent, outcome);
      DraftLater(cfg, shared, s.clock, Max(s.clock, m.handle.lastTime), m.phase);
    case PriceRows(_, usable, now, linkId, eventId, quoted) =>
      PriceReadable(cfg, shared, s.clock, h, o.phase.intent, o.phase.plan, usable, now, linkId, eventId, quoted);
    case ReserveGrowth(_, id) =>
      ReserveReadable(cfg, shared, s.clock, h, o.phase.intent, o.phase.plan, o.phase.draft, id);
      DraftLater(cfg, shared, s.clock, Max(s.clock, m.handle.lastTime), m.phase);
    case _ =>
      PlainReadable(cfg, shared, s.clock, s.store, h, o, step);
      DraftLater(cfg, shared, s.clock, Max(s.clock, m.handle.lastTime), m.phase);
  }

  lemma DecidingOk(cfg: Config, shared: bool, clock: nat, p: Phase)
    requires p.Deciding? && PhaseReadable(cfg, shared, clock, p)
    ensures IntentOk(cfg, p.intent)
  {
    hide IntentOk;
  }

  /*** Every step ***/

  lemma UpdateReadable(cfg: Config, shared: bool, s: State, op: nat, m: Move)
    requires Readable(cfg, shared, s) && op in s.ops
    requires PhaseReadable(cfg, shared, Max(s.clock, m.handle.lastTime), m.phase)
    ensures Readable(cfg, shared, Update(s, op, m))
  {
    hide PhaseReadable, StoreReadable;
    var t := Update(s, op, m);
    StoreLater(cfg, shared, s.clock, t.clock, s.store);
    assert t.store == s.store && t.clock == Max(s.clock, m.handle.lastTime);
    forall p | p in t.ops ensures PhaseReadable(cfg, shared, t.clock, t.ops[p].phase) {
      if p == op {
        assert t.ops[p].phase == m.phase;
      } else {
        DraftLater(cfg, shared, s.clock, t.clock, s.ops[p].phase);
      }
    }
    forall h: nat ensures HandleOf(t, h).lastTime <= t.clock {
      assert HandleOf(s, h).lastTime <= s.clock;
    }
    assert StoreReadable(cfg, shared, t.clock, t.store);
    assert forall p | p in t.ops :: PhaseReadable(cfg, shared, t.clock, t.ops[p].phase);
    assert forall h: nat :: HandleOf(t, h).lastTime <= t.clock;
  }

  // A state that differs in its histories, its event rows and a new operation only.
  lemma SameReadable(cfg: Config, shared: bool, s: State, t: State)
    requires Readable(cfg, shared, s) && t.handles == s.handles && t.clock == s.clock
    requires StoreReadable(cfg, shared, t.clock, t.store)
    requires forall p | p in t.ops ::
               (p in s.ops && t.ops[p] == s.ops[p]) || PhaseReadable(cfg, shared, t.clock, t.ops[p].phase)
    ensures Readable(cfg, shared, t)
  {
    hide PhaseReadable, StoreReadable;
    forall h: nat ensures HandleOf(t, h).lastTime <= t.clock {
      assert HandleOf(s, h).lastTime <= s.clock;
    }
  }

  lemma PlannedAllowed(cfg: Config, s: State, op: nat)
    requires Inv(cfg, s) && op in s.ops && s.ops[op].phase.Planned?
    ensures TargetAllowed(s.ops[op].phase.intent, s.ops[op].phase.plan.target)
  {
    hide StoreOk, CallOk, TargetAllowed;
    PhaseOf(cfg, s, op);
  }

  lemma LocalStepReadable(cfg: Config, shared: bool, s: State, step: Step)
    requires Inv(cfg, s) && Readable(cfg, shared, s) && (shared ==> SharedClock(s, step))
    requires !step.AcknowledgeEvent? && !step.Tick?
    ensures Readable(cfg, shared, LocalStep(cfg, s, step))
  {
    hide Inv, Local, PhaseReadable, StoreReadable, TargetAllowed, Update, SharedClock;
    if step.op in s.ops {
      var o := s.ops[step.op];
      var h := HandleOf(s, o.handle);
      var move := Local(cfg, s.store, h, o, step);
      if move.Some? {
        if o.phase.Planned? {
          PlannedAllowed(cfg, s, step.op);
        }
        LocalReadable(cfg, shared, s, h, o, step);
        UpdateReadable(cfg, shared, s, step.op, move.value);
        SameReadable(cfg, shared, Update(s, step.op, move.value), LocalStep(cfg, s, step));
      }
    }
  }

  lemma AdmissionClock(cfg: Config, shared: bool, h: Handle, raw: Text, now: nat, request: Request, clock: nat)
    requires h.lastTime <= clock
    ensures var (m, _) := Admission(cfg, h, raw, now, request);
            PhaseReadable(cfg, shared, Max(clock, m.handle.lastTime), m.phase)
  {
    hide ParseHorizon;
  }

  lemma AdmitReadable(cfg: Config, shared: bool, s: State, op: nat, h: nat, raw: Text, now: nat, request: Request)
    requires Readable(cfg, shared, s)
    ensures Readable(cfg, shared, AdmitStep(cfg, s, op, h, raw, now, request))
  {
    hide Admission, StoreReadable, Update;
    if op !in s.ops {
      assert HandleOf(s, h).lastTime <= s.clock;
      var entered := if Gated(request) then Enter(cfg, HandleOf(s, h)) else Ok(HandleOf(s, h));
      if entered.Err? {
        SameReadable(cfg, shared, s, AdmitStep(cfg, s, op, h, raw, now, request));
      } else {
        var (move, horizon) := Admission(cfg, entered.value, raw, now, request);
        var mid := s.(ops := s.ops[op := Op(h, Gated(request), horizon, Opening(request))]);
        SameReadable(cfg, shared, s, mid);
        AdmissionClock(cfg, shared, entered.value, raw, now, request, s.clock);
        UpdateReadable(cfg, shared, mid, op, move);
      }
    }
  }

  /** The rows a commit body writes are readable. */
  lemma CommitReadable(cfg: Config, shared: bool, clock: nat, st: Store, fenced: bool, failure: Option<Code>, i: Intent,
                       plan: Plan, d: Draft)
    requires StoreReadable(cfg, shared, clock, st) && DraftReadable(cfg, shared, clock, d)
    requires CommitBody(cfg, st, fenced, failure, i, plan, d).Ok?
    ensures StoreReadable(cfg, shared, clock, CommitBody(cfg, st, fenced, failure, i, plan, d).value.store)
  {
    hide CommitBody, Commits, IdentityReadable, CommandRowOk, ConsentRowOk;
    var replay := CommitCases(cfg, st, fenced, failure, i, plan, d);
  }

  lemma CommitStepReadable(cfg: Config, shared: bool, s: State, op: nat, outcome: Outcome)
    requires Readable(cfg, shared, s)
    ensures Readable(cfg, shared, CommitStep(cfg, s, op, outcome))
  {
    hide CommitBody, Update, StoreReadable, DraftReadable;
    if op in s.ops && s.ops[op].phase.Checked? {
      var o := s.ops[op];
      var Checked(i, plan, d, failure) := o.phase;
      var id, commandId := d.receipt.reservationId, i.horizon.commandId;
      var h, body := HandleOf(s, o.handle), BodyOf(cfg, s, o);
      assert PhaseReadable(cfg, shared, s.clock, o.phase);
      if body.Ok? {
        CommitReadable(cfg, shared, s.clock, s.store, h.fenced, failure, i, plan, d);
      }
      match Atomic(body, outcome)
      case Value(c) =>
        SameReadable(cfg, shared, s, s.(store := c.store));
        UpdateReadable(cfg, shared, s.(store := c.store), op, Move(h, Settling(id, c.result)));
      case Refused(error) =>
        SameReadable(cfg, shared, s, s.(aborts := s.aborts + {(id, commandId)}));
        UpdateReadable(cfg, shared, s.(aborts := s.aborts + {(id, commandId)}), op, Move(h, Releasing(id, error)));
      case Lost =>
        var mid := if outcome.Unknown? && outcome.applied && body.Ok? then s.(store := body.value.store) else s;
        SameReadable(cfg, shared, s, mid);
        UpdateReadable(cfg, shared, mid, op, Lose(h, KeptHold(id)));
    }
  }

  lemma FinishReadable(cfg: Config, shared: bool, s: State, op: nat, acknowledged: bool)
    requires Readable(cfg, shared, s)
    ensures Readable(cfg, shared, FinishStep(s, op, acknowledged))
  {
    hide Update, StoreReadable;
    if op in s.ops && Closing(s.ops[op]).Some? {
      var (call, phase, hold) := Closing(s.ops[op]).value;
      var h := HandleOf(s, s.ops[op].handle);
      var mid := s.(calls := s.calls + [call]);
      SameReadable(cfg, shared, s, mid);
      UpdateReadable(cfg, shared, mid, op, if acknowledged then Move(h, phase) else Lose(h, hold));
    }
  }

  lemma TickReadable(cfg: Config, shared: bool, s: State, h: nat, now: nat)
    requires Readable(cfg, shared, s)
    ensures Readable(cfg, shared, TickStep(s, h, now))
  {
    hide PhaseReadable, StoreReadable;
    var t := TickStep(s, h, now);
    StoreLater(cfg, shared, s.clock, t.clock, s.store);
    forall p | p in t.ops ensures PhaseReadable(cfg, shared, t.clock, t.ops[p].phase) {
      DraftLater(cfg, shared, s.clock, t.clock, s.ops[p].phase);
    }
    forall k: nat ensures HandleOf(t, k).lastTime <= t.clock {
      assert HandleOf(s, k).lastTime <= s.clock;
    }
  }

  lemma StepReadable(cfg: Config, shared: bool, s: State, step: Step)
    requires Inv(cfg, s) && Readable(cfg, shared, s) && (shared ==> SharedClock(s, step))
    ensures Readable(cfg, shared, Apply(cfg, s, step))
  {
    hide Inv, AdmitStep, CommitStep, FinishStep, LocalStep, TickStep, PhaseReadable, IdentityReadable, CommandRowOk,
         ConsentRowOk;
    match step
    case AdmitCommand(op, h, raw, now, request) => AdmitReadable(cfg, shared, s, op, h, raw, now, request);
    case RunCommit(op, outcome) => CommitStepReadable(cfg, shared, s, op, outcome);
    case FinishHold(op, acknowledged) => FinishReadable(cfg, shared, s, op, acknowledged);
    case AcknowledgeEvent(n) => SameReadable(cfg, shared, s, Apply(cfg, s, step));
    case Tick(h, now) => TickReadable(cfg, shared, s, h, now);
    case _ => LocalStepReadable(cfg, shared, s, step);
  }

  lemma {:induction false} RunReadable(cfg: Config, shared: bool, s: State, steps: seq<Step>)
    requires Inv(cfg, s) && Readable(cfg, shared, s) && (shared ==> SharedRun(cfg, s, steps))
    ensures Readable(cfg, shared, Run(cfg, s, steps)) && Inv(cfg, Run(cfg, s, steps))
    decreases |steps|
  {
    hide Inv, Readable, SharedClock, Apply, Extends;
    if steps != [] {
      StepReadable(cfg, shared, s, steps[0]);
      StepKeeps(cfg, s, steps[0]);
      RunReadable(cfg, shared, Apply(cfg, s, steps[0]), steps[1..]);
    }
  }

  // What the validators ask of the rows they read.
  ghost predicate RowsValid(cfg: Config, st: Store) {
    && (forall k | 0 <= k < |st.identities| :: IdentityRowOk(cfg, st.identities[k]))
    && (forall k | 0 <= k < |st.commands| :: CommandRowOk(cfg, st.commands[k]))
    && (forall k | 0 <= k < |st.consents| :: ConsentRowOk(cfg, st.consents[k]))
    && (forall a | a in st.revisions :: 1 <= st.revisions[a] <= MAX_SAFE)
  }

  lemma ReadableValid(cfg: Config, clock: nat, st: Store)
    requires StoreReadable(cfg, true, clock, st)
    ensures RowsValid(cfg, st)
  {
    hide Formed, InOrder, IdentityRowOk, CommandRowOk, ConsentRowOk, EventFits, Fits;
    forall k | 0 <= k < |st.identities| ensures IdentityRowOk(cfg, st.identities[k]) {
      assert IdentityReadable(cfg, true, clock, st.identities[k]);
      FormedInOrder(cfg, st.identities[k]);
    }
  }

  lemma ReadsSucceed(cfg: Config, st: Store, t: Target, account: Text, commandId: Text)
    requires RowsValid(cfg, st)
    ensures FindTarget(cfg, st, t).Ok?
    ensures StoredRevision(st, account).Ok? && StoredCommand(cfg, st, commandId).Ok?
  {
    hide IdentityRowOk, CommandRowOk, ConsentRowOk;
  }

  lemma LinksSucceed(cfg: Config, st: Store, account: Text)
    requires RowsValid(cfg, st) && UniqueIdentities(st.identities)
    requires |Owned(st.identities, account)| <= cfg.maxLinksPerAccount
    ensures Links(cfg, st, account) == Ok(Owned(st.identities, account))
  {
    hide IdentityRowOk, CommandRowOk, ConsentRowOk;
    var rows := Owned(st.identities, account);
    forall r | r in rows ensures IdentityRowOk(cfg, r) {
      OwnedMembers(st.identities, account, r);
    }
    OwnedDistinct(st.identities, account);
  }

  lemma {:induction false} OwnedDistinct(rows: seq<IdentityRow>, account: Text)
    requires UniqueIdentities(rows)
    ensures DistinctLinks(Owned(rows, account))
  {
    if rows != [] {
      OwnedDistinct(rows[1..], account);
      forall j | 0 <= j < |Owned(rows[1..], account)| ensures Owned(rows[1..], account)[j].linkId != rows[0].linkId {
        OwnedMembers(rows[1..], account, Owned(rows[1..], account)[j]);
      }
    }
  }

  lemma InitialReadable(cfg: Config, shared: bool)
    ensures Readable(cfg, shared, INITIAL)
  {
  }

  lemma StoreOf(cfg: Config, shared: bool, s: State, account: Text)
    requires Inv(cfg, s) && Readable(cfg, shared, s)
    ensures StoreReadable(cfg, shared, s.clock, s.store) && UniqueIdentities(s.store.identities)
    ensures |Owned(s.store.identities, account)| <= cfg.maxLinksPerAccount
  {
    hide PhaseOk, CallOk, PhaseReadable, StoreReadable, Counted, KeepsMethod, UniqueKeys, Corresponding;
  }

  /**
   Under one non-decreasing clock no read of the directory ever finds its own rows unreadable: every row written
   fits the record limit with its real reservation id and passes the validators of every later read.
   */
  lemma RowsStayReadable(cfg: Config, steps: seq<Step>, t: Target, account: Text, commandId: Text)
    requires SharedRun(cfg, INITIAL, steps)
    ensures var s := Run(cfg, INITIAL, steps);
            && StoreReadable(cfg, true, s.clock, s.store)
            && FindTarget(cfg, s.store, t).Ok?
            && StoredRevision(s.store, account).Ok?
            && StoredCommand(cfg, s.store, commandId).Ok?
            && Links(cfg, s.store, account) == Ok(Owned(s.store.identities, account))
  {
    hide *;
    InitialInv(cfg);
    InitialReadable(cfg, true);
    RunReadable(cfg, true, INITIAL, steps);
    var s := Run(cfg, INITIAL, steps);
    StoreOf(cfg, true, s, account);
    ReadableValid(cfg, s.clock, s.store);
    ReadsSucceed(cfg, s.store, t, account, commandId);
    LinksSucceed(cfg, s.store, account);
  }

  // The rows of a run, whatever its clocks.
  ghost predicate RowsFormed(cfg: Config, st: Store) {
    && (forall k | 0 <= k < |st.identities| :: IdentityRowOk(cfg, st.identities[k]) <==> InOrder(st.identities[k]))
    && (forall k | 0 <= k < |st.commands| :: CommandRowOk(cfg, st.commands[k]))
    && (forall k | 0 <= k < |st.consents| :: ConsentRowOk(cfg, st.consents[k]))
    && (forall a | a in st.revisions :: RevisionReadable(cfg, a, st.revisions[a]))
    && (forall k | 0 <= k < |st.events| :: EventFits(cfg, st.events[k]))
  }

  lemma ReadableFormed(cfg: Config, clock: nat, st: Store)
    requires StoreReadable(cfg, false, clock, st)
    ensures RowsFormed(cfg, st)
  {
    hide Formed, InOrder, IdentityRowOk, CommandRowOk, ConsentRowOk, EventFits, RevisionReadable;
    forall k | 0 <= k < |st.identities| ensures IdentityRowOk(cfg, st.identities[k]) <==> InOrder(st.identities[k]) {
      assert IdentityReadable(cfg, false, clock, st.identities[k]);
      FormedInOrder(cfg, st.identities[k]);
    }
  }

  // Looking a row up by its link id succeeds exactly when the row's times are in order.
  lemma LookUpIff(cfg: Config, st: Store, k: nat)
    requires RowsFormed(cfg, st) && UniqueIdentities(st.identities) && k < |st.identities|
    ensures StoredLink(cfg, st, st.identities[k].linkId).Ok? <==> InOrder(st.identities[k])
  {
    hide InOrder, IdentityRowOk, CommandRowOk, ConsentRowOk, EventFits, RevisionReadable;
    var found := Row(st.identities, (r: IdentityRow) => r.linkId == st.identities[k].linkId);
    assert found.Some?;
    var j :| 0 <= j < |st.identities| && st.identities[j] == found.value;
    assert j == k;
  }

  /**
   With clocks of any kind, a stored identity row is read exactly when its time of unlinking is not before its time
   of linking. Every other stored row is always readable.
   */
  lemma RowsReadableIff(cfg: Config, steps: seq<Step>)
    ensures var st := Run(cfg, INITIAL, steps).store;
            && RowsFormed(cfg, st)
            && forall k | 0 <= k < |st.identities| ::
                 StoredLink(cfg, st, st.identities[k].linkId).Ok? <==> InOrder(st.identities[k])
  {
    hide *;
    InitialInv(cfg);
    InitialReadable(cfg, false);
    RunReadable(cfg, false, INITIAL, steps);
    var s := Run(cfg, INITIAL, steps);
    StoreOf(cfg, false, s, []);
    ReadableFormed(cfg, s.clock, s.store);
    forall k | 0 <= k < |s.store.identities|
      ensures StoredLink(cfg, s.store, s.store.identities[k].linkId).Ok? <==> InOrder(s.store.identities[k])
    {
      LookUpIff(cfg, s.store, k);
    }
  }

  /*** What a preflight decides ***/

  // The actor of the intent is the current one, at the revision it was guarded with.
  predicate ActorCurrent(cfg: Config, st: Store, i: Intent) {
    i.actor.Some? ==>
      && ActorRow(cfg, st, i.actor.value.source).Ok?
      && ActorRow(cfg, st, i.actor.value.source).value.revision == i.actor.value.revision
  }

  // The row the intent is about, if there is one.
  ghost predicate TargetIs(st: Store, t: Target, r: Option<IdentityRow>) {
    if r.Some? then
      r.value in st.identities
      && (match t
          case ByIdentity(issuer, subject) => KeyedBy(r.value, issuer, subject)
          case ByLink(linkId) => r.value.linkId == linkId)
    else
      forall k | 0 <= k < |st.identities| ::
        match t
        case ByIdentity(issuer, subject) => !KeyedBy(st.identities[k], issuer, subject)
        case ByLink(linkId) => st.identities[k].linkId != linkId
  }

  lemma TargetFound(cfg: Config, st: Store, t: Target)
    requires RowsValid(cfg, st)
    ensures FindTarget(cfg, st, t).Ok? && TargetIs(st, t, FindTarget(cfg, st, t).value)
  {
    hide IdentityRowOk, CommandRowOk, ConsentRowOk;
  }

  lemma ReceiptFree(cfg: Config, st: Store, commandId: Text)
    requires RowsValid(cfg, st)
    ensures StoredCommand(cfg, st, commandId).Ok?
    ensures StoredCommand(cfg, st, commandId).value.None? <==>
              forall k | 0 <= k < |st.commands| :: st.commands[k].commandId != commandId
    ensures var r := StoredCommand(cfg, st, commandId).value;
            r.Some? ==> r.value in st.commands && r.value.commandId == commandId
  {
    hide IdentityRowOk, CommandRowOk, ConsentRowOk;
  }

  lemma ConsentUnused(cfg: Config, st: Store, consentId: Text)
    ensures ConsentFree(cfg, st, consentId).Ok? <==>
              forall k | 0 <= k < |st.consents| :: st.consents[k].consentId != consentId
  {
    hide ConsentRowOk;
  }

  lemma RevisionRead(cfg: Config, st: Store, account: Text)
    requires RowsValid(cfg, st)
    ensures StoredRevision(st, account) == Ok(if account in st.revisions then Some(st.revisions[account]) else None)
  {
    hide IdentityRowOk, CommandRowOk, ConsentRowOk;
  }

  lemma ActorRevision(cfg: Config, st: Store, source: Source)
    requires ActorRow(cfg, st, source).Ok?
    ensures StoredRevision(st, source.account) == Ok(Some(ActorRow(cfg, st, source).value.revision))
  {
    hide IdentityRowOk;
  }

  // What a command may act on: a provision on an unknown identity, a link also on a closed link of its account under
  // the same provider, an unlink on an open link of its account.
  predicate MayAct(i: Intent, target: Option<IdentityRow>) {
    match i.action
    case Provision => target == None
    case Link =>
      target == None || (target.value.account == i.account && target.value.provider == i.provider
                         && !target.value.active)
    case Unlink => target != None && target.value.account == i.account && target.value.active
  }

  // Room for five rows, one receipt, one pending event and, if the link is new, one link.
  predicate HasRoom(cfg: Config, st: Store, account: Text, newLink: bool) {
    && TotalRows(st) + 5 <= cfg.maxRows
    && |Owned(st.identities, account)| + (if newLink then 1 else 0) <= cfg.maxLinksPerAccount
    && Receipts(st.commands, account) + 1 <= cfg.maxReceiptsPerAccount
    && Pending(st.events) + 1 <= cfg.maxPendingEvents
  }

  lemma MayActIs(i: Intent, target: Option<IdentityRow>)
    ensures MayAct(i, target) <==> TargetAllowed(i, target)
  {
  }

  lemma HasRoomIs(cfg: Config, st: Store, account: Text, newLink: bool)
    ensures HasRoom(cfg, st, account, newLink) <==> Admits(cfg, st, account, newLink)
  {
  }

  /**
   A preflight admits a command exactly when its actor is current, its id and its consent are unused, its target is
   one it may act on and there is room for it.
   */
  lemma PreflightAdmitsIff(cfg: Config, st: Store, i: Intent)
    requires RowsValid(cfg, st) && IntentOk(cfg, i)
    requires |Owned(st.identities, i.account)| <= cfg.maxLinksPerAccount && UniqueIdentities(st.identities)
    ensures Preflight(cfg, st, i).Ok? && Preflight(cfg, st, i).value.receipt.None?
            <==> && ActorCurrent(cfg, st, i)
                 && (forall k | 0 <= k < |st.commands| :: st.commands[k].commandId != i.horizon.commandId)
                 && (forall k | 0 <= k < |st.consents| :: st.consents[k].consentId != i.consentId)
                 && exists target: Option<IdentityRow> ::
                      TargetIs(st, i.target, target) && MayAct(i, target) && HasRoom(cfg, st, i.account, target.None?)
  {
    hide RowsValid, ActorRow, TargetIs, TargetAllowed, Admits, StoredCommand, FindTarget, ConsentFree, Links,
         UniqueIdentities, StoredRevision;
    ReceiptFree(cfg, st, i.horizon.commandId);
    TargetFound(cfg, st, i.target);
    ConsentUnused(cfg, st, i.consentId);
    RevisionRead(cfg, st, i.account);
    LinksSucceed(cfg, st, i.account);
    if i.actor.Some? && ActorRow(cfg, st, i.actor.value.source).Ok? {
      ActorRevision(cfg, st, i.actor.value.source);
    }
    var found := FindTarget(cfg, st, i.target).value;
    forall target: Option<IdentityRow> | TargetIs(st, i.target, target) ensures target == found {
      OneTarget(st, i.target, target, found);
    }
    MayActIs(i, found);
    HasRoomIs(cfg, st, i.account, found.None?);
    hide MayAct, HasRoom;
  }

  lemma ActorRefusal(cfg: Config, st: Store, source: Source)
    requires RowsValid(cfg, st) && ActorRow(cfg, st, source).Err?
    ensures ActorRow(cfg, st, source) == Err(AuthenticationDenied)
  {
    hide IdentityRowOk, CommandRowOk, ConsentRowOk;
  }

  /**
   What a preflight that refuses a new command tells, in this order: that its actor is not current, that its target
   or its actor's revision has moved, that its consent is used, or that there is no room.
   */
  lemma PreflightTellsWhy(cfg: Config, st: Store, i: Intent, target: Option<IdentityRow>)
    requires RowsValid(cfg, st) && IntentOk(cfg, i)
    requires |Owned(st.identities, i.account)| <= cfg.maxLinksPerAccount && UniqueIdentities(st.identities)
    requires forall k | 0 <= k < |st.commands| :: st.commands[k].commandId != i.horizon.commandId
    requires TargetIs(st, i.target, target) && Preflight(cfg, st, i).Err?
    ensures Preflight(cfg, st, i).error
            == (if i.actor.Some? && ActorRow(cfg, st, i.actor.value.source).Err? then AuthenticationDenied
                else if !MayAct(i, target) || !ActorCurrent(cfg, st, i) then IdentityConflict
                else if exists k | 0 <= k < |st.consents| :: st.consents[k].consentId == i.consentId then ConsentDenied
                else CapacityExceeded)
  {
    hide RowsValid, ActorRow, TargetIs, TargetAllowed, Admits, StoredCommand, FindTarget, Links, UniqueIdentities,
         StoredRevision, ConsentFree, MayAct, HasRoom;
    ReceiptFree(cfg, st, i.horizon.commandId);
    TargetFound(cfg, st, i.target);
    OneTarget(st, i.target, target, FindTarget(cfg, st, i.target).value);
    ConsentRefusal(cfg, st, i.consentId);
    RevisionRead(cfg, st, i.account);
    LinksSucceed(cfg, st, i.account);
    MayActIs(i, target);
    if i.actor.Some? {
      if ActorRow(cfg, st, i.actor.value.source).Ok? {
        ActorRevision(cfg, st, i.actor.value.source);
      } else {
        ActorRefusal(cfg, st, i.actor.value.source);
      }
    }
  }

  lemma ConsentRefusal(cfg: Config, st: Store, consentId: Text)
    requires RowsValid(cfg, st)
    ensures ConsentFree(cfg, st, consentId)
            == if exists k | 0 <= k < |st.consents| :: st.consents[k].consentId == consentId then Err(ConsentDenied)
               else Ok(())
  {
    hide IdentityRowOk, CommandRowOk, ConsentRowOk;
  }

  lemma OneTarget(st: Store, t: Target, a: Option<IdentityRow>, b: Option<IdentityRow>)
    requires UniqueIdentities(st.identities) && TargetIs(st, t, a) && TargetIs(st, t, b)
    ensures a == b
  {
  }
}
