/** Unlinks and links that nothing disturbs: the steps that lead to their commit and the store it leaves. */
module DirectoryLinking {
  import opened Common
  import opened CanonicalText
  import opened DirectoryRows
  import opened DirectoryTransactions
  import opened DirectoryStoreLaws
  import opened DirectoryProtocol
  import opened DirectoryReadability
  import opened DirectoryWitness

  /*** An unlink that nothing disturbs ***/

  // One unlink: what is asked, by whom, what stays usable, what is drawn and granted.
  datatype Detach = Detach(
    raw: Text,
    now: nat,
    source: Source,
    linkId: Text,
    consentId: Text,
    usable: set<Text>,
    eventId: Text,
    reservationId: Text
  )

  function Consent(u: Detach): Answer {
    Approve([], u.consentId, [], [], [])
  }

  function Detaching(u: Detach, horizon: Horizon, actor: Actor, row: IdentityRow): Intent {
    Intent(Unlink, horizon, u.source.account, u.consentId, ByLink(u.linkId), row.provider, Some(actor))
  }

  ghost predicate Detaches(cfg: Config, st: Store, u: Detach, horizon: Horizon, actor: Actor, row: IdentityRow,
                           plan: Plan, d: Draft)
  {
    var i := Detaching(u, horizon, actor, row);
    && ParseHorizon(u.raw, u.now, cfg.replayWindow) == Ok(horizon) && u.now <= MAX_SAFE
    && cfg.maxConcurrentCommands >= 1
    && actor.source == u.source && ActorRow(cfg, st, u.source) == Ok(actor)
    && StoredLink(cfg, st, u.linkId) == Ok(Some(row)) && row.account == u.source.account
    && IntentOk(cfg, i) && Preflight(cfg, st, i) == Ok(plan) && plan.receipt.None?
    && UsableLeft(plan.links, u.linkId, u.usable)
    && IdOk(u.linkId) && IdOk(u.eventId) && Portable(u.reservationId, 128)
    && MakeDraft(cfg, i, plan, u.now, u.linkId, u.eventId) == Ok(d) && Sized(cfg, d)
  }

  function Detachment(op: nat, h: nat, u: Detach): seq<Step> {
    [AdmitCommand(op, h, u.raw, u.now, ToUnlink(u.linkId))] + [ReceiveAnswer(op, Session(u.source))]
    + [RunGuard(op, Committed)] + [ResolveIntent(op, Committed, Consent(u))] + [RunPreflight(op, Committed)]
    + [PriceRows(op, u.usable, u.now, u.linkId, u.eventId, true)] + [ReserveGrowth(op, Some(u.reservationId))]
    + [CheckAgain(op, u.now, u.usable, None, u.source, Committed)]
  }

  // A running operation that a schedule has brought to phase p is brought to q by one more step.
  lemma StepOn(cfg: Config, s: State, steps: seq<Step>, op: nat, h: nat, horizon: Horizon, p: Phase, q: Phase,
               now: nat, step: Step)
    requires At(s, Run(cfg, s, steps), op, h, horizon, p, now)
    requires !step.AdmitCommand? && !step.RunCommit? && !step.FinishHold? && !step.AcknowledgeEvent? && !step.Tick?
    requires step.op == op && !q.Ended?
    requires Local(cfg, s.store, Handle(false, now, 1), Op(h, true, Some(horizon), p), step)
             == Some(Move(Handle(false, now, 1), q))
    ensures At(s, Run(cfg, s, steps + [step]), op, h, horizon, q, now)
  {
    hide *;
    Moves(cfg, s, Run(cfg, s, steps), op, h, horizon, p, q, now, step);
    RunStep(cfg, s, steps, step);
  }

  lemma DetachAdmitted(cfg: Config, s: State, op: nat, h: nat, u: Detach, horizon: Horizon)
    requires op !in s.ops && h !in s.handles && cfg.maxConcurrentCommands >= 1 && u.now <= MAX_SAFE
    requires ParseHorizon(u.raw, u.now, cfg.replayWindow) == Ok(horizon)
    ensures var step := AdmitCommand(op, h, u.raw, u.now, ToUnlink(u.linkId));
            At(s, Run(cfg, s, [step]), op, h, horizon, Opening(ToUnlink(u.linkId)), u.now)
  {
    hide ParseHorizon;
    var step := AdmitCommand(op, h, u.raw, u.now, ToUnlink(u.linkId));
    assert [step][1..] == [];
  }

  // The moves of the unlink, from its admission to its intent.
  lemma DetachAsked(cfg: Config, st: Store, op: nat, h: nat, u: Detach, horizon: Horizon, actor: Actor,
                    row: IdentityRow, plan: Plan, d: Draft)
    requires Detaches(cfg, st, u, horizon, actor, row, plan, d)
    ensures var k, request := Handle(false, u.now, 1), ToUnlink(u.linkId);
            && Local(cfg, st, k, Op(h, true, Some(horizon), Opening(request)), ReceiveAnswer(op, Session(u.source)))
               == Some(Move(k, Guarding(request, u.source)))
            && Local(cfg, st, k, Op(h, true, Some(horizon), Guarding(request, u.source)), RunGuard(op, Committed))
               == Some(Move(k, Guarded(request, actor)))
            && Local(cfg, st, k, Op(h, true, Some(horizon), Guarded(request, actor)),
                     ResolveIntent(op, Committed, Consent(u)))
               == Some(Move(k, Deciding(Detaching(u, horizon, actor, row))))
  {
    hide ParseHorizon, ActorRow, StoredLink, IntentOk, Preflight, MakeDraft, Sized, IdOk, Portable;
  }

  lemma DetachPlanned(cfg: Config, st: Store, op: nat, h: nat, u: Detach, horizon: Horizon, actor: Actor,
                      row: IdentityRow, plan: Plan, d: Draft)
    requires Detaches(cfg, st, u, horizon, actor, row, plan, d)
    ensures var k, i := Handle(false, u.now, 1), Detaching(u, horizon, actor, row);
            && Local(cfg, st, k, Op(h, true, Some(horizon), Deciding(i)), RunPreflight(op, Committed))
               == Some(Move(k, Planned(i, plan)))
            && Local(cfg, st, k, Op(h, true, Some(horizon), Planned(i, plan)),
                     PriceRows(op, u.usable, u.now, u.linkId, u.eventId, true))
               == Some(Move(k, Priced(i, plan, d)))
            && Local(cfg, st, k, Op(h, true, Some(horizon), Priced(i, plan, d)),
                     ReserveGrowth(op, Some(u.reservationId)))
               == Some(Move(k, Reserved(i, plan, Funded(d, u.reservationId))))
  {
    hide ParseHorizon, ActorRow, StoredLink, IntentOk, Preflight, MakeDraft, Sized, IdOk, Portable, UsableLeft;
  }

  lemma DetachChecked(cfg: Config, st: Store, op: nat, h: nat, u: Detach, horizon: Horizon, actor: Actor,
                      row: IdentityRow, plan: Plan, d: Draft)
    requires Detaches(cfg, st, u, horizon, actor, row, plan, d)
    ensures var k, i, f := Handle(false, u.now, 1), Detaching(u, horizon, actor, row), Funded(d, u.reservationId);
            Local(cfg, st, k, Op(h, true, Some(horizon), Reserved(i, plan, f)),
                  CheckAgain(op, u.now, u.usable, None, u.source, Committed))
            == Some(Move(k, Checked(i, plan, f, None)))
  {
    hide ActorRow, StoredLink, IntentOk, Preflight, MakeDraft, Sized, IdOk, Portable, UsableLeft;
    ParsedRaw(u.raw, u.now, cfg.replayWindow);
    hide ParseHorizon;
  }

  /** An undisturbed unlink on an unused handle reaches its commit with nothing held against it. */
  lemma DetachPrepares(cfg: Config, s: State, op: nat, h: nat, u: Detach, horizon: Horizon, actor: Actor,
                       row: IdentityRow, plan: Plan, d: Draft)
    requires Detaches(cfg, s.store, u, horizon, actor, row, plan, d) && op !in s.ops && h !in s.handles
    ensures var i := Detaching(u, horizon, actor, row);
            At(s, Run(cfg, s, Detachment(op, h, u)), op, h, horizon,
               Checked(i, plan, Funded(d, u.reservationId), None), u.now)
  {
    hide *;
    var i, f, request := Detaching(u, horizon, actor, row), Funded(d, u.reservationId), ToUnlink(u.linkId);
    DetachOpens(cfg, s.store, u, horizon, actor, row, plan, d);
    DetachmentSteps(op, h, u);
    var a0 := AdmitCommand(op, h, u.raw, u.now, request);
    var a1, a2 := ReceiveAnswer(op, Session(u.source)), RunGuard(op, Committed);
    var a3, a4 := ResolveIntent(op, Committed, Consent(u)), RunPreflight(op, Committed);
    var a5, a6 := PriceRows(op, u.usable, u.now, u.linkId, u.eventId, true), ReserveGrowth(op, Some(u.reservationId));
    var a7 := CheckAgain(op, u.now, u.usable, None, u.source, Committed);
    DetachAdmitted(cfg, s, op, h, u, horizon);
    DetachAsked(cfg, s.store, op, h, u, horizon, actor, row, plan, d);
    StepOn(cfg, s, [a0], op, h, horizon, Opening(request), Guarding(request, u.source), u.now, a1);
    StepOn(cfg, s, [a0] + [a1], op, h, horizon, Guarding(request, u.source), Guarded(request, actor), u.now, a2);
    StepOn(cfg, s, [a0] + [a1] + [a2], op, h, horizon, Guarded(request, actor), Deciding(i), u.now, a3);
    var p3 := [a0] + [a1] + [a2] + [a3];
    DetachPlanned(cfg, s.store, op, h, u, horizon, actor, row, plan, d);
    StepOn(cfg, s, p3, op, h, horizon, Deciding(i), Planned(i, plan), u.now, a4);
    StepOn(cfg, s, p3 + [a4], op, h, horizon, Planned(i, plan), Priced(i, plan, d), u.now, a5);
    StepOn(cfg, s, p3 + [a4] + [a5], op, h, horizon, Priced(i, plan, d), Reserved(i, plan, f), u.now, a6);
    DetachChecked(cfg, s.store, op, h, u, horizon, actor, row, plan, d);
    StepOn(cfg, s, p3 + [a4] + [a5] + [a6], op, h, horizon, Reserved(i, plan, f), Checked(i, plan, f, None), u.now, a7);
  }

  lemma DetachOpens(cfg: Config, st: Store, u: Detach, horizon: Horizon, actor: Actor, row: IdentityRow, plan: Plan,
                    d: Draft)
    requires Detaches(cfg, st, u, horizon, actor, row, plan, d)
    ensures ParseHorizon(u.raw, u.now, cfg.replayWindow) == Ok(horizon)
    ensures u.now <= MAX_SAFE && cfg.maxConcurrentCommands >= 1
  {
    hide ParseHorizon, ActorRow, StoredLink, IntentOk, Preflight, MakeDraft, Sized, IdOk, Portable, UsableLeft;
  }

  lemma DetachmentSteps(op: nat, h: nat, u: Detach)
    ensures Detachment(op, h, u)
            == [AdmitCommand(op, h, u.raw, u.now, ToUnlink(u.linkId))] + [ReceiveAnswer(op, Session(u.source))]
               + [RunGuard(op, Committed)] + [ResolveIntent(op, Committed, Consent(u))] + [RunPreflight(op, Committed)]
               + [PriceRows(op, u.usable, u.now, u.linkId, u.eventId, true)]
               + [ReserveGrowth(op, Some(u.reservationId))]
               + [CheckAgain(op, u.now, u.usable, None, u.source, Committed)]
  {
  }

  /*** Commits whose plan still stands ***/

  /** A commit whose preflight answers as its plan, and whose writes are free, writes. */
  lemma StandingCommit(cfg: Config, st: Store, i: Intent, plan: Plan, f: Draft)
    requires Preflight(cfg, st, i) == Ok(plan) && plan.receipt.None? && WritesApply(st, plan, f)
    requires StoredLink(cfg, st, f.identity.linkId).Ok?
    requires StoredLink(cfg, st, f.identity.linkId).value.Some? ==> plan.target.Some?
    ensures CommitBody(cfg, st, false, None, i, plan, f) == Ok(Commit(Written(st, plan, f), f.receipt.result))
  {
    hide Preflight, WriteAll, Written, WritesApply, Canonical, TargetJson, StoredLink;
    WriteAllEffect(st, plan, f);
  }

  lemma CommitsTo(cfg: Config, s: State, steps: seq<Step>, op: nat, h: nat, horizon: Horizon, i: Intent, plan: Plan,
                  f: Draft, now: nat)
    requires At(s, Run(cfg, s, steps), op, h, horizon, Checked(i, plan, f, None), now)
    requires CommitBody(cfg, s.store, false, None, i, plan, f)
             == Ok(Commit(Written(s.store, plan, f), f.receipt.result))
    ensures var u := Run(cfg, s, steps + [RunCommit(op, Committed)]);
            && u.store == Written(s.store, plan, f)
            && u.ops.Keys == s.ops.Keys + {op} && u.handles.Keys == s.handles.Keys + {h}
  {
    hide CommitBody, Written, Run;
    RunStep(cfg, s, steps, RunCommit(op, Committed));
  }

  // A preflight that finds everything in place, and the plan it makes.
  lemma PlanFor(cfg: Config, st: Store, i: Intent, target: Option<IdentityRow>) returns (plan: Plan)
    requires RowsValid(cfg, st) && IntentOk(cfg, i) && UniqueIdentities(st.identities)
    requires |Owned(st.identities, i.account)| <= cfg.maxLinksPerAccount && ActorCurrent(cfg, st, i)
    requires forall k | 0 <= k < |st.commands| :: st.commands[k].commandId != i.horizon.commandId
    requires forall k | 0 <= k < |st.consents| :: st.consents[k].consentId != i.consentId
    requires TargetIs(st, i.target, target) && MayAct(i, target) && HasRoom(cfg, st, i.account, target.None?)
    ensures Preflight(cfg, st, i) == Ok(plan) && plan.receipt.None? && plan.target == target
    ensures plan.revision == if i.account in st.revisions then Some(st.revisions[i.account]) else None
    ensures i.action == Unlink ==> plan.links == Owned(st.identities, i.account)
  {
    hide RowsValid, IntentOk, UniqueIdentities, ActorCurrent, TargetIs, TargetAllowed, Admits, Preflight, Links,
         FindTarget, StoredRevision, MayAct, HasRoom;
    PreflightAdmitsIff(cfg, st, i);
    plan := Preflight(cfg, st, i).value;
    PreflightFacts(cfg, st, i);
    TargetFound(cfg, st, i.target);
    OneTarget(st, i.target, target, plan.target);
    RevisionRead(cfg, st, i.account);
    LinksSucceed(cfg, st, i.account);
  }

  // Rows are made from the target and the revision of a plan, in the namespace.
  lemma SameRows(cfg: Config, other: Config, i: Intent, p: Plan, q: Plan, at: nat, drawn: Text, eventId: Text)
    requires cfg.namespace == other.namespace && p.target == q.target && p.revision == q.revision
    ensures MakeDraft(cfg, i, p, at, drawn, eventId) == MakeDraft(other, i, q, at, drawn, eventId)
  {
    assert DigestMembers(cfg, i) == DigestMembers(other, i);
  }

  /*** A link that nothing disturbs ***/

  // One link: what is asked, by whom, which identity is proved, what is drawn and granted.
  datatype Attach = Attach(
    raw: Text,
    now: nat,
    source: Source,
    issuer: Text,
    subject: Text,
    provider: Text,
    consentId: Text,
    linkId: Text,
    eventId: Text,
    reservationId: Text
  )

  function Proof(u: Attach): Answer {
    Approve([], u.consentId, u.issuer, u.subject, u.provider)
  }

  function Attaching(u: Attach, horizon: Horizon, actor: Actor): Intent {
    Intent(Link, horizon, u.source.account, u.consentId, ByIdentity(u.issuer, u.subject), u.provider, Some(actor))
  }

  // Valid inputs and draws, a current session, an identity that is unknown or a closed link of the account under
  // the same provider, room for one command, and rows that fit.
  ghost predicate Attaches(cfg: Config, st: Store, u: Attach, horizon: Horizon, actor: Actor,
                           target: Option<IdentityRow>, d: Draft)
  {
    var i := Attaching(u, horizon, actor);
    && ParseHorizon(u.raw, u.now, cfg.replayWindow) == Ok(horizon) && u.now <= MAX_SAFE
    && cfg.maxConcurrentCommands >= 1
    && actor.source == u.source && ActorRow(cfg, st, u.source) == Ok(actor)
    && IntentOk(cfg, i) && RowsValid(cfg, st) && UniqueIdentities(st.identities)
    && |Owned(st.identities, u.source.account)| <= cfg.maxLinksPerAccount
    && (forall k | 0 <= k < |st.commands| :: st.commands[k].commandId != horizon.commandId)
    && (forall k | 0 <= k < |st.consents| :: st.consents[k].consentId != u.consentId)
    && (forall k | 0 <= k < |st.events| :: st.events[k].eventId != u.eventId)
    && (forall k | 0 <= k < |st.identities| && target.None? :: st.identities[k].linkId != u.linkId)
    && TargetIs(st, ByIdentity(u.issuer, u.subject), target)
    && (target.Some? ==> target.value.account == u.source.account && target.value.provider == u.provider
                         && !target.value.active)
    && HasRoom(cfg, st, u.source.account, target.None?)
    && IdOk(u.linkId) && IdOk(u.eventId) && Portable(u.reservationId, 128)
    && u.source.account in st.revisions
    && MakeDraft(cfg, i, Plan(target, Some(st.revisions[u.source.account]), None, []), u.now, u.linkId, u.eventId)
       == Ok(d)
    && Sized(cfg, d)
  }

  function Attachment(op: nat, h: nat, u: Attach): seq<Step> {
    [AdmitCommand(op, h, u.raw, u.now, ToLink)] + [ReceiveAnswer(op, Session(u.source))]
    + [RunGuard(op, Committed)] + [ResolveIntent(op, Committed, Proof(u))] + [RunPreflight(op, Committed)]
    + [PriceRows(op, {}, u.now, u.linkId, u.eventId, true)] + [ReserveGrowth(op, Some(u.reservationId))]
    + [CheckAgain(op, u.now, {}, None, u.source, Committed)]
  }

  lemma AttachAdmitted(cfg: Config, s: State, op: nat, h: nat, u: Attach, horizon: Horizon)
    requires op !in s.ops && h !in s.handles && cfg.maxConcurrentCommands >= 1 && u.now <= MAX_SAFE
    requires ParseHorizon(u.raw, u.now, cfg.replayWindow) == Ok(horizon)
    ensures At(s, Run(cfg, s, [AdmitCommand(op, h, u.raw, u.now, ToLink)]), op, h, horizon, Opening(ToLink), u.now)
  {
    hide ParseHorizon;
    var step := AdmitCommand(op, h, u.raw, u.now, ToLink);
    assert [step][1..] == [];
  }

  lemma AttachOpens(cfg: Config, st: Store, u: Attach, horizon: Horizon, actor: Actor, target: Option<IdentityRow>,
                    d: Draft)
    requires Attaches(cfg, st, u, horizon, actor, target, d)
    ensures ParseHorizon(u.raw, u.now, cfg.replayWindow) == Ok(horizon)
    ensures u.now <= MAX_SAFE && cfg.maxConcurrentCommands >= 1
    ensures actor.source == u.source && ActorRow(cfg, st, u.source) == Ok(actor)
    ensures IntentOk(cfg, Attaching(u, horizon, actor))
    ensures IdOk(u.linkId) && IdOk(u.eventId) && Portable(u.reservationId, 128)
  {
    hide ParseHorizon, ActorRow, IntentOk, MakeDraft, Sized, IdOk, Portable, RowsValid, UniqueIdentities, Owned,
         HasRoom, TargetIs;
  }

  // The plan of the link.
  lemma AttachPlan(cfg: Config, st: Store, u: Attach, horizon: Horizon, actor: Actor, target: Option<IdentityRow>,
                   d: Draft)
    returns (plan: Plan)
    requires Attaches(cfg, st, u, horizon, actor, target, d)
    ensures Preflight(cfg, st, Attaching(u, horizon, actor)) == Ok(plan) && plan.receipt.None?
    ensures plan.target == target
    ensures u.source.account in st.revisions && plan.revision == Some(st.revisions[u.source.account])
    ensures MakeDraft(cfg, Attaching(u, horizon, actor), plan, u.now, u.linkId, u.eventId) == Ok(d) && Sized(cfg, d)
  {
    hide ParseHorizon, ActorRow, IntentOk, MakeDraft, Sized, IdOk, Portable, RowsValid, UniqueIdentities, Owned,
         HasRoom, TargetIs, Preflight;
    var i := Attaching(u, horizon, actor);
    plan := PlanFor(cfg, st, i, target);
    SameRows(cfg, cfg, i, plan, Plan(target, Some(st.revisions[u.source.account]), None, []), u.now, u.linkId,
             u.eventId);
  }

  lemma AttachAsked(cfg: Config, st: Store, op: nat, h: nat, u: Attach, horizon: Horizon, actor: Actor)
    requires actor.source == u.source && ActorRow(cfg, st, u.source) == Ok(actor)
    requires IntentOk(cfg, Attaching(u, horizon, actor))
    ensures var k := Handle(false, u.now, 1);
            && Local(cfg, st, k, Op(h, true, Some(horizon), Opening(ToLink)), ReceiveAnswer(op, Session(u.source)))
               == Some(Move(k, Guarding(ToLink, u.source)))
            && Local(cfg, st, k, Op(h, true, Some(horizon), Guarding(ToLink, u.source)), RunGuard(op, Committed))
               == Some(Move(k, Guarded(ToLink, actor)))
            && Local(cfg, st, k, Op(h, true, Some(horizon), Guarded(ToLink, actor)),
                     ResolveIntent(op, Committed, Proof(u)))
               == Some(Move(k, Deciding(Attaching(u, horizon, actor))))
  {
    hide ActorRow, IntentOk;
  }

  lemma AttachPlanned(cfg: Config, st: Store, op: nat, h: nat, u: Attach, horizon: Horizon, actor: Actor, plan: Plan,
                      d: Draft)
    requires Preflight(cfg, st, Attaching(u, horizon, actor)) == Ok(plan) && plan.receipt.None? && u.now <= MAX_SAFE
    requires MakeDraft(cfg, Attaching(u, horizon, actor), plan, u.now, u.linkId, u.eventId) == Ok(d) && Sized(cfg, d)
    requires IdOk(u.linkId) && IdOk(u.eventId) && Portable(u.reservationId, 128)
    ensures var k, i := Handle(false, u.now, 1), Attaching(u, horizon, actor);
            && Local(cfg, st, k, Op(h, true, Some(horizon), Deciding(i)), RunPreflight(op, Committed))
               == Some(Move(k, Planned(i, plan)))
            && Local(cfg, st, k, Op(h, true, Some(horizon), Planned(i, plan)),
                     PriceRows(op, {}, u.now, u.linkId, u.eventId, true))
               == Some(Move(k, Priced(i, plan, d)))
            && Local(cfg, st, k, Op(h, true, Some(horizon), Priced(i, plan, d)),
                     ReserveGrowth(op, Some(u.reservationId)))
               == Some(Move(k, Reserved(i, plan, Funded(d, u.reservationId))))
  {
    hide Preflight, MakeDraft, Sized, IdOk, Portable;
  }

  lemma AttachChecked(cfg: Config, st: Store, op: nat, h: nat, u: Attach, horizon: Horizon, actor: Actor, plan: Plan,
                      d: Draft)
    requires ParseHorizon(u.raw, u.now, cfg.replayWindow) == Ok(horizon) && u.now <= MAX_SAFE
    requires ActorRow(cfg, st, u.source) == Ok(actor)
    ensures var k, i, f := Handle(false, u.now, 1), Attaching(u, horizon, actor), Funded(d, u.reservationId);
            Local(cfg, st, k, Op(h, true, Some(horizon), Reserved(i, plan, f)),
                  CheckAgain(op, u.now, {}, None, u.source, Committed))
            == Some(Move(k, Checked(i, plan, f, None)))
  {
    hide ActorRow;
    ParsedRaw(u.raw, u.now, cfg.replayWindow);
    hide ParseHorizon;
  }

  /** An undisturbed link on an unused handle reaches its commit with nothing held against it. */
  lemma AttachPrepares(cfg: Config, s: State, op: nat, h: nat, u: Attach, horizon: Horizon, actor: Actor,
                       target: Option<IdentityRow>, d: Draft)
    returns (plan: Plan)
    requires Attaches(cfg, s.store, u, horizon, actor, target, d) && op !in s.ops && h !in s.handles
    ensures At(s, Run(cfg, s, Attachment(op, h, u)), op, h, horizon,
               Checked(Attaching(u, horizon, actor), plan, Funded(d, u.reservationId), None), u.now)
    ensures Preflight(cfg, s.store, Attaching(u, horizon, actor)) == Ok(plan) && plan.receipt.None?
    ensures plan.target == target
    ensures u.source.account in s.store.revisions && plan.revision == Some(s.store.revisions[u.source.account])
  {
    hide *;
    var i, f := Attaching(u, horizon, actor), Funded(d, u.reservationId);
    AttachOpens(cfg, s.store, u, horizon, actor, target, d);
    plan := AttachPlan(cfg, s.store, u, horizon, actor, target, d);
    AttachmentSteps(op, h, u);
    var a0, a1 := AdmitCommand(op, h, u.raw, u.now, ToLink), ReceiveAnswer(op, Session(u.source));
    var a2, a3 := RunGuard(op, Committed), ResolveIntent(op, Committed, Proof(u));
    var a4, a5 := RunPreflight(op, Committed), PriceRows(op, {}, u.now, u.linkId, u.eventId, true);
    var a6, a7 := ReserveGrowth(op, Some(u.reservationId)), CheckAgain(op, u.now, {}, None, u.source, Committed);
    AttachAdmitted(cfg, s, op, h, u, horizon);
    AttachAsked(cfg, s.store, op, h, u, horizon, actor);
    StepOn(cfg, s, [a0], op, h, horizon, Opening(ToLink), Guarding(ToLink, u.source), u.now, a1);
    StepOn(cfg, s, [a0] + [a1], op, h, horizon, Guarding(ToLink, u.source), Guarded(ToLink, actor), u.now, a2);
    StepOn(cfg, s, [a0] + [a1] + [a2], op, h, horizon, Guarded(ToLink, actor), Deciding(i), u.now, a3);
    var p3 := [a0] + [a1] + [a2] + [a3];
    AttachPlanned(cfg, s.store, op, h, u, horizon, actor, plan, d);
    StepOn(cfg, s, p3, op, h, horizon, Deciding(i), Planned(i, plan), u.now, a4);
    StepOn(cfg, s, p3 + [a4], op, h, horizon, Planned(i, plan), Priced(i, plan, d), u.now, a5);
    StepOn(cfg, s, p3 + [a4] + [a5], op, h, horizon, Priced(i, plan, d), Reserved(i, plan, f), u.now, a6);
    AttachChecked(cfg, s.store, op, h, u, horizon, actor, plan, d);
    StepOn(cfg, s, p3 + [a4] + [a5] + [a6], op, h, horizon, Reserved(i, plan, f), Checked(i, plan, f, None), u.now, a7);
  }

  lemma AttachmentSteps(op: nat, h: nat, u: Attach)
    ensures Attachment(op, h, u)
            == [AdmitCommand(op, h, u.raw, u.now, ToLink)] + [ReceiveAnswer(op, Session(u.source))]
               + [RunGuard(op, Committed)] + [ResolveIntent(op, Committed, Proof(u))] + [RunPreflight(op, Committed)]
               + [PriceRows(op, {}, u.now, u.linkId, u.eventId, true)] + [ReserveGrowth(op, Some(u.reservationId))]
               + [CheckAgain(op, u.now, {}, None, u.source, Committed)]
  {
  }

  // The row a link opens: its identity under the account, or its closed link again, one generation on.
  function LinkedRow(cfg: Config, u: Attach, target: Option<IdentityRow>): IdentityRow {
    if target.Some?
    then target.value.(active := true, generation := target.value.generation + 1, unlinkedAt := None)
    else IdentityRow(cfg.namespace, u.issuer, u.subject, u.provider, u.source.account, u.linkId, true, 1, u.now, None)
  }

  // The rows a link leaves: its own row, and the records of the command.
  ghost predicate Linked(cfg: Config, s: Store, t: Store, u: Attach, horizon: Horizon, target: Option<IdentityRow>) {
    var row, n := LinkedRow(cfg, u, target), |s.commands|;
    && (if target.None? then t.identities == s.identities + [row]
        else exists k: nat | k < |s.identities| ::
               s.identities[k] == target.value && t.identities == s.identities[k := row])
    && u.source.account in s.revisions
    && var revision := s.revisions[u.source.account] + 1;
    && t.revisions == s.revisions[u.source.account := revision]
    && |t.commands| == n + 1 && t.commands[..n] == s.commands
    && t.commands[n].commandId == horizon.commandId && t.commands[n].reservationId == u.reservationId
    && t.commands[n].result == CommandResult(Link, u.source.account, row.linkId, revision, false)
    && t.consents == s.consents + [ConsentRow(cfg.namespace, u.consentId, horizon.commandId, horizon.deadline)]
    && t.events == s.events + [EventRow(u.eventId, cfg.namespace, Link, u.source.account, row.linkId, u.provider,
                                        revision, u.now, horizon.commandId, true)]
  }

  lemma AttachRows(cfg: Config, st: Store, u: Attach, horizon: Horizon, actor: Actor, target: Option<IdentityRow>,
                   d: Draft)
    requires Attaches(cfg, st, u, horizon, actor, target, d)
    ensures d.identity == LinkedRow(cfg, u, target) && u.source.account in st.revisions
    ensures var revision := st.revisions[u.source.account] + 1;
            && d.revision == revision && d.receipt.account == u.source.account
            && d.receipt.commandId == horizon.commandId
            && d.receipt.result == CommandResult(Link, u.source.account, d.identity.linkId, revision, false)
            && d.consent == ConsentRow(cfg.namespace, u.consentId, horizon.commandId, horizon.deadline)
            && d.event == EventRow(u.eventId, cfg.namespace, Link, u.source.account, d.identity.linkId, u.provider,
                                   revision, u.now, horizon.commandId, true)
  {
    hide ParseHorizon, ActorRow, IntentOk, Sized, IdOk, Portable, RowsValid, UniqueIdentities, Owned, HasRoom, TargetIs,
         IntentDigest;
  }

  // The row of the target, where there is one, is where the command updates it.
  lemma TargetSlot(st: Store, u: Attach, target: Option<IdentityRow>, d: Draft) returns (k: nat)
    requires UniqueIdentities(st.identities) && TargetIs(st, ByIdentity(u.issuer, u.subject), target) && target.Some?
    requires d.identity.issuer == target.value.issuer && d.identity.subject == target.value.subject
    ensures k < |st.identities| && st.identities[k] == target.value && Slot(st, d) == Some(k)
  {
    k :| 0 <= k < |st.identities| && st.identities[k] == target.value;
    assert KeyedBy(st.identities[k], d.identity.issuer, d.identity.subject);
  }

  lemma AttachWrites(cfg: Config, st: Store, u: Attach, horizon: Horizon, actor: Actor, target: Option<IdentityRow>,
                     d: Draft, plan: Plan)
    requires Attaches(cfg, st, u, horizon, actor, target, d) && plan.target == target
    requires u.source.account in st.revisions && plan.revision == Some(st.revisions[u.source.account])
    ensures var f := Funded(d, u.reservationId);
            WritesApply(st, plan, f) && Linked(cfg, st, Written(st, plan, f), u, horizon, target)
  {
    hide ParseHorizon, ActorRow, IntentOk, Sized, IdOk, Portable, RowsValid, UniqueIdentities, Owned, HasRoom, TargetIs,
         IntentDigest, MakeDraft, Slot;
    AttachRows(cfg, st, u, horizon, actor, target, d);
    var f := Funded(d, u.reservationId);
    if target.Some? {
      var k := TargetSlot(st, u, target, f);
    } else {
      NoTarget(st, u.issuer, u.subject);
    }
  }

  lemma NoTarget(st: Store, issuer: Text, subject: Text)
    ensures TargetIs(st, ByIdentity(issuer, subject), None) ==>
              forall k | 0 <= k < |st.identities| :: !KeyedBy(st.identities[k], issuer, subject)
  {
  }

  lemma LinkIdRead(cfg: Config, st: Store, linkId: Text)
    requires RowsValid(cfg, st)
    ensures StoredLink(cfg, st, linkId).Ok?
    ensures (forall k | 0 <= k < |st.identities| :: st.identities[k].linkId != linkId) ==>
              StoredLink(cfg, st, linkId) == Ok(None)
  {
    hide IdentityRowOk, CommandRowOk, ConsentRowOk;
  }

  lemma AttachLinkId(cfg: Config, st: Store, u: Attach, horizon: Horizon, actor: Actor, target: Option<IdentityRow>,
                     d: Draft)
    requires Attaches(cfg, st, u, horizon, actor, target, d)
    ensures StoredLink(cfg, st, d.identity.linkId).Ok?
    ensures StoredLink(cfg, st, d.identity.linkId).value.Some? ==> target.Some?
  {
    AttachRows(cfg, st, u, horizon, actor, target, d);
    hide ParseHorizon, ActorRow, IntentOk, Sized, IdOk, Portable, RowsValid, UniqueIdentities, Owned, HasRoom, TargetIs,
         IntentDigest, MakeDraft, StoredLink;
    LinkIdRead(cfg, st, d.identity.linkId);
  }

  lemma SettledEnd(cfg: Config, s: State, t: State, op: nat, h: nat, horizon: Horizon, i: Intent, plan: Plan, f: Draft,
                   now: nat)
    requires At(s, t, op, h, horizon, Checked(i, plan, f, None), now)
    requires CommitBody(cfg, s.store, false, None, i, plan, f)
             == Ok(Commit(Written(s.store, plan, f), f.receipt.result))
    ensures var u := Apply(cfg, Apply(cfg, t, RunCommit(op, Committed)), FinishHold(op, true));
            && u.store == Written(s.store, plan, f)
            && u.calls == s.calls + [Settle(f.receipt.reservationId, horizon.commandId)]
            && op in u.ops && u.ops[op].phase == Ended(Ok(Some(f.receipt.result)), SettledHold(f.receipt.reservationId))
  {
    hide CommitBody, Written;
  }

  /**
   An undisturbed link commits: it opens the row of the proved identity for the account, or opens its closed link
   again, adds the records of the command and nothing else, settles its reservation and tells its caller.
   */
  lemma LinkCommits(cfg: Config, s: State, op: nat, h: nat, u: Attach, horizon: Horizon, actor: Actor,
                    target: Option<IdentityRow>, d: Draft)
    requires Attaches(cfg, s.store, u, horizon, actor, target, d) && op !in s.ops && h !in s.handles
    ensures var t := Run(cfg, s, Attachment(op, h, u) + [RunCommit(op, Committed), FinishHold(op, true)]);
            && Linked(cfg, s.store, t.store, u, horizon, target)
            && t.calls == s.calls + [Settle(u.reservationId, horizon.commandId)]
            && op in t.ops && t.ops[op].phase == Ended(Ok(Some(d.receipt.result)), SettledHold(u.reservationId))
  {
    hide *;
    var f, i := Funded(d, u.reservationId), Attaching(u, horizon, actor);
    var plan := AttachPrepares(cfg, s, op, h, u, horizon, actor, target, d);
    AttachWrites(cfg, s.store, u, horizon, actor, target, d, plan);
    AttachLinkId(cfg, s.store, u, horizon, actor, target, d);
    FundedFields(d, u.reservationId);
    StandingCommit(cfg, s.store, i, plan, f);
    var t := Run(cfg, s, Attachment(op, h, u));
    SettledEnd(cfg, s, t, op, h, horizon, i, plan, f, u.now);
    RunAll(cfg, s, Attachment(op, h, u), [RunCommit(op, Committed), FinishHold(op, true)]);
    RunTwo(cfg, t, RunCommit(op, Committed), FinishHold(op, true));
  }

  lemma FundedFields(d: Draft, id: Text)
    ensures Funded(d, id).identity == d.identity && Funded(d, id).receipt.result == d.receipt.result
    ensures Funded(d, id).receipt.reservationId == id
  {
  }

  /*** The unlink commits ***/

  // The rows an unlink leaves: its row closed, one generation on, and the records of the command.
  ghost predicate Unlinked(cfg: Config, s: Store, t: Store, u: Detach, horizon: Horizon, row: IdentityRow) {
    var closed, n := row.(active := false, generation := row.generation + 1, unlinkedAt := Some(u.now)), |s.commands|;
    && (exists k: nat | k < |s.identities| :: s.identities[k] == row && t.identities == s.identities[k := closed])
    && row.account in s.revisions
    && var revision := s.revisions[row.account] + 1;
    && t.revisions == s.revisions[row.account := revision]
    && |t.commands| == n + 1 && t.commands[..n] == s.commands
    && t.commands[n].commandId == horizon.commandId && t.commands[n].reservationId == u.reservationId
    && t.commands[n].result == CommandResult(Unlink, row.account, row.linkId, revision, false)
    && t.consents == s.consents + [ConsentRow(cfg.namespace, u.consentId, horizon.commandId, horizon.deadline)]
    && t.events == s.events + [EventRow(u.eventId, cfg.namespace, Unlink, row.account, row.linkId, row.provider,
                                        revision, u.now, horizon.commandId, true)]
  }

  lemma DetachFacts(cfg: Config, st: Store, u: Detach, horizon: Horizon, actor: Actor, row: IdentityRow, plan: Plan,
                    d: Draft)
    requires Detaches(cfg, st, u, horizon, actor, row, plan, d)
    requires RowsValid(cfg, st) && UniqueIdentities(st.identities)
    requires |Owned(st.identities, u.source.account)| <= cfg.maxLinksPerAccount
    ensures row in st.identities && row.linkId == u.linkId && row.account == u.source.account
    ensures plan.target == Some(row)
    ensures row.account in st.revisions && plan.revision == Some(st.revisions[row.account])
    ensures forall k | 0 <= k < |st.commands| :: st.commands[k].commandId != horizon.commandId
    ensures forall k | 0 <= k < |st.consents| :: st.consents[k].consentId != u.consentId
  {
    hide ParseHorizon, ActorRow, IntentOk, Preflight, MakeDraft, Sized, IdOk, Portable, UsableLeft, RowsValid,
         UniqueIdentities, MayAct, HasRoom, TargetIs, StoredLink, Owned, TargetAllowed, Admits, StoredRevision, Links;
    var i := Detaching(u, horizon, actor, row);
    PreflightAdmitsIff(cfg, st, i);
    PreflightFacts(cfg, st, i);
    RevisionRead(cfg, st, row.account);
    ActorRevision(cfg, st, u.source);
    LinkIs(cfg, st, u.linkId);
  }

  lemma LinkIs(cfg: Config, st: Store, linkId: Text)
    requires StoredLink(cfg, st, linkId).Ok? && StoredLink(cfg, st, linkId).value.Some?
    ensures var r := StoredLink(cfg, st, linkId).value.value; r in st.identities && r.linkId == linkId
  {
    hide IdentityRowOk;
  }

  lemma DetachDraft(cfg: Config, i: Intent, plan: Plan, at: nat, drawn: Text, eventId: Text, row: IdentityRow, n: nat)
    requires MakeDraft(cfg, i, plan, at, drawn, eventId).Ok? && i.action == Unlink
    requires plan.target == Some(row) && plan.revision == Some(n)
    ensures var d := MakeDraft(cfg, i, plan, at, drawn, eventId).value;
            && d.identity == row.(active := false, generation := row.generation + 1, unlinkedAt := Some(at))
            && d.revision == n + 1 && d.receipt.account == i.account && d.receipt.commandId == i.horizon.commandId
            && d.receipt.result == CommandResult(Unlink, i.account, row.linkId, n + 1, false)
            && d.consent == ConsentRow(cfg.namespace, i.consentId, i.horizon.commandId, i.horizon.deadline)
            && d.event == EventRow(eventId, cfg.namespace, Unlink, i.account, row.linkId, i.provider, n + 1, at,
                                   i.horizon.commandId, true)
  {
    hide IntentDigest;
  }

  lemma RowSlot(st: Store, row: IdentityRow, d: Draft) returns (k: nat)
    requires UniqueIdentities(st.identities) && row in st.identities
    requires d.identity.issuer == row.issuer && d.identity.subject == row.subject
    ensures k < |st.identities| && st.identities[k] == row && Slot(st, d) == Some(k)
  {
    k :| 0 <= k < |st.identities| && st.identities[k] == row;
    assert KeyedBy(st.identities[k], d.identity.issuer, d.identity.subject);
  }

  lemma DetachWrites(cfg: Config, st: Store, u: Detach, horizon: Horizon, actor: Actor, row: IdentityRow, plan: Plan,
                     d: Draft)
    requires Detaches(cfg, st, u, horizon, actor, row, plan, d)
    requires RowsValid(cfg, st) && UniqueIdentities(st.identities)
    requires |Owned(st.identities, u.source.account)| <= cfg.maxLinksPerAccount
    requires forall k | 0 <= k < |st.events| :: st.events[k].eventId != u.eventId
    ensures var f := Funded(d, u.reservationId);
            && WritesApply(st, plan, f) && Unlinked(cfg, st, Written(st, plan, f), u, horizon, row)
            && StoredLink(cfg, st, f.identity.linkId) == Ok(Some(row)) && plan.target.Some?
  {
    hide *;
    var i, f := Detaching(u, horizon, actor, row), Funded(d, u.reservationId);
    DetachFacts(cfg, st, u, horizon, actor, row, plan, d);
    DetachMade(cfg, st, u, horizon, actor, row, plan, d);
    DetachingIs(u, horizon, actor, row);
    DetachDraft(cfg, i, plan, u.now, u.linkId, u.eventId, row, st.revisions[row.account]);
    FundedRows(d, u.reservationId);
    var k := RowSlot(st, row, f);
    RowsUnlinked(cfg, st, u, horizon, row, plan, f, k);
  }

  lemma DetachingIs(u: Detach, horizon: Horizon, actor: Actor, row: IdentityRow)
    ensures var i := Detaching(u, horizon, actor, row);
            && i.action == Unlink && i.account == u.source.account && i.horizon == horizon
            && i.consentId == u.consentId && i.provider == row.provider
  {
  }

  lemma DetachMade(cfg: Config, st: Store, u: Detach, horizon: Horizon, actor: Actor, row: IdentityRow, plan: Plan,
                   d: Draft)
    requires Detaches(cfg, st, u, horizon, actor, row, plan, d)
    ensures MakeDraft(cfg, Detaching(u, horizon, actor, row), plan, u.now, u.linkId, u.eventId) == Ok(d)
    ensures StoredLink(cfg, st, u.linkId) == Ok(Some(row))
  {
    hide ParseHorizon, ActorRow, StoredLink, IntentOk, Preflight, MakeDraft, Sized, IdOk, Portable, UsableLeft;
  }

  lemma FundedRows(d: Draft, id: Text)
    ensures var f := Funded(d, id);
            && f.identity == d.identity && f.revision == d.revision && f.consent == d.consent && f.event == d.event
            && f.receipt == d.receipt.(reservationId := id)
  {
  }

  lemma RowsUnlinked(cfg: Config, st: Store, u: Detach, horizon: Horizon, row: IdentityRow, plan: Plan, f: Draft,
                     k: nat)
    requires k < |st.identities| && st.identities[k] == row && Slot(st, f) == Some(k)
    requires plan.target == Some(row) && row.account in st.revisions
    requires plan.revision == Some(st.revisions[row.account])
    requires forall j | 0 <= j < |st.commands| :: st.commands[j].commandId != horizon.commandId
    requires forall j | 0 <= j < |st.consents| :: st.consents[j].consentId != u.consentId
    requires forall j | 0 <= j < |st.events| :: st.events[j].eventId != u.eventId
    requires var revision := st.revisions[row.account] + 1;
             && f.identity == row.(active := false, generation := row.generation + 1, unlinkedAt := Some(u.now))
             && f.revision == revision && f.receipt.account == row.account
             && f.receipt.commandId == horizon.commandId && f.receipt.reservationId == u.reservationId
             && f.receipt.result == CommandResult(Unlink, row.account, row.linkId, revision, false)
             && f.consent == ConsentRow(cfg.namespace, u.consentId, horizon.commandId, horizon.deadline)
             && f.event == EventRow(u.eventId, cfg.namespace, Unlink, row.account, row.linkId, row.provider, revision,
                                    u.now, horizon.commandId, true)
    ensures WritesApply(st, plan, f) && Unlinked(cfg, st, Written(st, plan, f), u, horizon, row)
  {
    hide Slot;
  }

  /**
   An undisturbed unlink commits: it closes the link at the time of the handle, adds the records of the command and
   nothing else, settles its reservation and tells its caller.
   */
  lemma UnlinkCommits(cfg: Config, s: State, op: nat, h: nat, u: Detach, horizon: Horizon, actor: Actor,
                      row: IdentityRow, plan: Plan, d: Draft)
    requires Detaches(cfg, s.store, u, horizon, actor, row, plan, d) && op !in s.ops && h !in s.handles
    requires RowsValid(cfg, s.store) && UniqueIdentities(s.store.identities)
    requires |Owned(s.store.identities, u.source.account)| <= cfg.maxLinksPerAccount
    requires forall k | 0 <= k < |s.store.events| :: s.store.events[k].eventId != u.eventId
    ensures var t := Run(cfg, s, Detachment(op, h, u) + [RunCommit(op, Committed), FinishHold(op, true)]);
            && Unlinked(cfg, s.store, t.store, u, horizon, row)
            && t.calls == s.calls + [Settle(u.reservationId, horizon.commandId)]
            && op in t.ops && t.ops[op].phase == Ended(Ok(Some(d.receipt.result)), SettledHold(u.reservationId))
  {
    hide *;
    var f, i := Funded(d, u.reservationId), Detaching(u, horizon, actor, row);
    DetachPrepares(cfg, s, op, h, u, horizon, actor, row, plan, d);
    DetachPreflight(cfg, s.store, u, horizon, actor, row, plan, d);
    DetachWrites(cfg, s.store, u, horizon, actor, row, plan, d);
    FundedFields(d, u.reservationId);
    StandingCommit(cfg, s.store, i, plan, f);
    var t := Run(cfg, s, Detachment(op, h, u));
    SettledEnd(cfg, s, t, op, h, horizon, i, plan, f, u.now);
    RunAll(cfg, s, Detachment(op, h, u), [RunCommit(op, Committed), FinishHold(op, true)]);
    RunTwo(cfg, t, RunCommit(op, Committed), FinishHold(op, true));
  }

  lemma DetachPreflight(cfg: Config, st: Store, u: Detach, horizon: Horizon, actor: Actor, row: IdentityRow,
                        plan: Plan, d: Draft)
    requires Detaches(cfg, st, u, horizon, actor, row, plan, d)
    ensures Preflight(cfg, st, Detaching(u, horizon, actor, row)) == Ok(plan) && plan.receipt.None?
  {
    hide ParseHorizon, ActorRow, StoredLink, IntentOk, Preflight, MakeDraft, Sized, IdOk, Portable, UsableLeft;
  }
}
