/** What a repeated command and a reconciliation are told. */
module DirectoryReplays {
  import opened Common
  import opened CanonicalText
  import opened DirectoryRows
  import opened DirectoryTransactions
  import opened DirectoryStoreLaws
  import opened DirectoryProtocol
  import opened DirectoryInvariants
  import opened DirectoryTheorems
  import opened DirectoryReadability

  /*** Only the same command is replayed ***/

  predicate SameCommand(i: Intent, j: Intent) {
    && i.account == j.account && i.action == j.action && i.provider == j.provider
    && i.target == j.target && i.consentId == j.consentId
  }

  lemma ReplayedMove(cfg: Config, s: State, q: nat, outcome: Outcome)
    requires Inv(cfg, s) && q in s.ops && s.ops[q].phase.Deciding?
    ensures var t := Apply(cfg, s, RunPreflight(q, outcome));
            q in t.ops && t.ops[q].phase.Replaying? ==>
              var r, i := t.ops[q].phase.receipt, s.ops[q].phase.intent;
              && r in s.store.commands && r.commandId == i.horizon.commandId && ReceiptMatches(cfg, r, i)
  {
    hide Inv, Preflight, ReceiptMatches;
    var i := s.ops[q].phase.intent;
    if Preflight(cfg, s.store, i).Ok? && Preflight(cfg, s.store, i).value.receipt.Some? {
      ReceiptFound(cfg, s.store, i);
    }
  }

  lemma OneReceipt(cfg: Config, st: Store, n: nat, r: CommandRow, i: Intent, j: Intent)
    requires UniqueKeys(st) && n < |st.commands| && st.commands[n].commandId == j.horizon.commandId
    requires ReceiptMatches(cfg, st.commands[n], j)
    requires r in st.commands && r.commandId == i.horizon.commandId == j.horizon.commandId && ReceiptMatches(cfg, r, i)
    ensures SameCommand(i, j) && r == st.commands[n]
  {
    hide IntentDigest;
    var k :| 0 <= k < |st.commands| && st.commands[k] == r;
    assert k == n;
    DigestDecidesIntent(cfg, i, j);
  }

  lemma ReceiptOf(cfg: Config, s: Store, t: Store, i: Intent, reservationId: Text, linkId: Text)
    requires RecordsFulfil(cfg, s, t, i, reservationId, linkId)
    ensures |s.commands| < |t.commands| && t.commands[|s.commands|].commandId == i.horizon.commandId
    ensures ReceiptMatches(cfg, t.commands[|s.commands|], i)
  {
    hide ReceiptMatches;
  }

  lemma WrittenReceipt(cfg: Config, s: State, p: nat, outcome: Outcome)
    requires Inv(cfg, s) && p in s.ops && s.ops[p].phase.Checked? && CommitStep(cfg, s, p, outcome).store != s.store
    ensures var t, j := CommitStep(cfg, s, p, outcome).store, s.ops[p].phase.intent;
            && |s.store.commands| < |t.commands| && t.commands[|s.store.commands|].commandId == j.horizon.commandId
            && ReceiptMatches(cfg, t.commands[|s.store.commands|], j)
  {
    hide *;
    var k := WrittenIntent(cfg, s, p, outcome);
    RowBound(s.store, CommitStep(cfg, s, p, outcome).store, s.ops[p].phase.intent, k);
    ReceiptOf(cfg, s.store, CommitStep(cfg, s, p, outcome).store, s.ops[p].phase.intent,
              s.ops[p].phase.draft.receipt.reservationId, CommitStep(cfg, s, p, outcome).store.identities[k].linkId);
  }

  lemma RowBound(s: Store, t: Store, i: Intent, k: nat)
    requires RowFulfils(s, t, i, k)
    ensures k < |t.identities|
  {
  }

  lemma CommandsGrow(s: State, t: State)
    requires Extends(s, t)
    ensures s.store.commands <= t.store.commands
  {
    hide RowGrows, EventGrows;
  }

  /**
   After a command has been committed, another command with its id is answered from its receipt only if it asks for
   the same action on the same target, for the same account and provider and with the same consent.
   */
  lemma OnlyTheSameIsReplayed(cfg: Config, before: seq<Step>, p: nat, outcome: Outcome, between: seq<Step>, q: nat,
                              again: Outcome)
    requires var s := Run(cfg, INITIAL, before);
             && p in s.ops && s.ops[p].phase.Checked? && CommitStep(cfg, s, p, outcome).store != s.store
    requires var s := Run(cfg, INITIAL, before);
             var u := Run(cfg, CommitStep(cfg, s, p, outcome), between);
             && q in u.ops && u.ops[q].phase.Deciding?
             && u.ops[q].phase.intent.horizon.commandId == s.ops[p].phase.intent.horizon.commandId
    ensures var s := Run(cfg, INITIAL, before);
            var u := Run(cfg, CommitStep(cfg, s, p, outcome), between);
            var v := Apply(cfg, u, RunPreflight(q, again));
            q in v.ops && v.ops[q].phase.Replaying? ==>
              && SameCommand(u.ops[q].phase.intent, s.ops[p].phase.intent)
              && |s.store.commands| < |u.store.commands|
              && v.ops[q].phase.receipt == u.store.commands[|s.store.commands|]
  {
    hide *;
    var s := Run(cfg, INITIAL, before);
    var t := CommitStep(cfg, s, p, outcome);
    var u := Run(cfg, t, between);
    Reachable(cfg, before);
    CommitKeeps(cfg, s, p, outcome);
    RunKeeps(cfg, t, between);
    WrittenReceipt(cfg, s, p, outcome);
    CommandsGrow(t, u);
    var n := |s.store.commands|;
    assert u.store.commands[n] == t.store.commands[n];
    ReplayedMove(cfg, u, q, again);
    KeysOf(cfg, u);
    var v := Apply(cfg, u, RunPreflight(q, again));
    if q in v.ops && v.ops[q].phase.Replaying? {
      OneReceipt(cfg, u.store, n, v.ops[q].phase.receipt, u.ops[q].phase.intent, s.ops[p].phase.intent);
    }
  }

  /*** The answers of repeated and reconciling commands ***/

  // The receipt of a command id, if one is recorded.
  ghost predicate ReceiptIs(st: Store, commandId: Text, r: Option<CommandRow>) {
    if r.Some? then r.value in st.commands && r.value.commandId == commandId
    else forall k | 0 <= k < |st.commands| :: st.commands[k].commandId != commandId
  }

  lemma CommandRead(cfg: Config, st: Store, commandId: Text, r: Option<CommandRow>)
    requires RowsFormed(cfg, st) && UniqueKeys(st) && ReceiptIs(st, commandId, r)
    ensures StoredCommand(cfg, st, commandId) == Ok(r)
  {
    hide IdentityRowOk, CommandRowOk, ConsentRowOk, EventFits, RevisionReadable, InOrder;
    var found := Row(st.commands, (x: CommandRow) => x.commandId == commandId);
    if r.Some? {
      var k :| 0 <= k < |st.commands| && st.commands[k] == r.value;
      assert found.Some?;
      var j :| 0 <= j < |st.commands| && st.commands[j] == found.value;
      assert j == k;
    }
  }

  lemma Formed(cfg: Config, steps: seq<Step>)
    ensures RowsFormed(cfg, Run(cfg, INITIAL, steps).store) && UniqueKeys(Run(cfg, INITIAL, steps).store)
  {
    hide *;
    Reachable(cfg, steps);
    KeysOf(cfg, Run(cfg, INITIAL, steps));
    RowsReadableIff(cfg, steps);
  }

  // An operation of a handle, running, in some phase with a horizon.
  predicate Stands(s: State, q: nat, p: Phase, horizon: Horizon) {
    q in s.ops && s.ops[q].phase == p && s.ops[q].horizon == Some(horizon)
  }

  predicate EndsWith(s: State, q: nat, outcome: Result<Option<CommandResult>, Code>) {
    q in s.ops && s.ops[q].phase.Ended? && s.ops[q].phase.outcome == outcome
  }

  // A command that replays a receipt ends with its result when the settlement is acknowledged.
  lemma ReplayFinishes(cfg: Config, s: State, q: nat, r: CommandRow, horizon: Horizon)
    requires Stands(s, q, Replaying(r), horizon)
    ensures EndsWith(Apply(cfg, s, FinishHold(q, true)), q, Ok(Some(r.result.(replay := true))))
  {
  }

  // The receipt a reconciliation may report: of its account and deadline, and of the approved command.
  predicate Reported(cfg: Config, r: CommandRow, account: Text, deadline: nat, approved: Option<Intent>) {
    && r.account == account && r.expiresAt == deadline
    && (approved.Some? ==>
          r.account == approved.value.account && r.action == approved.value.action
          && r.digest == IntentDigest(cfg, approved.value) && r.expiresAt == approved.value.horizon.deadline)
  }

  lemma LookUpBodyIs(cfg: Config, st: Store, horizon: Horizon, account: Text, approved: Option<Intent>,
                     r: Option<CommandRow>)
    requires StoredCommand(cfg, st, horizon.commandId) == Ok(r)
    ensures LookUpBody(cfg, st, horizon, account, approved)
            == if r.Some? && !Reported(cfg, r.value, account, horizon.deadline, approved) then Err(CommandConflict)
               else Ok(r)
  {
    hide StoredCommand, IntentDigest;
  }

  lemma LookUpMoves(cfg: Config, s: State, q: nat, account: Text, approved: Option<Intent>, horizon: Horizon,
                    outcome: Outcome)
    requires Stands(s, q, Looking(account, approved), horizon)
    ensures var body := LookUpBody(cfg, s.store, horizon, account, approved);
            var t := Apply(cfg, s, RunLookUp(q, outcome));
            && (outcome == Committed && body == Ok(None) ==> EndsWith(t, q, Ok(None)))
            && (outcome == Committed && body.Ok? && body.value.Some? ==>
                  Stands(t, q, Replaying(body.value.value), horizon))
            && (outcome == ConfirmedAbort && body.Err? ==> EndsWith(t, q, Err(body.error)))
  {
    hide LookUpBody;
  }

  // What a reconciliation is told, once it looks for its command.
  ghost predicate Told(cfg: Config, s: State, q: nat, account: Text, approved: Option<Intent>, deadline: nat,
                       r: Option<CommandRow>)
  {
    var found := Apply(cfg, s, RunLookUp(q, Committed));
    if r.None? then EndsWith(found, q, Ok(None))
    else if Reported(cfg, r.value, account, deadline, approved)
    then EndsWith(Apply(cfg, found, FinishHold(q, true)), q, Ok(Some(r.value.result.(replay := true))))
    else EndsWith(Apply(cfg, s, RunLookUp(q, ConfirmedAbort)), q, Err(CommandConflict))
  }

  lemma LookUpTells(cfg: Config, s: State, q: nat, account: Text, approved: Option<Intent>, horizon: Horizon,
                    r: Option<CommandRow>)
    requires Stands(s, q, Looking(account, approved), horizon)
    requires StoredCommand(cfg, s.store, horizon.commandId) == Ok(r)
    ensures Told(cfg, s, q, account, approved, horizon.deadline, r)
  {
    hide StoredCommand, LookUpBody, Apply, Stands, EndsWith, Reported;
    LookUpBodyIs(cfg, s.store, horizon, account, approved, r);
    LookUpMoves(cfg, s, q, account, approved, horizon, Committed);
    LookUpMoves(cfg, s, q, account, approved, horizon, ConfirmedAbort);
    if r.Some? && Reported(cfg, r.value, account, horizon.deadline, approved) {
      ReplayFinishes(cfg, Apply(cfg, s, RunLookUp(q, Committed)), q, r.value, horizon);
    }
  }

  lemma SessionLooks(cfg: Config, s: State, q: nat, actor: Actor, horizon: Horizon, outcome: Outcome, a: Answer)
    requires Stands(s, q, Guarded(ToReconcileSession, actor), horizon) && !a.Refuse?
    ensures var t := Apply(cfg, s, ResolveIntent(q, outcome, a));
            Stands(t, q, Looking(actor.source.account, None), horizon) && t.store == s.store
  {
  }

  /**
   A reconciliation under a session is told the recorded result of its command, marked as a replay, if the receipt
   is of the session's account; it is refused if the receipt is of another one, and finds nothing if there is none.
   */
  lemma SessionReconciles(cfg: Config, steps: seq<Step>, q: nat, actor: Actor, horizon: Horizon, outcome: Outcome,
                          a: Answer, r: Option<CommandRow>)
    requires Stands(Run(cfg, INITIAL, steps), q, Guarded(ToReconcileSession, actor), horizon) && !a.Refuse?
    requires ReceiptIs(Run(cfg, INITIAL, steps).store, horizon.commandId, r)
    ensures Told(cfg, Apply(cfg, Run(cfg, INITIAL, steps), ResolveIntent(q, outcome, a)), q, actor.source.account, None,
                 horizon.deadline, r)
  {
    hide *;
    var s := Run(cfg, INITIAL, steps);
    Formed(cfg, steps);
    CommandRead(cfg, s.store, horizon.commandId, r);
    SessionLooks(cfg, s, q, actor, horizon, outcome, a);
    LookUpTells(cfg, Apply(cfg, s, ResolveIntent(q, outcome, a)), q, actor.source.account, None, horizon, r);
  }

  lemma ProvisionLooks(cfg: Config, s: State, q: nat, horizon: Horizon, a: Answer)
    requires Stands(s, q, Opening(ToReconcileProvision), horizon) && a.Approve?
    ensures var t := Apply(cfg, s, ReceiveAnswer(q, a));
            var i := Intent(Provision, horizon, a.account, a.consentId, ByIdentity(a.issuer, a.subject), a.provider,
                           None);
            Stands(t, q, Looking(a.account, Some(i)), horizon) && t.store == s.store
  {
  }

  /** A reconciliation of a provision is told its recorded result only for the very provision that was approved. */
  lemma ProvisionReconciles(cfg: Config, steps: seq<Step>, q: nat, horizon: Horizon, a: Answer, r: Option<CommandRow>)
    requires Stands(Run(cfg, INITIAL, steps), q, Opening(ToReconcileProvision), horizon) && a.Approve?
    requires ReceiptIs(Run(cfg, INITIAL, steps).store, horizon.commandId, r)
    ensures var i := Intent(Provision, horizon, a.account, a.consentId, ByIdentity(a.issuer, a.subject), a.provider,
                            None);
            Told(cfg, Apply(cfg, Run(cfg, INITIAL, steps), ReceiveAnswer(q, a)), q, a.account, Some(i),
                 horizon.deadline, r)
  {
    hide *;
    var s := Run(cfg, INITIAL, steps);
    var i := Intent(Provision, horizon, a.account, a.consentId, ByIdentity(a.issuer, a.subject), a.provider, None);
    Formed(cfg, steps);
    CommandRead(cfg, s.store, horizon.commandId, r);
    ProvisionLooks(cfg, s, q, horizon, a);
    LookUpTells(cfg, Apply(cfg, s, ReceiveAnswer(q, a)), q, a.account, Some(i), horizon, r);
  }

  lemma RetryMoves(cfg: Config, s: State, q: nat, i: Intent, outcome: Outcome)
    requires Stands(s, q, Deciding(i), i.horizon)
    ensures var body := Preflight(cfg, s.store, i);
            var t := Apply(cfg, s, RunPreflight(q, outcome));
            && (outcome == Committed && body.Ok? && body.value.receipt.Some? ==>
                  Stands(t, q, Replaying(body.value.receipt.value), i.horizon))
            && (outcome == ConfirmedAbort && body.Err? ==> EndsWith(t, q, Err(body.error)))
            && t.store == s.store
  {
    hide Preflight;
  }

  lemma RetryBody(cfg: Config, st: Store, i: Intent, r: CommandRow)
    requires StoredCommand(cfg, st, i.horizon.commandId) == Ok(Some(r))
    requires i.actor.Some? ==> ActorRow(cfg, st, i.actor.value.source).Ok?
    ensures var body := Preflight(cfg, st, i);
            if ReceiptMatches(cfg, r, i) then body.Ok? && body.value.receipt == Some(r)
            else body == Err(CommandConflict)
  {
    hide StoredCommand, ActorRow, ReceiptMatches, FindTarget, TargetAllowed, StoredRevision, ConsentFree, Admits, Links;
  }

  lemma RetryEnds(cfg: Config, s: State, q: nat, i: Intent, r: CommandRow)
    requires Stands(s, q, Deciding(i), i.horizon) && StoredCommand(cfg, s.store, i.horizon.commandId) == Ok(Some(r))
    requires i.actor.Some? ==> ActorRow(cfg, s.store, i.actor.value.source).Ok?
    ensures var found := Apply(cfg, s, RunPreflight(q, Committed));
            var refused := Apply(cfg, s, RunPreflight(q, ConfirmedAbort));
            && (ReceiptMatches(cfg, r, i) ==>
                  EndsWith(Apply(cfg, found, FinishHold(q, true)), q, Ok(Some(r.result.(replay := true)))))
            && (!ReceiptMatches(cfg, r, i) ==> EndsWith(refused, q, Err(CommandConflict)))
  {
    hide StoredCommand, ActorRow, ReceiptMatches, Apply, Stands, EndsWith, Preflight;
    RetryBody(cfg, s.store, i, r);
    RetryMoves(cfg, s, q, i, Committed);
    RetryMoves(cfg, s, q, i, ConfirmedAbort);
    if ReceiptMatches(cfg, r, i) {
      ReplayFinishes(cfg, Apply(cfg, s, RunPreflight(q, Committed)), q, r, i.horizon);
    }
  }

  /**
   A command whose id is recorded and whose session still holds is told the recorded result, marked as a replay, if
   it is the recorded one, and is refused otherwise.
   */
  lemma RetryAnswers(cfg: Config, steps: seq<Step>, q: nat, i: Intent, r: CommandRow)
    requires Stands(Run(cfg, INITIAL, steps), q, Deciding(i), i.horizon)
    requires ReceiptIs(Run(cfg, INITIAL, steps).store, i.horizon.commandId, Some(r))
    requires i.actor.Some? ==> ActorRow(cfg, Run(cfg, INITIAL, steps).store, i.actor.value.source).Ok?
    ensures var s := Run(cfg, INITIAL, steps);
            var found := Apply(cfg, s, RunPreflight(q, Committed));
            var refused := Apply(cfg, s, RunPreflight(q, ConfirmedAbort));
            var same := && r.account == i.account && r.action == i.action
                        && r.digest == IntentDigest(cfg, i) && r.expiresAt == i.horizon.deadline;
            && (same ==> EndsWith(Apply(cfg, found, FinishHold(q, true)), q, Ok(Some(r.result.(replay := true)))))
            && (!same ==> EndsWith(refused, q, Err(CommandConflict)))
  {
    hide Run, IntentDigest, Apply, RowsFormed, UniqueKeys, StoredCommand, ActorRow, Stands, EndsWith, ReceiptIs;
    Formed(cfg, steps);
    CommandRead(cfg, Run(cfg, INITIAL, steps).store, i.horizon.commandId, Some(r));
    RetryEnds(cfg, Run(cfg, INITIAL, steps), q, i, r);
  }
}
