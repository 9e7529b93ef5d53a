/** What holds after every schedule of the directory protocol, starting from an empty store. */
module DirectoryTheorems {
  import opened Common
  import opened CanonicalText
  import opened DirectoryRows
  import opened DirectoryTransactions
  import opened DirectoryStoreLaws
  import opened DirectoryProtocol
  import opened DirectoryInvariants
  import opened DirectoryReservations

  lemma Reachable(cfg: Config, steps: seq<Step>)
    ensures Inv(cfg, Run(cfg, INITIAL, steps))
  {
    hide *;
    InitialInv(cfg);
    RunKeeps(cfg, INITIAL, steps);
  }

  /** Whatever follows a reachable state extends it. */
  lemma Continued(cfg: Config, before: seq<Step>, after: seq<Step>)
    ensures var s := Run(cfg, INITIAL, before);
            Inv(cfg, s) && Inv(cfg, Run(cfg, s, after)) && Extends(s, Run(cfg, s, after))
  {
    hide *;
    Reachable(cfg, before);
    RunKeeps(cfg, Run(cfg, INITIAL, before), after);
  }

  lemma {:induction false} OneGenerations(rows: seq<IdentityRow>, account: Text, k: nat)
    requires Parity(rows) && k < |rows| && rows[k].account == account
    ensures GenerationSum(rows, account) >= 1
  {
    assert Parity(rows[1..]);
    if k > 0 {
      OneGenerations(rows[1..], account, k - 1);
    }
  }

  lemma MethodIffRevision(cfg: Config, st: Store, account: Text)
    requires StoreOk(cfg, st)
    ensures account in st.revisions <==> HasActive(st.identities, account)
    ensures account in st.revisions <==> exists i | 0 <= i < |st.identities| :: st.identities[i].account == account
  {
    if i :| 0 <= i < |st.identities| && st.identities[i].account == account {
      OneGenerations(st.identities, account, i);
      assert RevisionOf(st, account) == GenerationSum(st.identities, account);
    }
  }

  /**
   In every interleaving the accounts with a revision are exactly the accounts that own a row, and each of them
   has an active link.
   */
  lemma LastMethodAlways(cfg: Config, steps: seq<Step>, account: Text)
    ensures var st := Run(cfg, INITIAL, steps).store;
            && (account in st.revisions <==> HasActive(st.identities, account))
            && (account in st.revisions <==>
                  exists i | 0 <= i < |st.identities| :: st.identities[i].account == account)
  {
    hide Run, StoreOk, PhaseOk, CallOk;
    Reachable(cfg, steps);
    MethodIffRevision(cfg, Run(cfg, INITIAL, steps).store, account);
  }

  /**
   Conservation: an account's revision is its number of receipts and the sum of the generations of its rows, and
   the n-th receipt, consent and event belong together under unique identifiers.
   */
  lemma Conservation(cfg: Config, steps: seq<Step>, account: Text)
    ensures var st := Run(cfg, INITIAL, steps).store;
            && RevisionOf(st, account) == Receipts(st.commands, account) == GenerationSum(st.identities, account)
            && Corresponding(st) && UniqueKeys(st)
  {
    hide Run, Bounded, KeepsMethod, Parity, PhaseOk, CallOk;
    Reachable(cfg, steps);
  }

  /** The configured bounds hold in every reachable state. */
  lemma BoundsHold(cfg: Config, steps: seq<Step>, account: Text)
    ensures var st := Run(cfg, INITIAL, steps).store;
            && TotalRows(st) <= cfg.maxRows
            && |Owned(st.identities, account)| <= cfg.maxLinksPerAccount
            && Receipts(st.commands, account) <= cfg.maxReceiptsPerAccount
            && Pending(st.events) <= cfg.maxPendingEvents
  {
    hide Run, Counted, KeepsMethod, Parity, UniqueKeys, Corresponding, PhaseOk, CallOk;
    Reachable(cfg, steps);
  }

  /*** Exactly once ***/

  lemma SameCommandSameResult(st: Store, c: Text, x: CommandResult, y: CommandResult)
    requires UniqueKeys(st) && Resulted(st, c, x) && Resulted(st, c, y)
    ensures x.(replay := false) == y.(replay := false)
  {
    var i :| 0 <= i < |st.commands| && st.commands[i].commandId == c && st.commands[i].result == x.(replay := false);
    var j :| 0 <= j < |st.commands| && st.commands[j].commandId == c && st.commands[j].result == y.(replay := false);
    assert i == j;
  }

  predicate Succeeded(o: Op) {
    o.phase.Ended? && o.phase.outcome.Ok? && o.phase.outcome.value.Some?
  }

  lemma SuccessIsRecorded(cfg: Config, s: State, p: nat)
    requires Inv(cfg, s) && p in s.ops && Succeeded(s.ops[p])
    ensures s.ops[p].horizon.Some?
    ensures Resulted(s.store, s.ops[p].horizon.value.commandId, s.ops[p].phase.outcome.value.value)
  {
    hide StoreOk, CallOk, Resulted;
    PhaseOf(cfg, s, p);
  }

  /**
   All successes of one command, first answers, replays and reconciliations alike, report the one recorded
   result, and receipts and consents are only ever appended.
   */
  lemma ExactlyOnce(cfg: Config, before: seq<Step>, after: seq<Step>, p: nat, q: nat)
    ensures var s := Run(cfg, INITIAL, before);
            var t := Run(cfg, s, after);
            && s.store.commands <= t.store.commands && s.store.consents <= t.store.consents
            && UniqueKeys(t.store)
            && (p in s.ops && Succeeded(s.ops[p]) && q in t.ops && Succeeded(t.ops[q])
                && s.ops[p].horizon.Some? && s.ops[p].horizon == t.ops[q].horizon ==>
                  s.ops[p].phase.outcome.value.value.(replay := false)
                  == t.ops[q].phase.outcome.value.value.(replay := false))
  {
    hide Run, Inv, StoreOk, Resulted;
    var s := Run(cfg, INITIAL, before);
    var t := Run(cfg, s, after);
    Continued(cfg, before, after);
    KeysOf(cfg, t);
    if p in s.ops && Succeeded(s.ops[p]) && q in t.ops && Succeeded(t.ops[q])
       && s.ops[p].horizon.Some? && s.ops[p].horizon == t.ops[q].horizon
    {
      SuccessIsRecorded(cfg, s, p);
      SuccessIsRecorded(cfg, t, q);
      var c := s.ops[p].horizon.value.commandId;
      ResultedStays(s.store, t.store, c, s.ops[p].phase.outcome.value.value);
      SameCommandSameResult(t.store, c, s.ops[p].phase.outcome.value.value, t.ops[q].phase.outcome.value.value);
    }
  }

  lemma KeysOf(cfg: Config, s: State)
    requires Inv(cfg, s)
    ensures UniqueKeys(s.store) && Corresponding(s.store)
  {
    hide Bounded, Counted, KeepsMethod, Parity, PhaseOk, CallOk;
  }

  // The row a command adds to the receipts, with its writes.
  ghost predicate OneCommand(s: Store, t: Store) {
    && |t.commands| == |s.commands| + 1 && s.commands <= t.commands
    && |t.consents| == |s.consents| + 1 && s.consents <= t.consents
    && |t.events| == |s.events| + 1 && s.events <= t.events
    && (forall k | 0 <= k < |s.commands| :: s.commands[k].commandId != t.commands[|s.commands|].commandId)
    && RevisionOf(t, t.commands[|s.commands|].account) == RevisionOf(s, t.commands[|s.commands|].account) + 1
  }

  lemma BodyWrites(cfg: Config, s: State, op: nat)
    requires Inv(cfg, s) && op in s.ops && s.ops[op].phase.Checked? && BodyOf(cfg, s, s.ops[op]).Ok?
    ensures var c := BodyOf(cfg, s, s.ops[op]).value;
            if c.result.replay then c.store == s.store else OneCommand(s.store, c.store)
  {
    hide Inv, StoreOk, Grows, CommitBody, Commits, Prepared, ReceiptMatches, Written, OneCommand, Recorded, Resulted;
    var Checked(i, plan, d, failure) := s.ops[op].phase;
    var replay := CommitCases(cfg, s.store, HandleOf(s, s.ops[op].handle).fenced, failure, i, plan, d);
    if !replay {
      CheckedPhase(cfg, s, op);
      InvStore(cfg, s);
      WritingCommit(cfg, s.store, i, plan, d);
      WrittenOnce(cfg, s.store, i, plan, d);
    }
  }

  lemma WrittenOnce(cfg: Config, st: Store, i: Intent, plan: Plan, d: Draft)
    requires Commits(cfg, st, i, plan, d) && d.receipt.account == i.account
    requires RevisionOf(Written(st, plan, d), i.account) == RevisionOf(st, i.account) + 1
    ensures OneCommand(st, Written(st, plan, d))
  {
    hide TargetAllowed, FindTarget, Admits;
    assert Written(st, plan, d).commands[|st.commands|] == d.receipt;
  }

  /**
   The store changes only when a commit transaction writes one whole command, with a new command id and the next
   revision of its account, or when an event is acknowledged; a replay changes no row.
   */
  lemma OnlyCommitsWrite(cfg: Config, steps: seq<Step>, step: Step)
    ensures var s := Run(cfg, INITIAL, steps);
            var t := Apply(cfg, s, step);
            || t.store == s.store
            || (step.RunCommit? && OneCommand(s.store, t.store))
            || (step.AcknowledgeEvent? && t.store == Acknowledged(s.store, step.n))
  {
    hide Run, Inv, OneCommand, CommitBody, Local, Admission, Enter, Closing;
    Reachable(cfg, steps);
    var s := Run(cfg, INITIAL, steps);
    if step.RunCommit? && step.op in s.ops && s.ops[step.op].phase.Checked? && BodyOf(cfg, s, s.ops[step.op]).Ok? {
      BodyWrites(cfg, s, step.op);
    }
  }

  /*** What a command does ***/

  // The intent's own row: by its key with the intended provider, or by its link id.
  predicate Meant(r: IdentityRow, i: Intent) {
    && r.account == i.account
    && match i.target
       case ByIdentity(issuer, subject) => KeyedBy(r, issuer, subject) && r.provider == i.provider
       case ByLink(linkId) => r.linkId == linkId
  }

  // Row k is the intended one and has been opened, reopened or closed; no other row has changed.
  ghost predicate RowFulfils(s: Store, t: Store, i: Intent, k: nat) {
    && k < |t.identities| && Meant(t.identities[k], i)
    && (t.identities[k].active <==> i.action != Unlink)
    && (forall j | 0 <= j < |s.identities| && j != k :: j < |t.identities| && t.identities[j] == s.identities[j])
    && (if k < |s.identities|
        then
          && |t.identities| == |s.identities| && SameIdentity(s.identities[k], t.identities[k])
          && t.identities[k].generation == s.identities[k].generation + 1
          && (s.identities[k].active <==> i.action == Unlink)
        else
          |t.identities| == |s.identities| + 1 == k + 1 && t.identities[k].generation == 1)
  }

  // The receipt, the consent and the event of the command, all about row k.
  ghost predicate RecordsFulfil(cfg: Config, s: Store, t: Store, i: Intent, reservationId: Text, linkId: Text) {
    var n := |s.commands|;
    && |t.commands| == n + 1 && |t.consents| == |s.consents| + 1 && |t.events| == |s.events| + 1
    && t.commands[n].commandId == i.horizon.commandId && ReceiptMatches(cfg, t.commands[n], i)
    && t.commands[n].reservationId == reservationId
    && t.commands[n].result == CommandResult(i.action, i.account, linkId, RevisionOf(t, i.account), false)
    && t.consents[|s.consents|]
       == ConsentRow(cfg.namespace, i.consentId, i.horizon.commandId, i.horizon.deadline)
    && var e := t.events[|s.events|];
    && e.action == i.action && e.account == i.account && e.linkId == linkId && e.commandId == i.horizon.commandId
    && e.revision == RevisionOf(t, i.account) && e.eventId == t.commands[n].eventId && e.pending
  }

  lemma WrittenFulfils(cfg: Config, st: Store, i: Intent, plan: Plan, d: Draft) returns (k: nat)
    requires StoreOk(cfg, st) && Commits(cfg, st, i, plan, d) && Shape(cfg, i, plan, d) && IntentOk(cfg, i)
    ensures RowFulfils(st, Written(st, plan, d), i, k)
    ensures RecordsFulfil(cfg, st, Written(st, plan, d), i, d.receipt.reservationId,
                          Written(st, plan, d).identities[k].linkId)
  {
    UniqueOf(cfg, st);
    k := WrittenMoves(cfg, st, i, plan, d);
    if k > |st.identities| {
      k := |st.identities|;
    }
    WrittenRow(cfg, st, i, plan, d);
    MovedRow(cfg, st, Written(st, plan, d), i, plan, d, k);
  }

  lemma UniqueOf(cfg: Config, st: Store)
    requires StoreOk(cfg, st)
    ensures UniqueIdentities(st.identities)
  {
    hide Bounded, Counted, KeepsMethod, Corresponding, UniqueKeys;
  }

  lemma WrittenRow(cfg: Config, st: Store, i: Intent, plan: Plan, d: Draft)
    requires Commits(cfg, st, i, plan, d) && Shape(cfg, i, plan, d) && IntentOk(cfg, i)
    ensures Meant(d.identity, i)
    ensures i.action == Unlink <==> !d.identity.active
  {
    hide WritesApply, Admits, IntentDigest;
  }

  lemma MovedRow(cfg: Config, st: Store, t: Store, i: Intent, plan: Plan, d: Draft, k: nat)
    requires Moved(st, t, d, i.account, k) && Shape(cfg, i, plan, d) && Meant(d.identity, i) && k <= |st.identities|
    requires i.action == Unlink <==> !d.identity.active
    requires d.revision == RevisionOf(t, i.account)
    ensures RowFulfils(st, t, i, k)
    ensures RecordsFulfil(cfg, st, t, i, d.receipt.reservationId, t.identities[k].linkId)
  {
    hide IntentDigest;
    assert t.identities[k] == d.identity;
  }

  lemma BodyFulfils(cfg: Config, s: State, op: nat) returns (k: nat)
    requires Inv(cfg, s) && op in s.ops && s.ops[op].phase.Checked? && BodyOf(cfg, s, s.ops[op]).Ok?
    requires !BodyOf(cfg, s, s.ops[op]).value.result.replay
    ensures var t, i := BodyOf(cfg, s, s.ops[op]).value.store, s.ops[op].phase.intent;
            && RowFulfils(s.store, t, i, k)
            && RecordsFulfil(cfg, s.store, t, i, s.ops[op].phase.draft.receipt.reservationId, t.identities[k].linkId)
  {
    hide Inv, StoreOk, CommitBody, Commits, Shape, RowFulfils, RecordsFulfil, OtherActive, TargetAllowed, PlanHolds,
         ReceiptMatches;
    var Checked(i, plan, d, failure) := s.ops[op].phase;
    var replay := CommitCases(cfg, s.store, HandleOf(s, s.ops[op].handle).fenced, failure, i, plan, d);
    CheckedPhase(cfg, s, op);
    InvStore(cfg, s);
    k := WrittenFulfils(cfg, s.store, i, plan, d);
    KeepsRows(s.store, BodyOf(cfg, s, s.ops[op]).value.store, i, k);
  }

  lemma KeepsRows(s: Store, t: Store, i: Intent, k: nat)
    requires RowFulfils(s, t, i, k)
    ensures k < |t.identities|
  {
  }

  /**
   A commit that changes the store does what its intent says: it opens, reopens or closes the intended row and no
   other, and records the receipt, the consumed consent and the event of that command.
   */
  lemma CommitFulfilsIntent(cfg: Config, steps: seq<Step>, op: nat, outcome: Outcome) returns (k: nat)
    requires var s := Run(cfg, INITIAL, steps);
             && op in s.ops && s.ops[op].phase.Checked? && CommitStep(cfg, s, op, outcome).store != s.store
    ensures var s := Run(cfg, INITIAL, steps);
            var t, i := CommitStep(cfg, s, op, outcome).store, s.ops[op].phase.intent;
            && RowFulfils(s.store, t, i, k)
            && RecordsFulfil(cfg, s.store, t, i, s.ops[op].phase.draft.receipt.reservationId, t.identities[k].linkId)
  {
    hide *;
    Reachable(cfg, steps);
    k := WrittenIntent(cfg, Run(cfg, INITIAL, steps), op, outcome);
  }

  lemma WrittenIntent(cfg: Config, s: State, op: nat, outcome: Outcome) returns (k: nat)
    requires Inv(cfg, s) && CommitStep(cfg, s, op, outcome).store != s.store
    requires op in s.ops && s.ops[op].phase.Checked?
    ensures var t, i := CommitStep(cfg, s, op, outcome).store, s.ops[op].phase.intent;
            && RowFulfils(s.store, t, i, k)
            && RecordsFulfil(cfg, s.store, t, i, s.ops[op].phase.draft.receipt.reservationId, t.identities[k].linkId)
  {
    hide Inv, CommitBody, RowFulfils, RecordsFulfil, OneCommand;
    BodyWrites(cfg, s, op);
    k := BodyFulfils(cfg, s, op);
  }

  /*** Stale bindings ***/

  lemma RowOfKey(st: Store, issuer: Text, subject: Text, k: nat)
    requires UniqueIdentities(st.identities) && k < |st.identities| && KeyedBy(st.identities[k], issuer, subject)
    ensures Row(st.identities, (r: IdentityRow) => KeyedBy(r, issuer, subject)) == Some(st.identities[k])
  {
    var found := Row(st.identities, (r: IdentityRow) => KeyedBy(r, issuer, subject));
    assert found.Some?;
    var j :| 0 <= j < |st.identities| && st.identities[j] == found.value;
    assert j == k;
  }

  // The row with which a binding must agree.
  predicate Agrees(cfg: Config, r: IdentityRow, b: Source) {
    && KeyedBy(r, b.issuer, b.subject) && IdentityRowOk(cfg, r)
    && r.active && r.account == b.account && r.provider == b.provider
    && r.linkId == b.linkId && r.generation == b.generation
  }

  /** A binding is current exactly when some stored row agrees with it and its account has a revision in range. */
  lemma BindingAcceptedIff(cfg: Config, steps: seq<Step>, b: Source)
    ensures var st := Run(cfg, INITIAL, steps).store;
            ActorRow(cfg, st, b).Ok?
            <==> && (exists k | 0 <= k < |st.identities| :: Agrees(cfg, st.identities[k], b))
                 && b.account in st.revisions && st.revisions[b.account] <= MAX_SAFE
  {
    hide Run, Inv, IdentityRowOk, Extends;
    Reachable(cfg, steps);
    var st := Run(cfg, INITIAL, steps).store;
    InvStore(cfg, Run(cfg, INITIAL, steps));
    BindingAccepted(cfg, st, b);
  }

  lemma BindingAccepted(cfg: Config, st: Store, b: Source)
    requires StoreOk(cfg, st)
    ensures ActorRow(cfg, st, b).Ok?
            <==> && (exists k | 0 <= k < |st.identities| :: Agrees(cfg, st.identities[k], b))
                 && b.account in st.revisions && st.revisions[b.account] <= MAX_SAFE
  {
    hide IdentityRowOk, Bounded, KeepsMethod, Corresponding, UniqueKeys, Parity;
    if k :| 0 <= k < |st.identities| && Agrees(cfg, st.identities[k], b) {
      RowOfKey(st, b.issuer, b.subject, k);
    }
    if ActorRow(cfg, st, b).Ok? {
      var r := ActorRow(cfg, st, b).value.row;
      assert r in st.identities;
      var k :| 0 <= k < |st.identities| && st.identities[k] == r;
      assert Agrees(cfg, st.identities[k], b);
    }
  }

  // The link the binding names has left the binding's generation behind, or never was that link.
  predicate Outdated(r: IdentityRow, b: Source) {
    KeyedBy(r, b.issuer, b.subject) &&
    (b.generation < r.generation || (b.generation == r.generation && !r.active)
     || r.linkId != b.linkId || r.account != b.account || r.provider != b.provider)
  }

  lemma OutdatedIsDenied(cfg: Config, st: Store, b: Source, k: nat)
    requires UniqueIdentities(st.identities) && k < |st.identities| && Outdated(st.identities[k], b)
    ensures ActorRow(cfg, st, b).Err?
  {
    RowOfKey(st, b.issuer, b.subject, k);
  }

  lemma OutdatedStays(a: IdentityRow, r: IdentityRow, b: Source)
    requires RowGrows(a, r) && Outdated(a, b)
    ensures Outdated(r, b)
  {
  }

  lemma OutdatedForever(cfg: Config, s: State, t: State, b: Source, k: nat)
    requires Inv(cfg, s) && Inv(cfg, t) && Extends(s, t)
    requires k < |s.store.identities| && Outdated(s.store.identities[k], b)
    ensures ActorRow(cfg, s.store, b).Err? && ActorRow(cfg, t.store, b).Err?
  {
    hide ActorRow, Outdated, Counted, KeepsMethod, Bounded, Corresponding, UniqueKeys, PhaseOk, CallOk, RowGrows;
    OutdatedIsDenied(cfg, s.store, b, k);
    assert RowGrows(s.store.identities[k], t.store.identities[k]);
    OutdatedStays(s.store.identities[k], t.store.identities[k], b);
    OutdatedIsDenied(cfg, t.store, b, k);
  }

  /** A binding to a generation of its link that is closed or left behind is denied now and in every later state. */
  lemma OutdatedBindingForever(cfg: Config, before: seq<Step>, after: seq<Step>, b: Source, k: nat)
    requires var s := Run(cfg, INITIAL, before);
             k < |s.store.identities| && Outdated(s.store.identities[k], b)
    ensures var s := Run(cfg, INITIAL, before);
            var t := Run(cfg, s, after);
            ActorRow(cfg, s.store, b).Err? && ActorRow(cfg, t.store, b).Err?
  {
    hide *;
    Continued(cfg, before, after);
    OutdatedForever(cfg, Run(cfg, INITIAL, before), Run(cfg, Run(cfg, INITIAL, before), after), b, k);
  }

  // The binding agrees with row k, and its account has a revision.
  predicate BoundAt(cfg: Config, st: Store, b: Source, k: nat) {
    k < |st.identities| && Agrees(cfg, st.identities[k], b) && b.account in st.revisions
  }

  lemma AcceptedAt(cfg: Config, st: Store, b: Source) returns (k: nat)
    requires StoreOk(cfg, st) && ActorRow(cfg, st, b).Ok?
    ensures BoundAt(cfg, st, b, k)
  {
    hide StoreOk, ActorRow, IdentityRowOk;
    BindingAccepted(cfg, st, b);
    k :| 0 <= k < |st.identities| && Agrees(cfg, st.identities[k], b);
  }

  // An accepted row that has changed carries a later generation.
  lemma AgreedRow(cfg: Config, a: IdentityRow, r: IdentityRow, b: Source)
    requires Agrees(cfg, a, b) && RowGrows(a, r) && a != r
    ensures Outdated(r, b)
  {
    hide IdentityRowOk;
  }

  lemma GrownRow(s: Store, t: Store, k: nat, account: Text)
    requires Grows(s, t) && k < |s.identities|
    ensures k < |t.identities| && RowGrows(s.identities[k], t.identities[k])
    ensures account in s.revisions ==> account in t.revisions && s.revisions[account] <= t.revisions[account]
  {
    hide RowGrows, EventGrows, Owned;
    assert RevisionOf(s, account) <= RevisionOf(t, account);
  }

  lemma InvRows(cfg: Config, s: State)
    requires Inv(cfg, s)
    ensures StoreOk(cfg, s.store) && UniqueIdentities(s.store.identities)
  {
    hide Counted, KeepsMethod, Bounded, Corresponding, UniqueKeys, Parity, PhaseOk, CallOk;
  }

  // Once accepted at row k, a binding is accepted as long as the row stands.
  lemma AcceptedWhile(cfg: Config, s: State, t: State, b: Source, k: nat)
    requires Inv(cfg, t) && Grows(s.store, t.store) && BoundAt(cfg, s.store, b, k)
    ensures k < |t.store.identities| && b.account in t.store.revisions
    ensures ActorRow(cfg, t.store, b).Ok?
            <==> t.store.identities[k] == s.store.identities[k] && t.store.revisions[b.account] <= MAX_SAFE
    ensures t.store.identities[k] != s.store.identities[k] ==> Outdated(t.store.identities[k], b)
  {
    hide Inv, StoreOk, Grows, ActorRow, Agrees, Outdated, RowGrows, UniqueIdentities;
    GrownRow(s.store, t.store, k, b.account);
    InvRows(cfg, t);
    BindingAccepted(cfg, t.store, b);
    if t.store.identities[k] != s.store.identities[k] {
      AgreedRow(cfg, s.store.identities[k], t.store.identities[k], b);
      OutdatedIsDenied(cfg, t.store, b, k);
    }
  }

  lemma DeniedStays(cfg: Config, s: State, t: State, u: State, b: Source, k: nat)
    requires Inv(cfg, t) && Inv(cfg, u) && Grows(s.store, t.store) && Grows(s.store, u.store) && Extends(t, u)
    requires BoundAt(cfg, s.store, b, k) && ActorRow(cfg, t.store, b).Err?
    ensures ActorRow(cfg, u.store, b).Err?
  {
    hide Inv, Grows, ActorRow, Agrees, Outdated;
    AcceptedWhile(cfg, s, t, b, k);
    AcceptedWhile(cfg, s, u, b, k);
    if t.store.identities[k] != s.store.identities[k] {
      OutdatedForever(cfg, t, u, b, k);
    } else {
      GrownRow(t.store, u.store, k, b.account);
    }
  }

  /**
   A session binding accepted in one state stays accepted exactly as long as its row is not written; once it is
   denied it is denied in every later state, also after the identity is linked again.
   */
  lemma StaleBindingForever(cfg: Config, before: seq<Step>, between: seq<Step>, after: seq<Step>, b: Source)
    returns (k: nat)
    requires ActorRow(cfg, Run(cfg, INITIAL, before).store, b).Ok?
    ensures var s := Run(cfg, INITIAL, before);
            var t := Run(cfg, s, between);
            var u := Run(cfg, t, after);
            && BoundAt(cfg, s.store, b, k) && k < |t.store.identities| && b.account in t.store.revisions
            && (ActorRow(cfg, t.store, b).Ok?
                <==> t.store.identities[k] == s.store.identities[k] && t.store.revisions[b.account] <= MAX_SAFE)
            && (ActorRow(cfg, t.store, b).Err? ==> ActorRow(cfg, u.store, b).Err?)
  {
    hide *;
    var s := Run(cfg, INITIAL, before);
    var t := Run(cfg, s, between);
    var u := Run(cfg, t, after);
    Continued(cfg, before, between);
    RunKeeps(cfg, t, after);
    ExtendsTransitive(s, t, u);
    ExtendsGrows(s, t);
    ExtendsGrows(s, u);
    InvRows(cfg, s);
    k := AcceptedAt(cfg, s.store, b);
    AcceptedWhile(cfg, s, t, b, k);
    if ActorRow(cfg, t.store, b).Err? {
      DeniedStays(cfg, s, t, u, b, k);
    }
  }

  lemma ExtendsGrows(s: State, t: State)
    requires Extends(s, t)
    ensures Grows(s.store, t.store)
  {
    hide Grows;
  }

  /** In every run an identity keeps its key, account, provider and link id, and its generation only grows. */
  lemma IdentitiesAreStable(cfg: Config, before: seq<Step>, after: seq<Step>, k: nat)
    requires k < |Run(cfg, INITIAL, before).store.identities|
    ensures var s := Run(cfg, INITIAL, before);
            var t := Run(cfg, s, after);
            && k < |t.store.identities|
            && var a, r := s.store.identities[k], t.store.identities[k];
            && SameIdentity(a, r) && 1 <= a.generation <= r.generation
            && (r.active <==> r.generation % 2 == 1)
            && (a.generation == r.generation ==> a == r)
  {
    hide Run, Counted, KeepsMethod, Bounded, Corresponding, UniqueKeys, PhaseOk, CallOk;
    Continued(cfg, before, after);
    var s := Run(cfg, INITIAL, before);
    var t := Run(cfg, s, after);
    assert RowGrows(s.store.identities[k], t.store.identities[k]);
  }

  /*** The fate of a reservation ***/

  lemma CallsOf(cfg: Config, s: State)
    requires Inv(cfg, s)
    ensures forall c | c in s.calls :: CallOk(s, c)
  {
    hide StoreOk, PhaseOk, CallOk;
  }

  lemma EndOf(cfg: Config, s: State, op: nat)
    requires Inv(cfg, s) && op in s.ops && s.ops[op].phase.Ended?
    ensures EndedOk(s, s.ops[op], s.ops[op].phase.outcome, s.ops[op].phase.hold)
  {
    hide StoreOk, CallOk, EndedOk;
    PhaseOf(cfg, s, op);
  }

  // An ended command that was granted id settled it, released it, or still holds it on a fenced handle.
  ghost predicate Fate(s: State, o: Op, id: Text)
    requires o.phase.Ended?
  {
    match o.phase.hold
    case NoHold => false
    case SettledHold(x) =>
      x == id && o.phase.outcome.Ok? && o.horizon.Some? && Settle(id, o.horizon.value.commandId) in s.calls
    case ReleasedHold(x) =>
      && x == id && o.phase.outcome.Err? && o.horizon.Some?
      && ReleaseConfirmedAbort(id, o.horizon.value.commandId) in s.calls
    case KeptHold(x) => x == id && o.phase.outcome == Err(CommitUnknown) && HandleOf(s, o.handle).fenced
  }

  lemma EndedFate(s: State, o: Op, id: Text)
    requires o.phase.Ended? && Holding(o.phase) == Some(id)
    requires EndedOk(s, o, o.phase.outcome, o.phase.hold)
    ensures Fate(s, o, id)
  {
    hide Resulted;
  }

  lemma HeldForever(cfg: Config, s: State, steps: seq<Step>, op: nat, id: Text)
    requires Inv(cfg, s) && op in s.ops && Holding(s.ops[op].phase) == Some(id)
    ensures var t := Run(cfg, s, steps);
            && op in t.ops && Holding(t.ops[op].phase) == Some(id)
            && (t.ops[op].phase.Ended? ==> Fate(t, t.ops[op], id))
  {
    hide Inv, Holding, Run, EndedOk, Fate, Extends;
    RunKeeps(cfg, s, steps);
    RunFollows(cfg, s, steps, op);
    var t := Run(cfg, s, steps);
    if t.ops[op].phase.Ended? {
      EndOf(cfg, t, op);
      EndedFate(t, t.ops[op], id);
    }
  }

  lemma CallJustified(cfg: Config, s: State, id: Text, commandId: Text)
    requires Inv(cfg, s)
    ensures Settle(id, commandId) in s.calls ==> Recorded(s.store, id, commandId)
    ensures ReleaseConfirmedAbort(id, commandId) in s.calls ==> (id, commandId) in s.aborts
  {
    hide Inv, Recorded;
    CallsOf(cfg, s);
    if Settle(id, commandId) in s.calls {
      assert CallOk(s, Settle(id, commandId));
    }
    if ReleaseConfirmedAbort(id, commandId) in s.calls {
      assert CallOk(s, ReleaseConfirmedAbort(id, commandId));
    }
  }

  /**
   Reservations are settled only for recorded receipts and released only after confirmed aborts. A granted
   reservation stays with its command through every later schedule: while the command runs it works with it, and
   when it has ended it has settled it, released it, or still holds it on a fenced handle, having told its caller
   that the outcome is unknown. The identifier was granted to such a command.
   */
  lemma ReservationFate(cfg: Config, before: seq<Step>, after: seq<Step>, id: Text, commandId: Text, op: nat)
    ensures var s := Run(cfg, INITIAL, before);
            var t := Run(cfg, s, after);
            && (Settle(id, commandId) in t.calls ==> Recorded(t.store, id, commandId))
            && (ReleaseConfirmedAbort(id, commandId) in t.calls ==> (id, commandId) in t.aborts)
            && (id in s.granted ==> s.granted[id] in s.ops && Holding(s.ops[s.granted[id]].phase) == Some(id))
            && (op in s.ops && Holding(s.ops[op].phase) == Some(id) ==>
                  && op in t.ops && Holding(t.ops[op].phase) == Some(id)
                  && (t.ops[op].phase.Ended? ==> Fate(t, t.ops[op], id)))
            && (op in t.ops && t.ops[op].phase.Ended? ==>
                  EndedOk(t, t.ops[op], t.ops[op].phase.outcome, t.ops[op].phase.hold))
  {
    hide Run, Inv, EndedOk, Recorded, Holding, Fate, Extends;
    Continued(cfg, before, after);
    var s := Run(cfg, INITIAL, before);
    var t := Run(cfg, s, after);
    CallJustified(cfg, t, id, commandId);
    RunGrants(cfg, INITIAL, before, id);
    if op in s.ops && Holding(s.ops[op].phase) == Some(id) {
      HeldForever(cfg, s, after, op, id);
    }
    if op in t.ops && t.ops[op].phase.Ended? {
      EndOf(cfg, t, op);
    }
  }

  /*** The recheck ***/

  /**
   The check after the reservation passes exactly when the handle is unfenced and its clock good, the command is
   within its window, the actor is still the same current one, no port objects and another usable link is left.
   */
  lemma RecheckPassesIff(cfg: Config, st: Store, h: Handle, i: Intent, plan: Plan, now: nat, usable: set<Text>,
                         denied: Option<Code>, again: Source, outcome: Outcome)
    ensures Rechecked(cfg, st, h, i, plan, now, usable, denied, again, outcome).1.None?
            <==> && !h.fenced && h.lastTime <= now <= MAX_SAFE
                 && ParseHorizon(i.horizon.commandId, now, cfg.replayWindow).Ok?
                 && (i.actor.Some? ==> outcome == Committed && ActorRow(cfg, st, again) == Ok(i.actor.value))
                 && denied.None? && MethodLeft(i, plan, usable)
  {
    hide ParseHorizon, ActorRow, MethodLeft;
  }

  lemma CheckedAgain(cfg: Config, s: State, op: nat, now: nat, usable: set<Text>, denied: Option<Code>, again: Source,
                     outcome: Outcome)
    requires op in s.ops && s.ops[op].phase.Reserved? && s.ops[op].horizon.Some?
    ensures var o := s.ops[op];
            var Reserved(i, plan, d) := o.phase;
            var t := Apply(cfg, s, CheckAgain(op, now, usable, denied, again, outcome));
            var r := Rechecked(cfg, s.store, HandleOf(s, o.handle), i, plan, now, usable, denied, again, outcome);
            op in t.ops && t.ops[op] == o.(phase := Checked(i, plan, d, r.1))
  {
    hide Rechecked;
  }

  lemma StoreChanged(cfg: Config, s: State, op: nat, outcome: Outcome)
    requires CommitStep(cfg, s, op, outcome).store != s.store
    ensures op in s.ops && s.ops[op].phase.Checked? && BodyOf(cfg, s, s.ops[op]).Ok?
    ensures CommitStep(cfg, s, op, outcome).store == BodyOf(cfg, s, s.ops[op]).value.store
  {
    hide BodyOf;
  }

  lemma PlannedLinks(cfg: Config, st: Store, i: Intent, plan: Plan, d: Draft)
    requires WritesApply(st, plan, d) && Prepared(cfg, st, i, plan, d)
    ensures i.action == Unlink ==> i.target.ByLink? && plan.links == Owned(st.identities, i.account)
  {
    hide TargetAllowed, OtherActive, IntentDigest;
  }

  // The commit that writes belongs to a passed check, and its plan saw the links the account owns.
  lemma WritingPlan(cfg: Config, s: State, op: nat, outcome: Outcome)
    requires Inv(cfg, s) && CommitStep(cfg, s, op, outcome).store != s.store
    ensures op in s.ops && s.ops[op].phase.Checked? && s.ops[op].phase.failure.None?
    ensures var Checked(i, plan, _, _) := s.ops[op].phase;
            i.action == Unlink ==> i.target.ByLink? && plan.links == Owned(s.store.identities, i.account)
  {
    hide Inv, CommitStep, CommitBody, Prepared, ReceiptMatches, WritesApply, TargetAllowed, FindTarget, Admits;
    StoreChanged(cfg, s, op, outcome);
    var Checked(i, plan, d, failure) := s.ops[op].phase;
    var replay := CommitCases(cfg, s.store, HandleOf(s, s.ops[op].handle).fenced, failure, i, plan, d);
    CheckedPhase(cfg, s, op);
    PlannedLinks(cfg, s.store, i, plan, d);
  }

  lemma UsableRow(rows: seq<IdentityRow>, account: Text, linkId: Text, usable: set<Text>) returns (j: nat)
    requires UsableLeft(Owned(rows, account), linkId, usable)
    ensures j < |rows| && rows[j].account == account && rows[j].active
    ensures rows[j].linkId != linkId && rows[j].linkId in usable
  {
    var links := Owned(rows, account);
    var n :| 0 <= n < |links| && links[n].linkId != linkId && links[n].active && links[n].linkId in usable;
    OwnedMembers(rows, account, links[n]);
    j :| 0 <= j < |rows| && rows[j] == links[n];
  }

  // The row at k is another one than the row j an unlink of linkId leaves alone.
  lemma OtherRowStays(s: Store, t: Store, i: Intent, k: nat, j: nat)
    requires RowFulfils(s, t, i, k) && i.target.ByLink?
    requires j < |s.identities| && s.identities[j].linkId != i.target.linkId
    ensures j < |t.identities| && t.identities[j] == s.identities[j]
  {
  }

  // What an unlink leaves to its account: another active link to one of the usable ones.
  ghost predicate LeavesUsable(st: Store, i: Intent, usable: set<Text>, j: nat) {
    && j < |st.identities| && i.target.ByLink?
    && st.identities[j].account == i.account && st.identities[j].active
    && st.identities[j].linkId != i.target.linkId && st.identities[j].linkId in usable
  }

  lemma UnlinkLeavesUsable(cfg: Config, t: State, op: nat, outcome: Outcome, usable: set<Text>) returns (j: nat)
    requires Inv(cfg, t) && CommitStep(cfg, t, op, outcome).store != t.store
    requires op in t.ops && t.ops[op].phase.Checked? && t.ops[op].phase.intent.action == Unlink
    requires MethodLeft(t.ops[op].phase.intent, t.ops[op].phase.plan, usable)
    ensures LeavesUsable(CommitStep(cfg, t, op, outcome).store, t.ops[op].phase.intent, usable, j)
  {
    hide Inv, BodyOf, RowFulfils, RecordsFulfil, OneCommand, UsableLeft;
    var i := t.ops[op].phase.intent;
    WritingPlan(cfg, t, op, outcome);
    j := UsableRow(t.store.identities, i.account, i.target.linkId, usable);
    var k := WrittenIntent(cfg, t, op, outcome);
    OtherRowStays(t.store, CommitStep(cfg, t, op, outcome).store, i, k, j);
  }

  /**
   A command writes only after its recheck passed, whatever happened in between: the handle was unfenced, the
   command in its window, the session still that of the same actor, and no port objected. The link an unlink
   counts on is still active in the store its commit leaves, under a link id that was usable at the recheck.
   */
  lemma WritesFollowRecheck(cfg: Config, before: seq<Step>, op: nat, now: nat, usable: set<Text>,
                            denied: Option<Code>, again: Source, outcome: Outcome, between: seq<Step>, last: Outcome)
    returns (j: nat)
    requires var s := Run(cfg, INITIAL, before);
             var t := Run(cfg, Apply(cfg, s, CheckAgain(op, now, usable, denied, again, outcome)), between);
             && op in s.ops && s.ops[op].phase.Reserved?
             && CommitStep(cfg, t, op, last).store != t.store
    ensures var s := Run(cfg, INITIAL, before);
            var t := Run(cfg, Apply(cfg, s, CheckAgain(op, now, usable, denied, again, outcome)), between);
            var i, h := s.ops[op].phase.intent, HandleOf(s, s.ops[op].handle);
            && !h.fenced && h.lastTime <= now <= MAX_SAFE && denied.None?
            && ParseHorizon(i.horizon.commandId, now, cfg.replayWindow).Ok?
            && (i.actor.Some? ==> ActorRow(cfg, s.store, again) == Ok(i.actor.value))
            && (i.action == Unlink ==> LeavesUsable(CommitStep(cfg, t, op, last).store, i, usable, j))
  {
    hide *;
    var s := Run(cfg, INITIAL, before);
    var step := CheckAgain(op, now, usable, denied, again, outcome);
    Reachable(cfg, before);
    StepKeeps(cfg, s, step);
    RunKeeps(cfg, Apply(cfg, s, step), between);
    j := RecheckedWrites(cfg, s, op, step, between, last);
  }

  lemma RecheckedWrites(cfg: Config, s: State, op: nat, step: Step, between: seq<Step>, last: Outcome)
    returns (j: nat)
    requires step.CheckAgain? && step.op == op && op in s.ops && s.ops[op].phase.Reserved?
    requires Inv(cfg, s) && Inv(cfg, Run(cfg, Apply(cfg, s, step), between))
    requires var t := Run(cfg, Apply(cfg, s, step), between); CommitStep(cfg, t, op, last).store != t.store
    ensures var t := Run(cfg, Apply(cfg, s, step), between);
            var i, h := s.ops[op].phase.intent, HandleOf(s, s.ops[op].handle);
            && !h.fenced && h.lastTime <= step.now <= MAX_SAFE && step.denied.None?
            && ParseHorizon(i.horizon.commandId, step.now, cfg.replayWindow).Ok?
            && (i.actor.Some? ==> ActorRow(cfg, s.store, step.again) == Ok(i.actor.value))
            && (i.action == Unlink ==> LeavesUsable(CommitStep(cfg, t, op, last).store, i, step.usable, j))
  {
    hide *;
    j := 0;
    var Reserved(i, plan, d) := s.ops[op].phase;
    var t1 := Apply(cfg, s, step);
    var t := Run(cfg, t1, between);
    ReservedHorizon(cfg, s, op);
    CheckedAgain(cfg, s, op, step.now, step.usable, step.denied, step.again, step.outcome);
    HoldingChecked(t1.ops[op]);
    RunFollows(cfg, t1, between, op);
    WritingPlan(cfg, t, op, last);
    StillChecked(t, op, t1.ops[op]);
    RecheckPassesIff(cfg, s.store, HandleOf(s, s.ops[op].handle), i, plan, step.now, step.usable, step.denied,
                     step.again, step.outcome);
    if i.action == Unlink {
      j := UnlinkLeavesUsable(cfg, t, op, last, step.usable);
    }
  }

  lemma ReservedHorizon(cfg: Config, s: State, op: nat)
    requires Inv(cfg, s) && op in s.ops && (s.ops[op].phase.Reserved? || s.ops[op].phase.Checked?)
    ensures s.ops[op].horizon.Some?
  {
    hide StoreOk, CallOk, Prepared;
    PhaseOf(cfg, s, op);
  }

  lemma StillChecked(t: State, op: nat, o: Op)
    requires Follows(t, op, o) && o.phase.Checked? && t.ops[op].phase.Checked?
    ensures t.ops[op] == o
  {
  }
}
