/** What every committed command keeps true of the directory store, and how the store may change. */
module DirectoryStoreLaws {
  import opened Common
  import opened CanonicalText
  import opened DirectoryRows
  import opened DirectoryTransactions

  /*** Counting ***/

  function Part(r: IdentityRow, account: Text): nat {
    if r.account == account then r.generation else 0
  }

  /** The sum of the generations of an account's rows. */
  function GenerationSum(rows: seq<IdentityRow>, account: Text): nat {
    if rows == [] then 0 else Part(rows[0], account) + GenerationSum(rows[1..], account)
  }

  function RevisionOf(st: Store, account: Text): nat {
    if account in st.revisions then st.revisions[account] else 0
  }

  lemma {:induction false} UpdateCounts(rows: seq<IdentityRow>, k: nat, row: IdentityRow, account: Text)
    requires k < |rows| && rows[k].account == row.account
    ensures GenerationSum(rows[k := row], account) + Part(rows[k], account)
            == GenerationSum(rows, account) + Part(row, account)
    ensures |Owned(rows[k := row], account)| == |Owned(rows, account)|
    ensures row.account != account ==> Owned(rows[k := row], account) == Owned(rows, account)
  {
    if k == 0 {
      assert rows[k := row][1..] == rows[1..];
    } else {
      assert rows[k := row][1..] == rows[1..][k - 1 := row];
      UpdateCounts(rows[1..], k - 1, row, account);
    }
  }

  lemma {:induction false} AppendSum(rows: seq<IdentityRow>, row: IdentityRow, account: Text)
    ensures GenerationSum(rows + [row], account) == GenerationSum(rows, account) + Part(row, account)
  {
    if rows == [] {
      assert rows + [row] == [row];
    } else {
      assert (rows + [row])[1..] == rows[1..] + [row];
      AppendSum(rows[1..], row, account);
    }
  }

  lemma {:induction false} AppendOwned(rows: seq<IdentityRow>, row: IdentityRow, account: Text)
    ensures Owned(rows + [row], account) == Owned(rows, account) + (if row.account == account then [row] else [])
  {
    hide Owned;
    var own := if row.account == account then [row] else [];
    OwnedStep(rows + [row], account);
    if rows == [] {
      assert rows + [row] == [row] && [row][1..] == [] && own + [] == own && [] + own == own;
      OwnedNone(account);
    } else {
      assert (rows + [row])[1..] == rows[1..] + [row];
      AppendOwned(rows[1..], row, account);
      OwnedStep(rows, account);
      var first := if rows[0].account == account then [rows[0]] else [];
      assert first + (Owned(rows[1..], account) + own) == (first + Owned(rows[1..], account)) + own;
    }
  }

  lemma OwnedNone(account: Text)
    ensures Owned([], account) == []
  {
  }

  lemma OwnedStep(rows: seq<IdentityRow>, account: Text)
    requires rows != []
    ensures Owned(rows, account) == (if rows[0].account == account then [rows[0]] else []) + Owned(rows[1..], account)
  {
  }

  lemma AppendCounts(rows: seq<IdentityRow>, row: IdentityRow, account: Text)
    ensures GenerationSum(rows + [row], account) == GenerationSum(rows, account) + Part(row, account)
    ensures Owned(rows + [row], account) == Owned(rows, account) + (if row.account == account then [row] else [])
  {
    AppendSum(rows, row, account);
    AppendOwned(rows, row, account);
  }

  lemma {:induction false} ReceiptsAppend(rows: seq<CommandRow>, row: CommandRow, account: Text)
    ensures Receipts(rows + [row], account) == Receipts(rows, account) + (if row.account == account then 1 else 0)
  {
    if rows == [] {
      assert rows + [row] == [row];
    } else {
      assert (rows + [row])[1..] == rows[1..] + [row];
      ReceiptsAppend(rows[1..], row, account);
    }
  }

  lemma {:induction false} PendingAppend(rows: seq<EventRow>, row: EventRow)
    ensures Pending(rows + [row]) == Pending(rows) + (if row.pending then 1 else 0)
  {
    if rows == [] {
      assert rows + [row] == [row];
    } else {
      assert (rows + [row])[1..] == rows[1..] + [row];
      PendingAppend(rows[1..], row);
    }
  }

  lemma {:induction false} PendingAcknowledge(rows: seq<EventRow>, k: nat)
    requires k < |rows|
    ensures Pending(rows[k := rows[k].(pending := false)]) == Pending(rows) - (if rows[k].pending then 1 else 0)
  {
    if k == 0 {
      assert rows[k := rows[k].(pending := false)][1..] == rows[1..];
    } else {
      assert rows[k := rows[k].(pending := false)][1..] == rows[1..][k - 1 := rows[1..][k - 1].(pending := false)];
      PendingAcknowledge(rows[1..], k - 1);
    }
  }

  lemma {:induction false} OwnedMembers(rows: seq<IdentityRow>, account: Text, r: IdentityRow)
    ensures r in Owned(rows, account) <==> r in rows && r.account == account
  {
    if rows != [] {
      OwnedMembers(rows[1..], account, r);
      assert rows == [rows[0]] + rows[1..];
    }
  }

  /*** Store invariants ***/

  ghost predicate UniqueIdentities(rows: seq<IdentityRow>) {
    forall i, j | 0 <= i < j < |rows| ::
      !KeyedBy(rows[i], rows[j].issuer, rows[j].subject) && rows[i].linkId != rows[j].linkId
  }

  // Active exactly at odd generations.
  ghost predicate Parity(rows: seq<IdentityRow>) {
    forall i | 0 <= i < |rows| :: 1 <= rows[i].generation && (rows[i].active <==> rows[i].generation % 2 == 1)
  }

  // A revision counts the receipts of the account and the generations of its rows.
  ghost predicate Counted(st: Store) {
    && (forall a | a in st.revisions :: 1 <= st.revisions[a])
    && (forall a: Text :: RevisionOf(st, a) == GenerationSum(st.identities, a))
    && (forall a: Text :: RevisionOf(st, a) == Receipts(st.commands, a))
  }

  ghost predicate HasActive(rows: seq<IdentityRow>, account: Text) {
    exists i | 0 <= i < |rows| :: rows[i].account == account && rows[i].active
  }

  ghost predicate KeepsMethod(st: Store) {
    forall a | a in st.revisions :: HasActive(st.identities, a)
  }

  predicate Corresponds(c: CommandRow, k: ConsentRow, e: EventRow) {
    && c.commandId == k.commandId == e.commandId && c.eventId == e.eventId
    && c.expiresAt == k.expiresAt && c.account == e.account && c.action == e.action
    && c.result.linkId == e.linkId && c.result.revision == e.revision
  }

  // The n-th receipt, the n-th consumed consent and the n-th event belong to one command.
  ghost predicate Corresponding(st: Store) {
    && |st.commands| == |st.consents| == |st.events|
    && forall i | 0 <= i < |st.commands| :: Corresponds(st.commands[i], st.consents[i], st.events[i])
  }

  ghost predicate UniqueKeys(st: Store) {
    && (forall i, j | 0 <= i < j < |st.commands| :: st.commands[i].commandId != st.commands[j].commandId)
    && (forall i, j | 0 <= i < j < |st.consents| :: st.consents[i].consentId != st.consents[j].consentId)
    && (forall i, j | 0 <= i < j < |st.events| :: st.events[i].eventId != st.events[j].eventId)
  }

  ghost predicate Bounded(cfg: Config, st: Store) {
    && TotalRows(st) <= cfg.maxRows
    && (forall a: Text :: |Owned(st.identities, a)| <= cfg.maxLinksPerAccount)
    && (forall a: Text :: Receipts(st.commands, a) <= cfg.maxReceiptsPerAccount)
    && Pending(st.events) <= cfg.maxPendingEvents
  }

  ghost predicate StoreOk(cfg: Config, st: Store) {
    && UniqueIdentities(st.identities)
    && Parity(st.identities)
    && Counted(st)
    && KeepsMethod(st)
    && Corresponding(st)
    && UniqueKeys(st)
    && Bounded(cfg, st)
  }

  /*** How the store may change ***/

  ghost predicate RowGrows(a: IdentityRow, b: IdentityRow) {
    SameIdentity(a, b) && a.generation <= b.generation && (a.generation == b.generation ==> a == b)
  }

  ghost predicate EventGrows(a: EventRow, b: EventRow) {
    a == b || b == a.(pending := false)
  }

  /**
   Identities keep their key, account, provider and link id, and only their generation grows. Revisions grow,
   and an account's rows change only together with its revision. Receipts and consents are never rewritten.
   */
  ghost predicate Grows(s: Store, t: Store) {
    && |s.identities| <= |t.identities|
    && (forall i | 0 <= i < |s.identities| :: RowGrows(s.identities[i], t.identities[i]))
    && (forall a | a in s.revisions :: a in t.revisions)
    && (forall a: Text :: RevisionOf(s, a) <= RevisionOf(t, a))
    && (forall a: Text :: RevisionOf(s, a) == RevisionOf(t, a) ==> Owned(s.identities, a) == Owned(t.identities, a))
    && s.commands <= t.commands
    && s.consents <= t.consents
    && |s.events| <= |t.events|
    && (forall i | 0 <= i < |s.events| :: EventGrows(s.events[i], t.events[i]))
  }

  lemma GrowsReflexive(s: Store)
    ensures Grows(s, s)
  {
    forall i | 0 <= i < |s.identities| ensures RowGrows(s.identities[i], s.identities[i]) {
    }
    forall i | 0 <= i < |s.events| ensures EventGrows(s.events[i], s.events[i]) {
    }
  }

  lemma GrowsTransitive(s: Store, t: Store, u: Store)
    requires Grows(s, t) && Grows(t, u)
    ensures Grows(s, u)
  {
    forall i | 0 <= i < |s.identities| ensures RowGrows(s.identities[i], u.identities[i]) {
      assert RowGrows(s.identities[i], t.identities[i]) && RowGrows(t.identities[i], u.identities[i]);
    }
    forall i | 0 <= i < |s.events| ensures EventGrows(s.events[i], u.events[i]) {
      assert EventGrows(s.events[i], t.events[i]) && EventGrows(t.events[i], u.events[i]);
    }
    forall a: Text | RevisionOf(s, a) == RevisionOf(u, a)
      ensures Owned(s.identities, a) == Owned(u.identities, a)
    {
      assert RevisionOf(s, a) <= RevisionOf(t, a) <= RevisionOf(u, a);
    }
    forall a: Text ensures RevisionOf(s, a) <= RevisionOf(u, a) {
      assert RevisionOf(s, a) <= RevisionOf(t, a) <= RevisionOf(u, a);
    }
  }

  /*** The effect of the five writes ***/

  // The position of the row an update replaces.
  function Slot(st: Store, d: Draft): Option<nat> {
    Find(st.identities, (r: IdentityRow) => KeyedBy(r, d.identity.issuer, d.identity.subject))
  }

  ghost predicate WritesApply(st: Store, plan: Plan, d: Draft) {
    && (if plan.target.Some?
        then
          && Slot(st, d).Some?
          && st.identities[Slot(st, d).value].generation == plan.target.value.generation
          && SameIdentity(st.identities[Slot(st, d).value], d.identity)
        else
          forall i | 0 <= i < |st.identities| ::
            !KeyedBy(st.identities[i], d.identity.issuer, d.identity.subject)
            && st.identities[i].linkId != d.identity.linkId)
    && plan.revision == (if d.receipt.account in st.revisions then Some(st.revisions[d.receipt.account]) else None)
    && (forall i | 0 <= i < |st.consents| :: st.consents[i].consentId != d.consent.consentId)
    && (forall i | 0 <= i < |st.commands| :: st.commands[i].commandId != d.receipt.commandId)
    && (forall i | 0 <= i < |st.events| :: st.events[i].eventId != d.event.eventId)
  }

  function Written(st: Store, plan: Plan, d: Draft): Store {
    Store(
      if plan.target.Some? && Slot(st, d).Some? then st.identities[Slot(st, d).value := d.identity]
      else st.identities + [d.identity],
      st.revisions[d.receipt.account := d.revision],
      st.commands + [d.receipt],
      st.consents + [d.consent],
      st.events + [d.event])
  }

  /** The five writes succeed exactly when no key is taken and no expectation is stale. */
  lemma WriteAllEffect(st: Store, plan: Plan, d: Draft)
    ensures WriteAll(st, plan, d, 0).Some? <==> WritesApply(st, plan, d)
    ensures WritesApply(st, plan, d) ==> WriteAll(st, plan, d, 0).value == Written(st, plan, d)
  {
    WriteAllSteps(st, plan, d);
    hide WriteAll;
  }

  // The writes one after the other.
  function Chain(st: Store, plan: Plan, d: Draft): Option<Store> {
    var s0 := WriteAt(st, plan, d, 0);
    if s0.None? then None
    else
      var s1 := WriteAt(s0.value, plan, d, 1);
      if s1.None? then None
      else
        var s2 := WriteAt(s1.value, plan, d, 2);
        if s2.None? then None
        else
          var s3 := WriteAt(s2.value, plan, d, 3);
          if s3.None? then None else WriteAt(s3.value, plan, d, 4)
  }

  lemma WriteAllSteps(st: Store, plan: Plan, d: Draft)
    ensures WriteAll(st, plan, d, 0) == Chain(st, plan, d)
  {
    hide WriteAt;
    var s0 := WriteAt(st, plan, d, 0);
    if s0.Some? {
      var s1 := WriteAt(s0.value, plan, d, 1);
      if s1.Some? {
        var s2 := WriteAt(s1.value, plan, d, 2);
        if s2.Some? {
          var s3 := WriteAt(s2.value, plan, d, 3);
          if s3.Some? {
            assert WriteAll(s3.value, plan, d, 4) == WriteAt(s3.value, plan, d, 4);
          }
          assert WriteAll(s2.value, plan, d, 3) == if s3.None? then None else WriteAll(s3.value, plan, d, 4);
        }
        assert WriteAll(s1.value, plan, d, 2) == if s2.None? then None else WriteAll(s2.value, plan, d, 3);
      }
      assert WriteAll(s0.value, plan, d, 1) == if s1.None? then None else WriteAll(s1.value, plan, d, 2);
    }
  }

  /*** Committed commands ***/

  // What a plan's draft is: the rows made for the intent, holding some reservation.
  ghost predicate DraftFor(cfg: Config, i: Intent, plan: Plan, d: Draft, at: nat, drawn: Text, eventId: Text) {
    var made := MakeDraft(cfg, i, plan, at, drawn, eventId);
    made.Ok? && d == Funded(made.value, d.receipt.reservationId)
  }

  // The last-method check passed: the plan lists another active link of the account.
  ghost predicate OtherActive(links: seq<IdentityRow>, linkId: Text) {
    exists i | 0 <= i < |links| :: links[i].linkId != linkId && links[i].active
  }

  /** What is known when a commit body has written. */
  ghost predicate Commits(cfg: Config, st: Store, i: Intent, plan: Plan, d: Draft) {
    && WritesApply(st, plan, d)
    && TargetAllowed(i, plan.target)
    && FindTarget(cfg, st, i.target) == Ok(plan.target)
    && Admits(cfg, st, i.account, plan.target.None?)
  }

  /** What a successful preflight without a receipt establishes. */
  lemma PreflightFacts(cfg: Config, st: Store, i: Intent)
    requires Preflight(cfg, st, i).Ok? && Preflight(cfg, st, i).value.receipt.None?
    ensures var p := Preflight(cfg, st, i).value;
            && TargetAllowed(i, p.target)
            && FindTarget(cfg, st, i.target) == Ok(p.target)
            && Admits(cfg, st, i.account, p.target.None?)
            && StoredRevision(st, i.account) == Ok(p.revision)
            && (i.action == Unlink ==> Links(cfg, st, i.account) == Ok(p.links))
  {
    hide ActorRow, StoredCommand, ReceiptMatches, FindTarget, TargetAllowed, StoredRevision, ConsentFree, Admits, Links;
  }

  lemma ReceiptFound(cfg: Config, st: Store, i: Intent)
    requires Preflight(cfg, st, i).Ok? && Preflight(cfg, st, i).value.receipt.Some?
    ensures var r := Preflight(cfg, st, i).value.receipt.value;
            r in st.commands && r.commandId == i.horizon.commandId && !r.result.replay
            && ReceiptMatches(cfg, r, i)
  {
    hide ActorRow, StoredCommand, ReceiptMatches, FindTarget, TargetAllowed, StoredRevision, ConsentFree, Admits, Links;
    CommandFound(cfg, st, i.horizon.commandId);
  }

  lemma CommandFound(cfg: Config, st: Store, commandId: Text)
    ensures var found := StoredCommand(cfg, st, commandId);
            found.Ok? && found.value.Some? ==>
              && found.value.value in st.commands && found.value.value.commandId == commandId
              && !found.value.value.result.replay
  {
    hide TextOk, AccountOk, IdOk, Portable, Fits;
  }

  /** A commit body that succeeds either replays a matching receipt unchanged or writes all five rows. */
  lemma CommitCases(cfg: Config, st: Store, fenced: bool, failure: Option<Code>, i: Intent, plan: Plan, d: Draft)
    returns (replay: bool)
    requires CommitBody(cfg, st, fenced, failure, i, plan, d).Ok?
    ensures failure.None? && !fenced
    ensures var c := CommitBody(cfg, st, fenced, failure, i, plan, d).value;
            if replay then
              && c.store == st && c.result.replay
              && (exists k | 0 <= k < |st.commands| ::
                    && st.commands[k].commandId == i.horizon.commandId
                    && ReceiptMatches(cfg, st.commands[k], i)
                    && st.commands[k].reservationId == d.receipt.reservationId
                    && c.result == st.commands[k].result.(replay := true))
            else
              && c == Commit(Written(st, plan, d), d.receipt.result)
              && Commits(cfg, st, i, plan, d)
  {
    hide Preflight, ReceiptMatches, FindTarget, Admits, TargetAllowed, StoredLink, Written, WritesApply, WriteAll,
         Canonical, TargetJson;
    var current := Preflight(cfg, st, i).value;
    replay := current.receipt.Some?;
    if replay {
      ReceiptFound(cfg, st, i);
      var row := current.receipt.value;
      assert row in st.commands;
      var k :| 0 <= k < |st.commands| && st.commands[k] == row;
    } else {
      PreflightFacts(cfg, st, i);
      TargetTextDecides(current.target, plan.target);
      WriteAllEffect(st, plan, d);
    }
  }

  /** A commit whose plan is no longer the current one is refused as a conflict, and so is one that cannot write. */
  lemma StaleCommitsConflict(cfg: Config, st: Store, i: Intent, plan: Plan, d: Draft)
    requires Preflight(cfg, st, i).Ok? && Preflight(cfg, st, i).value.receipt.None?
    requires var current := Preflight(cfg, st, i).value;
             || current.revision != plan.revision || current.target != plan.target
             || (StoredLink(cfg, st, d.identity.linkId).Ok? && !WritesApply(st, plan, d))
    ensures CommitBody(cfg, st, false, None, i, plan, d) == Err(IdentityConflict)
  {
    hide Preflight, StoredLink, WriteAll, WritesApply, Canonical, TargetJson, Written;
    TargetTextDecides(Preflight(cfg, st, i).value.target, plan.target);
    WriteAllEffect(st, plan, d);
  }

  /** A commit that finds its command recorded replays it for the same reservation and is a conflict for another. */
  lemma RecordedCommits(cfg: Config, st: Store, i: Intent, plan: Plan, d: Draft, r: CommandRow)
    requires Preflight(cfg, st, i).Ok? && Preflight(cfg, st, i).value.receipt == Some(r)
    ensures CommitBody(cfg, st, false, None, i, plan, d)
            == if r.reservationId == d.receipt.reservationId then Ok(Commit(st, r.result.(replay := true)))
               else Err(CommandConflict)
  {
    hide Preflight;
  }

  /*** Preservation ***/

  // The draft's rows, spelled out.
  ghost predicate Shape(cfg: Config, i: Intent, plan: Plan, d: Draft) {
    && d.receipt.account == i.account && d.receipt.commandId == i.horizon.commandId
    && d.receipt.action == i.action
    && d.receipt.result == CommandResult(i.action, i.account, d.identity.linkId, d.revision, false)
    && d.receipt.digest == IntentDigest(cfg, i) && d.receipt.expiresAt == i.horizon.deadline
    && d.consent == ConsentRow(cfg.namespace, i.consentId, i.horizon.commandId, i.horizon.deadline)
    && d.event.commandId == i.horizon.commandId && d.event.eventId == d.receipt.eventId
    && d.event.account == i.account && d.event.action == i.action && d.event.pending
    && d.event.linkId == d.identity.linkId && d.event.revision == d.revision
    && d.event.provider == i.provider
    && d.identity.account == i.account
    && d.revision == (if plan.revision.Some? then plan.revision.value + 1 else 1)
    && (if plan.target.Some?
        then
          && SameIdentity(plan.target.value, d.identity)
          && d.identity.generation == plan.target.value.generation + 1
          && (d.identity.active <==> i.action != Unlink)
        else
          && i.action != Unlink && i.target.ByIdentity?
          && d.identity == IdentityRow(cfg.namespace, i.target.issuer, i.target.subject, i.provider, i.account,
                                       d.identity.linkId, true, 1, d.event.at, None))
    && d.identity.unlinkedAt == (if i.action == Unlink then Some(d.event.at) else None)
  }

  lemma DraftShape(cfg: Config, i: Intent, plan: Plan, d: Draft, at: nat, drawn: Text, eventId: Text)
    requires IntentOk(cfg, i) && TargetAllowed(i, plan.target) && DraftFor(cfg, i, plan, d, at, drawn, eventId)
    ensures Shape(cfg, i, plan, d)
  {
  }

  /**
   A command's effect on the tables: it rewrites row k of the account with the next generation and the
   opposite status, or appends a first-generation row, and appends its receipt, consent and event.
   */
  ghost predicate Moved(st: Store, t: Store, d: Draft, account: Text, k: nat) {
    && d.identity.account == account && d.receipt.account == account
    && (if k < |st.identities|
        then
          && t.identities == st.identities[k := d.identity]
          && SameIdentity(st.identities[k], d.identity)
          && d.identity.generation == st.identities[k].generation + 1
          && (d.identity.active <==> !st.identities[k].active)
        else
          && t.identities == st.identities + [d.identity]
          && d.identity.generation == 1 && d.identity.active
          && (forall i | 0 <= i < |st.identities| ::
                !KeyedBy(st.identities[i], d.identity.issuer, d.identity.subject)
                && st.identities[i].linkId != d.identity.linkId))
    && t.revisions == st.revisions[account := RevisionOf(st, account) + 1]
    && t.commands == st.commands + [d.receipt]
    && t.consents == st.consents + [d.consent]
    && t.events == st.events + [d.event]
  }

  /** The row a command updates is the row its plan saw. */
  lemma SlotIsTarget(cfg: Config, st: Store, i: Intent, plan: Plan, d: Draft) returns (k: nat)
    requires UniqueIdentities(st.identities) && Commits(cfg, st, i, plan, d)
    requires plan.target.Some? && SameIdentity(plan.target.value, d.identity)
    ensures k < |st.identities| && st.identities[k] == plan.target.value
    ensures Written(st, plan, d).identities == st.identities[k := d.identity]
  {
    var row := plan.target.value;
    assert row in st.identities;
    k :| 0 <= k < |st.identities| && st.identities[k] == row;
    var slot := Slot(st, d).value;
    assert KeyedBy(st.identities[slot], row.issuer, row.subject);
    assert slot == k;
  }

  lemma WrittenMoves(cfg: Config, st: Store, i: Intent, plan: Plan, d: Draft) returns (k: nat)
    requires UniqueIdentities(st.identities) && Commits(cfg, st, i, plan, d) && Shape(cfg, i, plan, d)
    ensures Moved(st, Written(st, plan, d), d, i.account, k)
    ensures i.action == Unlink ==>
              k < |st.identities| && plan.target.Some? && st.identities[k].linkId == plan.target.value.linkId
    ensures i.action == Unlink <==> !d.identity.active
  {
    hide IntentDigest, FindTarget, Admits, UniqueIdentities;
    k := |st.identities|;
    if plan.target.Some? {
      k := SlotIsTarget(cfg, st, i, plan, d);
    }
  }

  lemma MovedIdentities(st: Store, t: Store, d: Draft, account: Text, k: nat)
    requires UniqueIdentities(st.identities) && Parity(st.identities) && Moved(st, t, d, account, k)
    ensures UniqueIdentities(t.identities) && Parity(t.identities)
  {
    assert forall j | 0 <= j < |st.identities| :: SameIdentity(st.identities[j], t.identities[j]);
  }

  lemma MovedCounts(st: Store, t: Store, d: Draft, account: Text, k: nat)
    requires Counted(st) && Moved(st, t, d, account, k)
    ensures Counted(t)
  {
    forall a: Text
      ensures RevisionOf(t, a) == GenerationSum(t.identities, a) == Receipts(t.commands, a)
    {
      ReceiptsAppend(st.commands, d.receipt, a);
      assert RevisionOf(st, a) == GenerationSum(st.identities, a) == Receipts(st.commands, a);
      if k < |st.identities| {
        UpdateCounts(st.identities, k, d.identity, a);
      } else {
        AppendCounts(st.identities, d.identity, a);
      }
    }
  }

  /** An account keeps an active link: a linking command brings one, an unlinking command leaves another. */
  lemma MovedKeepsMethod(st: Store, t: Store, d: Draft, account: Text, k: nat, links: seq<IdentityRow>)
    requires KeepsMethod(st) && Moved(st, t, d, account, k)
    requires !d.identity.active ==>
               k < |st.identities| && OtherActive(links, st.identities[k].linkId)
               && links == Owned(st.identities, account)
    ensures KeepsMethod(t)
  {
    forall a | a in t.revisions ensures HasActive(t.identities, a) {
      if a != account {
        var j :| 0 <= j < |st.identities| && st.identities[j].account == a && st.identities[j].active;
        assert t.identities[j] == st.identities[j];
      } else if d.identity.active {
        assert t.identities[if k < |st.identities| then k else |st.identities|] == d.identity;
      } else {
        var n :| 0 <= n < |links| && links[n].linkId != st.identities[k].linkId && links[n].active;
        OwnedMembers(st.identities, a, links[n]);
        var j :| 0 <= j < |st.identities| && st.identities[j] == links[n];
        assert t.identities[j] == st.identities[j];
      }
    }
  }

  lemma WrittenKeys(st: Store, plan: Plan, d: Draft)
    requires Corresponding(st) && UniqueKeys(st) && WritesApply(st, plan, d)
    requires Corresponds(d.receipt, d.consent, d.event)
    ensures Corresponding(Written(st, plan, d)) && UniqueKeys(Written(st, plan, d))
  {
    var t := Written(st, plan, d);
    forall n | 0 <= n < |t.commands| ensures Corresponds(t.commands[n], t.consents[n], t.events[n]) {
      if n < |st.commands| {
        assert Corresponds(st.commands[n], st.consents[n], st.events[n]);
      }
    }
  }

  lemma MovedBounds(cfg: Config, st: Store, t: Store, d: Draft, account: Text, k: nat)
    requires Bounded(cfg, st) && Moved(st, t, d, account, k)
    requires Admits(cfg, st, account, k >= |st.identities|)
    ensures Bounded(cfg, t)
  {
    PendingAppend(st.events, d.event);
    assert t.revisions.Keys == st.revisions.Keys + {account};
    forall a: Text
      ensures |Owned(t.identities, a)| <= cfg.maxLinksPerAccount
      ensures Receipts(t.commands, a) <= cfg.maxReceiptsPerAccount
    {
      assert |Owned(st.identities, a)| <= cfg.maxLinksPerAccount;
      assert Receipts(st.commands, a) <= cfg.maxReceiptsPerAccount;
      ReceiptsAppend(st.commands, d.receipt, a);
      if k < |st.identities| {
        UpdateCounts(st.identities, k, d.identity, a);
      } else {
        AppendCounts(st.identities, d.identity, a);
      }
    }
  }

  lemma MovedGrows(st: Store, t: Store, d: Draft, account: Text, k: nat)
    requires Moved(st, t, d, account, k)
    ensures Grows(st, t) && RevisionOf(t, account) == RevisionOf(st, account) + 1
  {
    GrowsReflexive(st);
    forall j | 0 <= j < |st.identities| ensures RowGrows(st.identities[j], t.identities[j]) {
    }
    forall a: Text | a != account ensures Owned(st.identities, a) == Owned(t.identities, a) {
      if k < |st.identities| {
        UpdateCounts(st.identities, k, d.identity, a);
      } else {
        AppendCounts(st.identities, d.identity, a);
      }
    }
    forall a: Text ensures RevisionOf(st, a) <= RevisionOf(t, a) {
    }
  }

  /** Every committed command preserves all store invariants and only grows the store. */
  lemma WrittenKeepsStore(cfg: Config, st: Store, i: Intent, plan: Plan, d: Draft)
    requires StoreOk(cfg, st) && Commits(cfg, st, i, plan, d) && Shape(cfg, i, plan, d)
    requires i.action == Unlink ==>
               && plan.target.Some? && OtherActive(plan.links, plan.target.value.linkId)
               && plan.links == Owned(st.identities, i.account)
    ensures StoreOk(cfg, Written(st, plan, d)) && Grows(st, Written(st, plan, d))
    ensures RevisionOf(Written(st, plan, d), i.account) == RevisionOf(st, i.account) + 1
  {
    var t := Written(st, plan, d);
    var k := WrittenMoves(cfg, st, i, plan, d);
    MovedIdentities(st, t, d, i.account, k);
    MovedCounts(st, t, d, i.account, k);
    MovedKeepsMethod(st, t, d, i.account, k, plan.links);
    WrittenKeys(st, plan, d);
    MovedBounds(cfg, st, t, d, i.account, k);
    MovedGrows(st, t, d, i.account, k);
  }

  /*** Acknowledgement, a host action ***/

  function Acknowledged(st: Store, n: nat): Store {
    if n < |st.events| then st.(events := st.events[n := st.events[n].(pending := false)]) else st
  }

  lemma AcknowledgeKeepsStore(cfg: Config, st: Store, n: nat)
    requires StoreOk(cfg, st)
    ensures StoreOk(cfg, Acknowledged(st, n)) && Grows(st, Acknowledged(st, n))
  {
    var t := Acknowledged(st, n);
    GrowsReflexive(st);
    if n < |st.events| {
      PendingAcknowledge(st.events, n);
      forall k | 0 <= k < |t.commands| ensures Corresponds(t.commands[k], t.consents[k], t.events[k]) {
        assert Corresponds(st.commands[k], st.consents[k], st.events[k]);
      }
      forall k | 0 <= k < |st.events| ensures EventGrows(st.events[k], t.events[k]) {
      }
      assert forall a: Text :: RevisionOf(t, a) == RevisionOf(st, a);
    }
  }

  /** Acknowledging a pending event makes room for one more and leaves every other event and row alone. */
  lemma AcknowledgeFrees(st: Store, n: nat)
    requires n < |st.events| && st.events[n].pending
    ensures var t := Acknowledged(st, n);
            && Pending(t.events) == Pending(st.events) - 1
            && |t.events| == |st.events| && t.events[n] == st.events[n].(pending := false)
            && (forall k | 0 <= k < |st.events| && k != n :: t.events[k] == st.events[k])
            && t == st.(events := t.events)
  {
    PendingAcknowledge(st.events, n);
  }

  const EMPTY: Store := Store([], map[], [], [], [])

  lemma EmptyStoreOk(cfg: Config)
    ensures StoreOk(cfg, EMPTY)
  {
  }
}
