/** The directory store and the bodies of the transactions the directory runs on it. */
module DirectoryTransactions {
  import opened Common
  import opened CanonicalText
  import opened DirectoryRows

  datatype Store = Store(
    identities: seq<IdentityRow>,
    revisions: map<Text, nat>,
    commands: seq<CommandRow>,
    consents: seq<ConsentRow>,
    events: seq<EventRow>
  )

  /** The index of the first row that satisfies p. */
  function Find<T>(rows: seq<T>, p: T -> bool): (r: Option<nat>)
    ensures r.Some? ==> r.value < |rows| && p(rows[r.value])
    ensures r.None? ==> forall i | 0 <= i < |rows| :: !p(rows[i])
  {
    if rows == [] then None
    else if p(rows[0]) then Some(0)
    else
      var rest := Find(rows[1..], p);
      assert forall i | 1 <= i < |rows| :: rows[i] == rows[1..][i - 1];
      if rest.Some? then Some(rest.value + 1) else None
  }

  function Row<T>(rows: seq<T>, p: T -> bool): (r: Option<T>)
    ensures r.Some? ==> r.value in rows && p(r.value)
    ensures r.None? ==> forall i | 0 <= i < |rows| :: !p(rows[i])
  {
    var found := Find(rows, p);
    if found.Some? then Some(rows[found.value]) else None
  }

  predicate KeyedBy(r: IdentityRow, issuer: Text, subject: Text) {
    r.issuer == issuer && r.subject == subject
  }

  /** The rows of one account, in table order. */
  function Owned(rows: seq<IdentityRow>, account: Text): seq<IdentityRow> {
    if rows == [] then []
    else (if rows[0].account == account then [rows[0]] else []) + Owned(rows[1..], account)
  }

  function Receipts(rows: seq<CommandRow>, account: Text): nat {
    if rows == [] then 0
    else (if rows[0].account == account then 1 else 0) + Receipts(rows[1..], account)
  }

  function Pending(rows: seq<EventRow>): nat {
    if rows == [] then 0
    else (if rows[0].pending then 1 else 0) + Pending(rows[1..])
  }

  function TotalRows(st: Store): nat {
    |st.identities| + |st.revisions| + |st.commands| + |st.consents| + |st.events|
  }

  /*** Reads, with the validators they apply ***/

  function StorageIdentity(cfg: Config, raw: Option<IdentityRow>): Result<Option<IdentityRow>, Code> {
    if raw.Some? && !IdentityRowOk(cfg, raw.value) then Err(StorageUnavailable) else Ok(raw)
  }

  function StoredIdentity(cfg: Config, st: Store, issuer: Text, subject: Text): Result<Option<IdentityRow>, Code> {
    StorageIdentity(cfg, Row(st.identities, (r: IdentityRow) => KeyedBy(r, issuer, subject)))
  }

  function StoredLink(cfg: Config, st: Store, linkId: Text): Result<Option<IdentityRow>, Code> {
    StorageIdentity(cfg, Row(st.identities, (r: IdentityRow) => r.linkId == linkId))
  }

  function StoredRevision(st: Store, account: Text): Result<Option<nat>, Code> {
    if account !in st.revisions then Ok(None)
    else if 1 <= st.revisions[account] <= MAX_SAFE then Ok(Some(st.revisions[account]))
    else Err(StorageUnavailable)
  }

  function StoredCommand(cfg: Config, st: Store, commandId: Text): Result<Option<CommandRow>, Code> {
    var raw := Row(st.commands, (r: CommandRow) => r.commandId == commandId);
    if raw.Some? && !CommandRowOk(cfg, raw.value) then Err(StorageUnavailable) else Ok(raw)
  }

  predicate DistinctLinks(rows: seq<IdentityRow>) {
    forall i, j | 0 <= i < j < |rows| :: rows[i].linkId != rows[j].linkId
  }

  /** The store lists at most as many rows as it is asked for. */
  function Links(cfg: Config, st: Store, account: Text): Result<seq<IdentityRow>, Code> {
    var rows := Owned(st.identities, account);
    var listed := if |rows| > cfg.maxLinksPerAccount then rows[..cfg.maxLinksPerAccount] else rows;
    if (forall r | r in listed :: IdentityRowOk(cfg, r)) && DistinctLinks(listed)
    then Ok(listed)
    else Err(StorageUnavailable)
  }

  /*** Sessions and intents ***/

  // A session profile together with the binding that agrees with it on account, session and identity.
  datatype Source = Source(
    account: Text,
    sessionId: Text,
    issuer: Text,
    subject: Text,
    provider: Text,
    linkId: Text,
    generation: nat
  )

  datatype Actor = Actor(source: Source, row: IdentityRow, revision: nat)

  datatype Target = ByIdentity(issuer: Text, subject: Text) | ByLink(linkId: Text)

  datatype Intent = Intent(
    action: Action,
    horizon: Horizon,
    account: Text,
    consentId: Text,
    target: Target,
    provider: Text,
    actor: Option<Actor>
  )

  /** What the input and port validators establish before an intent reaches a transaction. */
  predicate IntentOk(cfg: Config, i: Intent) {
    && AccountOk(i.account) && Portable(i.consentId, 128) && Portable(i.provider, 80)
    && TextOk(i.horizon.commandId, 60) && i.horizon.deadline <= MAX_SAFE
    && (i.action == Unlink <==> i.target.ByLink?)
    && (i.action == Provision <==> i.actor.None?)
    && (i.target.ByIdentity? ==> TextOk(i.target.issuer, 2048) && TextOk(i.target.subject, 512))
    && (i.actor.Some? ==> i.actor.value.source.account == i.account)
  }

  function TargetMembers(t: Target): Members {
    match t
    case ByIdentity(issuer, subject) => Field("issuer", Str(issuer), Field("subject", Str(subject), Done))
    case ByLink(linkId) => Field("linkId", Str(linkId), Done)
  }

  function DigestMembers(cfg: Config, i: Intent): Members {
    Field("namespace", Str(cfg.namespace),
    Field("accountId", Str(i.account),
    Field("action", Name(i.action),
    Field("providerId", Str(i.provider),
    Field("target", Obj(TargetMembers(i.target)),
    Field("consentId", Str(i.consentId),
    Field("commandId", Str(i.horizon.commandId),
    Done)))))))
  }

  function IntentDigest(cfg: Config, i: Intent): Digest {
    Digest(Canonical(Obj(DigestMembers(cfg, i))))
  }

  /*** Guard and preflight ***/

  /** The current-link check: row, account, provider, link and generation must all match the binding. */
  function ActorRow(cfg: Config, st: Store, source: Source): Result<Actor, Code> {
    var found :- StoredIdentity(cfg, st, source.issuer, source.subject);
    if found.None? then Err(AuthenticationDenied)
    else
      var row := found.value;
      if !(row.active && row.account == source.account && row.provider == source.provider
           && row.linkId == source.linkId && row.generation == source.generation)
      then Err(AuthenticationDenied)
      else
        var current :- StoredRevision(st, source.account);
        if current.None? then Err(AuthenticationDenied) else Ok(Actor(source, row, current.value))
  }

  datatype Plan = Plan(
    target: Option<IdentityRow>,
    revision: Option<nat>,
    receipt: Option<CommandRow>,
    links: seq<IdentityRow>
  )

  predicate ReceiptMatches(cfg: Config, r: CommandRow, i: Intent) {
    && r.account == i.account && r.action == i.action
    && r.digest == IntentDigest(cfg, i) && r.expiresAt == i.horizon.deadline
  }

  function FindTarget(cfg: Config, st: Store, t: Target): Result<Option<IdentityRow>, Code> {
    match t
    case ByIdentity(issuer, subject) => StoredIdentity(cfg, st, issuer, subject)
    case ByLink(linkId) => StoredLink(cfg, st, linkId)
  }

  predicate TargetAllowed(i: Intent, target: Option<IdentityRow>) {
    if i.action == Unlink then target.Some? && target.value.account == i.account && target.value.active
    else
      target.Some? ==>
        && i.action == Link && target.value.account == i.account
        && !target.value.active && target.value.provider == i.provider
  }

  predicate Admits(cfg: Config, st: Store, account: Text, newLink: bool) {
    var linkCount := |Owned(st.identities, account)|;
    && TotalRows(st) <= cfg.maxRows - 5
    && linkCount <= cfg.maxLinksPerAccount
    && (newLink ==> linkCount < cfg.maxLinksPerAccount)
    && Receipts(st.commands, account) < cfg.maxReceiptsPerAccount
    && Pending(st.events) < cfg.maxPendingEvents
  }

  function ConsentFree(cfg: Config, st: Store, consentId: Text): Result<(), Code> {
    var used := Row(st.consents, (r: ConsentRow) => r.consentId == consentId);
    if used.None? then Ok(())
    else if !ConsentRowOk(cfg, used.value) then Err(StorageUnavailable)
    else Err(ConsentDenied)
  }

  function Preflight(cfg: Config, st: Store, i: Intent): Result<Plan, Code> {
    var guard := if i.actor.Some? then ActorRow(cfg, st, i.actor.value.source) else Err(InvalidInput);
    if i.actor.Some? && guard.Err? then Err(guard.error)
    else
      var receipt :- StoredCommand(cfg, st, i.horizon.commandId);
      if receipt.Some? then
        if ReceiptMatches(cfg, receipt.value, i) then Ok(Plan(None, None, receipt, [])) else Err(CommandConflict)
      else
        var target :- FindTarget(cfg, st, i.target);
        if !TargetAllowed(i, target) then Err(IdentityConflict)
        else
          var current :- StoredRevision(st, i.account);
          if i.actor.Some? && current != Some(i.actor.value.revision) then Err(IdentityConflict)
          else
            var free :- ConsentFree(cfg, st, i.consentId);
            if !Admits(cfg, st, i.account, target.None?) then Err(CapacityExceeded)
            else if i.action == Unlink then
              var links :- Links(cfg, st, i.account);
              Ok(Plan(target, current, None, links))
            else Ok(Plan(target, current, None, []))
  }

  /*** The rows of one command ***/

  datatype Draft = Draft(
    identity: IdentityRow,
    revision: nat,
    receipt: CommandRow,
    consent: ConsentRow,
    event: EventRow
  )

  function Next(n: nat): Result<nat, Code> {
    if n + 1 <= MAX_SAFE then Ok(n + 1) else Err(StorageUnavailable)
  }

  function NewIdentity(cfg: Config, i: Intent, plan: Plan, at: nat, linkId: Text): Result<IdentityRow, Code> {
    if plan.target.Some? then
      var generation :- Next(plan.target.value.generation);
      Ok(plan.target.value.(
           active := i.action != Unlink,
           generation := generation,
           unlinkedAt := if i.action == Unlink then Some(at) else None))
    else if i.target.ByIdentity? then
      Ok(IdentityRow(cfg.namespace, i.target.issuer, i.target.subject, i.provider, i.account, linkId, true, 1, at,
                     None))
    else Err(IdentityConflict)
  }

  /** The five rows a command writes; the receipt carries the placeholder reservation id. */
  function MakeDraft(cfg: Config, i: Intent, plan: Plan, at: nat, drawn: Text, eventId: Text): Result<Draft, Code> {
    var linkId := if plan.target.Some? then plan.target.value.linkId else drawn;
    var revision :- if plan.revision.None? then Ok(1) else Next(plan.revision.value);
    var identity :- NewIdentity(cfg, i, plan, at, linkId);
    var result := CommandResult(i.action, i.account, linkId, revision, false);
    Ok(Draft(
         identity,
         revision,
         CommandRow(cfg.namespace, i.horizon.commandId, i.account, i.action, IntentDigest(cfg, i), result,
                    Placeholder(), eventId, i.horizon.deadline),
         ConsentRow(cfg.namespace, i.consentId, i.horizon.commandId, i.horizon.deadline),
         EventRow(eventId, cfg.namespace, i.action, i.account, linkId, i.provider, revision, at,
                  i.horizon.commandId, true)))
  }

  predicate Sized(cfg: Config, d: Draft) {
    && Fits(cfg, IdentityJson(d.identity))
    && Fits(cfg, RevisionJson(cfg.namespace, d.receipt.account, d.revision))
    && Fits(cfg, CommandJson(d.receipt))
    && Fits(cfg, ConsentJson(d.consent))
    && Fits(cfg, EventJson(d.event))
  }

  function Funded(d: Draft, reservationId: Text): Draft {
    d.(receipt := d.receipt.(reservationId := reservationId))
  }

  /*** Writes: each refuses on a key that exists or on a stale expectation ***/

  function InsertIdentity(st: Store, row: IdentityRow): Option<Store> {
    if Find(st.identities, (r: IdentityRow) => KeyedBy(r, row.issuer, row.subject) || r.linkId == row.linkId).Some?
    then None
    else Some(st.(identities := st.identities + [row]))
  }

  // The columns an update may not change.
  predicate SameIdentity(a: IdentityRow, b: IdentityRow) {
    a == b.(active := a.active, generation := a.generation, unlinkedAt := a.unlinkedAt)
  }

  function UpdateIdentity(st: Store, expected: nat, row: IdentityRow): Option<Store> {
    var found := Find(st.identities, (r: IdentityRow) => KeyedBy(r, row.issuer, row.subject));
    if found.Some? && st.identities[found.value].generation == expected && SameIdentity(st.identities[found.value], row)
    then Some(st.(identities := st.identities[found.value := row]))
    else None
  }

  function PutRevision(st: Store, account: Text, expected: Option<nat>, next: nat): Option<Store> {
    var current := if account in st.revisions then Some(st.revisions[account]) else None;
    if current == expected then Some(st.(revisions := st.revisions[account := next])) else None
  }

  function InsertConsent(st: Store, row: ConsentRow): Option<Store> {
    if Find(st.consents, (r: ConsentRow) => r.consentId == row.consentId).Some? then None
    else Some(st.(consents := st.consents + [row]))
  }

  function InsertCommand(st: Store, row: CommandRow): Option<Store> {
    if Find(st.commands, (r: CommandRow) => r.commandId == row.commandId).Some? then None
    else Some(st.(commands := st.commands + [row]))
  }

  function InsertEvent(st: Store, row: EventRow): Option<Store> {
    if Find(st.events, (r: EventRow) => r.eventId == row.eventId).Some? then None
    else Some(st.(events := st.events + [row]))
  }

  // The five writes, in order.
  const WRITES: nat := 5

  function WriteAt(st: Store, plan: Plan, d: Draft, step: nat): Option<Store>
    requires step < WRITES
  {
    if step == 0 then
      if plan.target.Some? then UpdateIdentity(st, plan.target.value.generation, d.identity)
      else InsertIdentity(st, d.identity)
    else if step == 1 then PutRevision(st, d.receipt.account, plan.revision, d.revision)
    else if step == 2 then InsertConsent(st, d.consent)
    else if step == 3 then InsertCommand(st, d.receipt)
    else InsertEvent(st, d.event)
  }

  /** All five writes or nothing. */
  function WriteAll(st: Store, plan: Plan, d: Draft, step: nat): Option<Store>
    requires step <= WRITES
    decreases WRITES - step
  {
    if step == WRITES then Some(st)
    else
      var next := WriteAt(st, plan, d, step);
      if next.None? then None else WriteAll(next.value, plan, d, step + 1)
  }

  /*** The commit transaction ***/

  // The result the caller gets and the store the transaction leaves.
  datatype Commit = Commit(store: Store, result: CommandResult)

  function CommitBody(cfg: Config, st: Store, fenced: bool, failure: Option<Code>, i: Intent, plan: Plan, d: Draft)
    : Result<Commit, Code>
  {
    if failure.Some? then Err(failure.value)
    else if fenced then Err(CommitUnknown)
    else
      var current :- Preflight(cfg, st, i);
      if current.receipt.Some? then
        if current.receipt.value.reservationId == d.receipt.reservationId
        then Ok(Commit(st, current.receipt.value.result.(replay := true)))
        else Err(CommandConflict)
      else if !(current.revision == plan.revision
                && Canonical(TargetJson(current.target)) == Canonical(TargetJson(plan.target)))
      then Err(IdentityConflict)
      else
        var taken :- StoredLink(cfg, st, d.identity.linkId);
        if taken.Some? && plan.target.None? then Err(IdentityConflict)
        else
          var written := WriteAll(st, plan, d, 0);
          if written.None? then Err(IdentityConflict)
          else Ok(Commit(written.value, d.receipt.result))
  }

  /*** Digests decide intents ***/

  lemma DigestNamesApart()
    ensures Ascii("namespace") != Ascii("accountId") && Ascii("namespace") != Ascii("consentId")
    ensures Ascii("namespace") != Ascii("commandId") && Ascii("accountId") != Ascii("consentId")
    ensures Ascii("accountId") != Ascii("commandId") && Ascii("consentId") != Ascii("commandId")
    ensures Ascii("action") != Ascii("target")
  {
    ApartNames("namespace", "accountId");
    ApartNames("namespace", "consentId");
    ApartNames("namespace", "commandId");
    ApartNames("accountId", "consentId");
    ApartNames("accountId", "commandId");
    ApartNames("action", "target");
    assert Ascii("consentId")[2] != Ascii("commandId")[2];
  }

  lemma TargetPlain(t: Target)
    ensures PlainMembers(TargetMembers(t))
  {
    assert |Ascii("issuer")| != |Ascii("subject")|;
  }

  lemma DigestPlain(cfg: Config, i: Intent)
    ensures Plain(Obj(DigestMembers(cfg, i)))
  {
    DigestNamesApart();
    TargetPlain(i.target);
    var m0 := DigestMembers(cfg, i);
    var m1 := m0.rest;
    var m2 := m1.rest;
    var m3 := m2.rest;
    var m4 := m3.rest;
    var m5 := m4.rest;
    var m6 := m5.rest;
    PlainField("commandId", m6.value, Done);
    PlainField("consentId", m5.value, m6);
    PlainField("target", m4.value, m5);
    PlainField("providerId", m3.value, m4);
    PlainField("action", m2.value, m3);
    PlainField("accountId", m1.value, m2);
    PlainField("namespace", m0.value, m1);
  }

  lemma DigestAligned(cfg: Config, i: Intent, j: Intent)
    ensures Aligned(DigestMembers(cfg, i), DigestMembers(cfg, j))
  {
    var x, y := DigestMembers(cfg, i), DigestMembers(cfg, j);
    assert Aligned(x.rest.rest.rest.rest.rest, y.rest.rest.rest.rest.rest);
    assert Aligned(x.rest.rest.rest, y.rest.rest.rest);
  }

  lemma TargetDecides(s: Target, t: Target)
    requires Same(Obj(TargetMembers(s)), Obj(TargetMembers(t)))
    ensures s == t
  {
    var x, y := TargetMembers(s), TargetMembers(t);
    TargetPlain(s);
    ApartNames("issuer", "linkId");
    assert x.key in Keys(x) && y.key in Keys(y);
    assert |Ascii("subject")| != |Ascii("linkId")|;
    assert Aligned(x, y);
    SameWhenAligned(x, y);
    AlignedStep(x, y);
    if s.ByIdentity? {
      AlignedStep(x.rest, y.rest);
    }
  }

  lemma ActionNames(a: Action, b: Action)
    requires Name(a) == Name(b)
    ensures a == b
  {
    assert |Ascii("provision")| == 9 && |Ascii("link")| == 4 && |Ascii("unlink")| == 6;
  }

  /** Commands with equal digests have the same account, action, provider, target, consent and command id. */
  lemma DigestDecidesIntent(cfg: Config, i: Intent, j: Intent)
    requires IntentDigest(cfg, i) == IntentDigest(cfg, j)
    ensures i.account == j.account && i.action == j.action && i.provider == j.provider
    ensures i.target == j.target && i.consentId == j.consentId
    ensures i.horizon.commandId == j.horizon.commandId
  {
    var x, y := DigestMembers(cfg, i), DigestMembers(cfg, j);
    DigestPlain(cfg, i);
    DigestPlain(cfg, j);
    CanonicalDecidesEquality(Obj(x), Obj(y));
    DigestAligned(cfg, i, j);
    SameWhenAligned(x, y);
    AlignedStep(x, y);
    AlignedStep(x.rest, y.rest);
    var x2, y2 := x.rest.rest, y.rest.rest;
    AlignedStep(x2, y2);
    ActionNames(i.action, j.action);
    AlignedStep(x2.rest, y2.rest);
    var x4, y4 := x2.rest.rest, y2.rest.rest;
    AlignedStep(x4, y4);
    TargetDecides(i.target, j.target);
    AlignedStep(x4.rest, y4.rest);
    AlignedStep(x4.rest.rest, y4.rest.rest);
  }
}
