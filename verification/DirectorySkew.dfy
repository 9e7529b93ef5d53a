/** Two clocks that disagree leave a row that no read accepts: a schedule that unlinks on the clock that is behind. */
module DirectorySkew {
  import opened Common
  import opened CanonicalText
  import opened DirectoryRows
  import opened DirectoryTransactions
  import opened DirectoryStoreLaws
  import opened DirectoryProtocol
  import opened DirectoryInvariants
  import opened DirectoryReadability
  import opened DirectoryWitness
  import opened DirectoryLinking
  import DirectoryTheorems

  /*** The concrete schedule ***/

  // A provision and a link of one account at time 10, and an unlink of the first link on a handle whose clock says 5.
  const ACCOUNT: Text := [65]
  const FIRST: Attempt :=
    Attempt(SomeRaw(65), 10, ACCOUNT, [65], [65], [65], [65], Letters(65), Letters(65), [65])
  const SESSION: Source := Source(ACCOUNT, [65], [65], [65], [65], Letters(65), 1)
  const SECOND: Attach :=
    Attach(SomeRaw(69), 10, SESSION, [65], [66], [65], [66], Letters(69), Letters(69), [66])
  const THIRD: Detach := Detach(SomeRaw(73), 5, SESSION, Letters(65), [67], {Letters(69)}, Letters(73), [67])

  const LINK_A: IdentityRow := IdentityRow([65], [65], [65], [65], ACCOUNT, Letters(65), true, 1, 10, None)
  const LINK_B: IdentityRow := IdentityRow([65], [65], [66], [65], ACCOUNT, Letters(69), true, 1, 10, None)
  const LINKER: Actor := Actor(SESSION, LINK_A, 1)
  const OPERATOR: Actor := Actor(SESSION, LINK_A, 2)

  function Within(letter: CodeUnit): Horizon {
    Horizon(SomeRaw(letter), 0, 100)
  }

  function Lines(target: Option<IdentityRow>, revision: Option<nat>): Plan {
    Plan(target, revision, None, [])
  }

  // The drafts of the three commands.
  function Draft1(cfg: Config): Result<Draft, Code> {
    MakeDraft(cfg, IntentOf(FIRST, Within(65)), Lines(None, None), 10, Letters(65), Letters(65))
  }

  function Draft2(cfg: Config): Result<Draft, Code> {
    MakeDraft(cfg, Attaching(SECOND, Within(69), LINKER), Lines(None, Some(1)), 10, Letters(69), Letters(69))
  }

  function Draft3(cfg: Config): Result<Draft, Code> {
    MakeDraft(cfg, Detaching(THIRD, Within(73), OPERATOR, LINK_A), Lines(Some(LINK_A), Some(2)), 5, Letters(65),
              Letters(73))
  }

  predicate Limits(cfg: Config) {
    cfg == Config([65], 10, 10, 10, cfg.maxRecordBytes, 10, 100, 100)
  }

  lemma DraftsMade(cfg: Config)
    requires Limits(cfg)
    ensures Draft1(cfg).Ok? && Draft2(cfg).Ok? && Draft3(cfg).Ok?
    ensures Draft1(cfg).value.identity == LINK_A && Draft2(cfg).value.identity == LINK_B
    ensures Draft3(cfg).value.identity == LINK_A.(active := false, generation := 2, unlinkedAt := Some(5))
  {
    hide IntentDigest, SomeRaw, Letters;
  }

  predicate Roomy(cfg: Config) {
    && Limits(cfg) && Draft1(cfg).Ok? && Draft2(cfg).Ok? && Draft3(cfg).Ok?
    && Sized(cfg, Draft1(cfg).value) && Sized(cfg, Draft2(cfg).value) && Sized(cfg, Draft3(cfg).value)
  }

  lemma RoomyExists() returns (cfg: Config)
    ensures Roomy(cfg)
  {
    hide Sized, RowsSize, MakeDraft;
    var small := Config([65], 10, 10, 10, 0, 10, 100, 100);
    DraftsMade(small);
    var a, b, c := Draft1(small).value, Draft2(small).value, Draft3(small).value;
    cfg := small.(maxRecordBytes := RowsSize(small, a) + RowsSize(small, b) + RowsSize(small, c));
    SameRows(cfg, small, IntentOf(FIRST, Within(65)), Lines(None, None), Lines(None, None), 10, Letters(65),
             Letters(65));
    SameRows(cfg, small, Attaching(SECOND, Within(69), LINKER), Lines(None, Some(1)), Lines(None, Some(1)), 10,
             Letters(69), Letters(69));
    SameRows(cfg, small, Detaching(THIRD, Within(73), OPERATOR, LINK_A), Lines(Some(LINK_A), Some(2)),
             Lines(Some(LINK_A), Some(2)), 5, Letters(65), Letters(73));
    RowsFitWithin(small, cfg, a);
    RowsFitWithin(small, cfg, b);
    RowsFitWithin(small, cfg, c);
  }

  lemma RowsFitWithin(small: Config, cfg: Config, d: Draft)
    requires cfg.namespace == small.namespace && RowsSize(small, d) <= cfg.maxRecordBytes
    ensures Sized(cfg, d)
  {
    hide Utf8, Canonical;
  }

  /*** The stores of the schedule ***/

  predicate Records(st: Store, commandIds: seq<Text>, consentIds: seq<Text>, eventIds: seq<Text>) {
    && |st.commands| == |commandIds| && |st.consents| == |consentIds| && |st.events| == |eventIds|
    && (forall k | 0 <= k < |commandIds| :: st.commands[k].commandId == commandIds[k])
    && (forall k | 0 <= k < |consentIds| :: st.consents[k].consentId == consentIds[k])
    && (forall k | 0 <= k < |eventIds| :: st.events[k].eventId == eventIds[k])
  }

  predicate OneLink(st: Store) {
    && st.identities == [LINK_A] && st.revisions == map[ACCOUNT := 1]
    && Records(st, [SomeRaw(65)], [[65]], [Letters(65)])
  }

  predicate TwoLinks(st: Store) {
    && st.identities == [LINK_A, LINK_B] && st.revisions == map[ACCOUNT := 2]
    && Records(st, [SomeRaw(65), SomeRaw(69)], [[65], [66]], [Letters(65), Letters(69)])
  }

  lemma LettersDiffer(a: CodeUnit, b: CodeUnit)
    requires a != b
    ensures Letters(a) != Letters(b) && SomeRaw(a) != SomeRaw(b)
  {
    hide Decimal;
    var n := |Decimal(0)| + 1;
    assert Letters(a)[0] == a && Letters(b)[0] == b;
    assert SomeRaw(a)[n] == a && SomeRaw(b)[n] == b;
  }

  lemma {:induction false} FewOwned(rows: seq<IdentityRow>, account: Text)
    ensures |Owned(rows, account)| <= |rows|
  {
    if rows != [] {
      FewOwned(rows[1..], account);
    }
  }

  lemma {:induction false} FewReceipts(rows: seq<CommandRow>, account: Text)
    ensures Receipts(rows, account) <= |rows|
  {
    if rows != [] {
      FewReceipts(rows[1..], account);
    }
  }

  lemma {:induction false} FewPending(rows: seq<EventRow>)
    ensures Pending(rows) <= |rows|
  {
    if rows != [] {
      FewPending(rows[1..]);
    }
  }

  lemma SmallAdmits(cfg: Config, st: Store, newLink: bool)
    requires Limits(cfg) && |st.identities| <= 2 && |st.revisions| <= 1 && |st.commands| <= 2
    requires |st.consents| <= 2 && |st.events| <= 2
    ensures HasRoom(cfg, st, ACCOUNT, newLink) && |Owned(st.identities, ACCOUNT)| <= cfg.maxLinksPerAccount
  {
    FewOwned(st.identities, ACCOUNT);
    FewReceipts(st.commands, ACCOUNT);
    FewPending(st.events);
  }

  lemma LinksOrdered(cfg: Config, steps: seq<Step>)
    requires forall k | 0 <= k < |Run(cfg, INITIAL, steps).store.identities| ::
               InOrder(Run(cfg, INITIAL, steps).store.identities[k])
    ensures RowsValid(cfg, Run(cfg, INITIAL, steps).store)
    ensures UniqueIdentities(Run(cfg, INITIAL, steps).store.identities)
  {
    hide Run, IdentityRowOk, CommandRowOk, ConsentRowOk, EventFits, InOrder, Fits, Inv;
    RowsReadableIff(cfg, steps);
    DirectoryTheorems.Reachable(cfg, steps);
    DirectoryTheorems.InvRows(cfg, Run(cfg, INITIAL, steps));
  }

  lemma Inputs(cfg: Config, letter: CodeUnit, now: nat)
    requires Limits(cfg) && letter in [65, 69, 73] && now <= 10
    ensures ParseHorizon(SomeRaw(letter), now, cfg.replayWindow) == Ok(Within(letter)) && TextOk(SomeRaw(letter), 60)
    ensures IdOk(Letters(letter))
  {
    hide ParseHorizon, IdOk, TextOk, SomeRaw, Letters;
    RawOk(letter, now, 100);
    LettersOk(letter);
  }

  lemma UnitOk(unit: CodeUnit)
    requires 65 <= unit <= 90
    ensures Portable([unit], 128) && TextOk([unit], 2048) && TextOk([unit], 512) && Portable([unit], 80)
    ensures AccountOk([unit])
  {
    PortableSize([unit]);
  }

  lemma IntentsOk(cfg: Config)
    requires Limits(cfg)
    ensures IntentOk(cfg, IntentOf(FIRST, Within(65))) && IntentOk(cfg, Attaching(SECOND, Within(69), LINKER))
    ensures IntentOk(cfg, Detaching(THIRD, Within(73), OPERATOR, LINK_A))
  {
    hide Portable, TextOk, AccountOk, SomeRaw, Letters, ParseHorizon, IdOk;
    Inputs(cfg, 65, 0);
    Inputs(cfg, 69, 0);
    Inputs(cfg, 73, 0);
    UnitOk(65);
    UnitOk(66);
    UnitOk(67);
  }

  /*** The first provision ***/

  function Steps1(): seq<Step> {
    Preparation(0, 0, FIRST) + [RunCommit(0, Committed)]
  }

  lemma FirstFair(cfg: Config)
    requires Roomy(cfg)
    ensures Fair(cfg, FIRST, Within(65), Draft1(cfg).value)
  {
    hide ParseHorizon, IntentOk, IdOk, Portable, MakeDraft, Sized, SomeRaw, Letters, TextOk;
    Inputs(cfg, 65, 10);
    UnitOk(65);
    IntentsOk(cfg);
  }

  lemma FirstStore(cfg: Config)
    requires Roomy(cfg)
    ensures OneLink(Written(EMPTY, NOTHING, Funded(Draft1(cfg).value, [65])))
  {
    hide IntentDigest, Sized, SomeRaw, Letters;
    DraftsMade(cfg);
  }

  lemma AfterFirst(cfg: Config)
    requires Roomy(cfg)
    ensures var s := Run(cfg, INITIAL, Steps1());
            OneLink(s.store) && s.ops.Keys == {0} && s.handles.Keys == {0}
  {
    hide Run, Fair, Ready, Written, At, CommitBody, OneLink, Draft1, Roomy, MakeDraft, ParseHorizon;
    RoomyDrafts(cfg);
    var d := Draft1(cfg).value;
    var i := IntentOf(FIRST, Within(65));
    FirstFair(cfg);
    FairReady(cfg, FIRST, Within(65), d);
    ProvisionPrepares(cfg, INITIAL, 0, 0, FIRST, Within(65), NOTHING, d);
    EmptyCommits(cfg, FIRST, Within(65), d);
    CommitsTo(cfg, INITIAL, Preparation(0, 0, FIRST), 0, 0, Within(65), i, NOTHING, Funded(d, [65]), 10);
    FirstStore(cfg);
  }

  lemma RoomyDrafts(cfg: Config)
    requires Roomy(cfg)
    ensures Draft1(cfg).Ok? && Draft2(cfg).Ok? && Draft3(cfg).Ok? && Limits(cfg)
  {
  }

  /*** The link ***/

  function Steps2(): seq<Step> {
    Attachment(1, 1, SECOND) + [RunCommit(1, Committed)]
  }

  lemma SecondReads(cfg: Config, st: Store)
    requires OneLink(st) && RowsValid(cfg, st) && UniqueIdentities(st.identities)
    ensures ActorRow(cfg, st, SESSION) == Ok(LINKER)
  {
    hide IdentityRowOk, CommandRowOk, ConsentRowOk, SomeRaw, Letters, Row;
    assert st.identities[0] == LINK_A;
    DirectoryTheorems.RowOfKey(st, [65], [65], 0);
  }

  // The link meets what an undisturbed link asks for.
  lemma SecondAttaches(cfg: Config, st: Store)
    requires Roomy(cfg) && OneLink(st) && RowsValid(cfg, st) && UniqueIdentities(st.identities)
    ensures Attaches(cfg, st, SECOND, Within(69), LINKER, None, Draft2(cfg).value)
  {
    hide ParseHorizon, IntentOk, IdOk, Portable, MakeDraft, Sized, SomeRaw, Letters, TextOk, RowsValid, HasRoom,
         UniqueIdentities, Preflight, Owned, ActorRow;
    Inputs(cfg, 69, 10);
    UnitOk(66);
    IntentsOk(cfg);
    LettersDiffer(65, 69);
    SmallAdmits(cfg, st, true);
    SecondReads(cfg, st);
  }

  lemma SecondWrites(cfg: Config, st: Store, plan: Plan)
    requires Roomy(cfg) && OneLink(st) && RowsValid(cfg, st)
    requires plan.target.None? && plan.revision == Some(1)
    ensures var f := Funded(Draft2(cfg).value, [66]);
            && WritesApply(st, plan, f) && StoredLink(cfg, st, f.identity.linkId) == Ok(None)
            && TwoLinks(Written(st, plan, f))
  {
    hide IntentDigest, Sized, SomeRaw, Letters, IdentityRowOk, CommandRowOk, ConsentRowOk;
    LettersDiffer(65, 69);
    DraftsMade(cfg);
  }

  lemma AfterSecond(cfg: Config, s: State)
    requires Roomy(cfg) && OneLink(s.store) && RowsValid(cfg, s.store) && UniqueIdentities(s.store.identities)
    requires s.ops.Keys == {0} && s.handles.Keys == {0}
    ensures var t := Run(cfg, s, Steps2());
            TwoLinks(t.store) && t.ops.Keys == {0, 1} && t.handles.Keys == {0, 1}
  {
    hide *;
    RoomyDrafts(cfg);
    SecondSteps();
    SecondKeys(s);
    var d := Draft2(cfg).value;
    var f, i := Funded(d, [66]), Attaching(SECOND, Within(69), LINKER);
    SecondAttaches(cfg, s.store);
    var plan := AttachPrepares(cfg, s, 1, 1, SECOND, Within(69), LINKER, None, d);
    FirstRevision(s.store);
    SecondWrites(cfg, s.store, plan);
    StandingCommit(cfg, s.store, i, plan, f);
    CommitsTo(cfg, s, Attachment(1, 1, SECOND), 1, 1, Within(69), i, plan, f, 10);
  }

  lemma SecondSteps()
    ensures Steps2() == Attachment(1, 1, SECOND) + [RunCommit(1, Committed)]
    ensures SECOND.now == 10 && SECOND.reservationId == [66] && SECOND.source.account == ACCOUNT
  {
    hide Attachment;
  }

  lemma SecondKeys(s: State)
    requires s.ops.Keys == {0} && s.handles.Keys == {0}
    ensures 1 !in s.ops && 1 !in s.handles
  {
  }

  lemma FirstRevision(st: Store)
    requires OneLink(st)
    ensures ACCOUNT in st.revisions && st.revisions[ACCOUNT] == 1
  {
  }

  /*** The unlink ***/

  function Steps3(): seq<Step> {
    Detachment(2, 2, THIRD) + [RunCommit(2, Committed)]
  }

  lemma LinkOfId(st: Store, k: nat)
    requires UniqueIdentities(st.identities) && k < |st.identities|
    ensures Row(st.identities, (r: IdentityRow) => r.linkId == st.identities[k].linkId) == Some(st.identities[k])
  {
    var found := Row(st.identities, (r: IdentityRow) => r.linkId == st.identities[k].linkId);
    assert found.Some?;
    var j :| 0 <= j < |st.identities| && st.identities[j] == found.value;
    assert j == k;
  }

  lemma ThirdReads(cfg: Config, st: Store)
    requires TwoLinks(st) && RowsValid(cfg, st) && UniqueIdentities(st.identities)
    ensures ActorRow(cfg, st, SESSION) == Ok(OPERATOR) && StoredLink(cfg, st, Letters(65)) == Ok(Some(LINK_A))
  {
    hide IdentityRowOk, CommandRowOk, ConsentRowOk, SomeRaw, Letters, Row;
    assert st.identities[0] == LINK_A;
    LinkOfId(st, 0);
    DirectoryTheorems.RowOfKey(st, [65], [65], 0);
  }

  lemma OtherLinkLeft(rows: seq<IdentityRow>)
    requires rows == [LINK_A, LINK_B]
    ensures UsableLeft(Owned(rows, ACCOUNT), Letters(65), {Letters(69)})
  {
    hide Letters;
    LettersDiffer(65, 69);
    assert rows[1..] == [LINK_B] && rows[1..][1..] == [];
    assert Owned(rows[1..][1..], ACCOUNT) == [];
    assert Owned(rows[1..], ACCOUNT) == [LINK_B];
    assert Owned(rows, ACCOUNT) == [LINK_A] + [LINK_B];
    assert Owned(rows, ACCOUNT)[1] == LINK_B;
  }

  lemma ThirdPlan(cfg: Config, st: Store) returns (plan: Plan)
    requires Roomy(cfg) && TwoLinks(st) && RowsValid(cfg, st) && UniqueIdentities(st.identities)
    ensures Detaches(cfg, st, THIRD, Within(73), OPERATOR, LINK_A, plan, Draft3(cfg).value)
    ensures plan.target == Some(LINK_A) && plan.revision == Some(2)
  {
    hide ParseHorizon, IntentOk, IdOk, Portable, MakeDraft, Sized, SomeRaw, Letters, TextOk, RowsValid, HasRoom,
         UniqueIdentities, Preflight, Owned, ActorRow, StoredLink, UsableLeft;
    Inputs(cfg, 73, 5);
    Inputs(cfg, 65, 5);
    UnitOk(67);
    IntentsOk(cfg);
    LettersDiffer(65, 73);
    LettersDiffer(69, 73);
    SmallAdmits(cfg, st, false);
    ThirdReads(cfg, st);
    OtherLinkLeft(st.identities);
    var i := Detaching(THIRD, Within(73), OPERATOR, LINK_A);
    assert LINK_A in st.identities;
    plan := PlanFor(cfg, st, i, Some(LINK_A));
    SameRows(cfg, cfg, i, plan, Lines(Some(LINK_A), Some(2)), 5, Letters(65), Letters(73));
  }

  lemma ThirdWrites(cfg: Config, st: Store, plan: Plan)
    requires Roomy(cfg) && TwoLinks(st) && UniqueIdentities(st.identities)
    requires plan.target == Some(LINK_A) && plan.revision == Some(2)
    ensures var f := Funded(Draft3(cfg).value, [67]);
            && WritesApply(st, plan, f) && f.identity.linkId == Letters(65)
            && 0 < |Written(st, plan, f).identities|
            && Written(st, plan, f).identities[0]
               == LINK_A.(active := false, generation := 2, unlinkedAt := Some(5))
  {
    hide IntentDigest, Sized, SomeRaw, Letters;
    LettersDiffer(65, 73);
    LettersDiffer(69, 73);
    DraftsMade(cfg);
    var f := Funded(Draft3(cfg).value, [67]);
    assert st.identities[0] == LINK_A;
    assert KeyedBy(st.identities[0], f.identity.issuer, f.identity.subject);
  }

  lemma AfterThird(cfg: Config, s: State)
    requires Roomy(cfg) && TwoLinks(s.store) && RowsValid(cfg, s.store) && UniqueIdentities(s.store.identities)
    requires s.ops.Keys == {0, 1} && s.handles.Keys == {0, 1}
    ensures var t := Run(cfg, s, Steps3());
            0 < |t.store.identities|
            && t.store.identities[0] == LINK_A.(active := false, generation := 2, unlinkedAt := Some(5))
  {
    hide *;
    RoomyDrafts(cfg);
    ThirdSteps();
    var d := Draft3(cfg).value;
    var f, i := Funded(d, [67]), Detaching(THIRD, Within(73), OPERATOR, LINK_A);
    var plan := ThirdPlan(cfg, s.store);
    ThirdWrites(cfg, s.store, plan);
    ThirdReads(cfg, s.store);
    DetachPreflight(cfg, s.store, THIRD, Within(73), OPERATOR, LINK_A, plan, d);
    DetachPrepares(cfg, s, 2, 2, THIRD, Within(73), OPERATOR, LINK_A, plan, d);
    StandingCommit(cfg, s.store, i, plan, f);
    CommitsTo(cfg, s, Detachment(2, 2, THIRD), 2, 2, Within(73), i, plan, f, 5);
  }

  lemma ThirdSteps()
    ensures Steps3() == Detachment(2, 2, THIRD) + [RunCommit(2, Committed)]
    ensures THIRD.now == 5 && THIRD.reservationId == [67]
  {
    hide Detachment;
  }

  /**
   A schedule whose last command runs on a handle five milliseconds behind leaves an identity row that its own
   directory refuses to read: looking the identity or the link up fails.
   */
  lemma SkewedUnlink() returns (cfg: Config, steps: seq<Step>)
    ensures var st := Run(cfg, INITIAL, steps).store;
            && 0 < |st.identities| && !IdentityRowOk(cfg, st.identities[0])
            && StoredLink(cfg, st, st.identities[0].linkId).Err?
            && StoredIdentity(cfg, st, st.identities[0].issuer, st.identities[0].subject).Err?
  {
    hide *;
    cfg := RoomyExists();
    InitialIsEmpty();
    AfterFirst(cfg);
    OneOrdered(cfg);
    AfterSecond(cfg, Run(cfg, INITIAL, Steps1()));
    RunAll(cfg, INITIAL, Steps1(), Steps2());
    TwoOrdered(cfg);
    AfterThird(cfg, Run(cfg, INITIAL, Steps1() + Steps2()));
    RunAll(cfg, INITIAL, Steps1() + Steps2(), Steps3());
    steps := Steps1() + Steps2() + Steps3();
    Unreadable(cfg, steps);
  }

  lemma OneOrdered(cfg: Config)
    requires OneLink(Run(cfg, INITIAL, Steps1()).store)
    ensures RowsValid(cfg, Run(cfg, INITIAL, Steps1()).store)
    ensures UniqueIdentities(Run(cfg, INITIAL, Steps1()).store.identities)
  {
    hide Run, RowsValid, UniqueIdentities, Letters, SomeRaw, Steps1;
    LinksOrdered(cfg, Steps1());
  }

  lemma TwoOrdered(cfg: Config)
    requires TwoLinks(Run(cfg, INITIAL, Steps1() + Steps2()).store)
    ensures RowsValid(cfg, Run(cfg, INITIAL, Steps1() + Steps2()).store)
    ensures UniqueIdentities(Run(cfg, INITIAL, Steps1() + Steps2()).store.identities)
  {
    hide Run, RowsValid, UniqueIdentities, Letters, SomeRaw, Steps1, Steps2;
    LinksOrdered(cfg, Steps1() + Steps2());
  }

  lemma Unreadable(cfg: Config, steps: seq<Step>)
    requires var st := Run(cfg, INITIAL, steps).store;
             && 0 < |st.identities|
             && st.identities[0] == LINK_A.(active := false, generation := 2, unlinkedAt := Some(5))
    ensures var st := Run(cfg, INITIAL, steps).store;
            && !IdentityRowOk(cfg, st.identities[0])
            && StoredLink(cfg, st, st.identities[0].linkId).Err?
            && StoredIdentity(cfg, st, st.identities[0].issuer, st.identities[0].subject).Err?
  {
    hide Run, TextOk, Portable, AccountOk, IdOk, Fits, Inv, Row, Letters;
    var st := Run(cfg, INITIAL, steps).store;
    DirectoryTheorems.Reachable(cfg, steps);
    DirectoryTheorems.InvRows(cfg, Run(cfg, INITIAL, steps));
    LinkOfId(st, 0);
    DirectoryTheorems.RowOfKey(st, st.identities[0].issuer, st.identities[0].subject, 0);
  }
}
