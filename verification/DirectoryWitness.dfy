/** Schedules that exist: an undisturbed provision commits, and two attempts on one reservation part ways. */
module DirectoryWitness {
  import opened Common
  import opened CanonicalText
  import opened DirectoryRows
  import opened DirectoryTransactions
  import opened DirectoryStoreLaws
  import opened DirectoryProtocol
  import opened DirectoryReservations

  // One provision: what is asked, answered, drawn and granted.
  datatype Attempt = Attempt(
    raw: Text,
    now: nat,
    account: Text,
    consentId: Text,
    issuer: Text,
    subject: Text,
    provider: Text,
    linkId: Text,
    eventId: Text,
    reservationId: Text
  )

  function AnswerOf(a: Attempt): Answer {
    Approve(a.account, a.consentId, a.issuer, a.subject, a.provider)
  }

  function IntentOf(a: Attempt, horizon: Horizon): Intent {
    ProvisionIntent(horizon, AnswerOf(a))
  }

  const NOTHING: Plan := Plan(None, None, None, [])

  // Valid inputs, limits that allow one command, and rows that fit.
  ghost predicate Fair(cfg: Config, a: Attempt, horizon: Horizon, d: Draft) {
    && ParseHorizon(a.raw, a.now, cfg.replayWindow) == Ok(horizon) && a.now <= MAX_SAFE
    && IntentOk(cfg, IntentOf(a, horizon))
    && IdOk(a.linkId) && IdOk(a.eventId) && Portable(a.reservationId, 128)
    && cfg.maxRows >= 5 && cfg.maxLinksPerAccount >= 1 && cfg.maxReceiptsPerAccount >= 1 && cfg.maxPendingEvents >= 1
    && cfg.maxConcurrentCommands >= 1
    && MakeDraft(cfg, IntentOf(a, horizon), NOTHING, a.now, a.linkId, a.eventId) == Ok(d)
    && Sized(cfg, d)
  }

  // The same on any store, for the plan its preflight makes.
  ghost predicate Ready(cfg: Config, st: Store, a: Attempt, horizon: Horizon, plan: Plan, d: Draft) {
    && ParseHorizon(a.raw, a.now, cfg.replayWindow) == Ok(horizon) && a.now <= MAX_SAFE
    && IntentOk(cfg, IntentOf(a, horizon))
    && IdOk(a.linkId) && IdOk(a.eventId) && Portable(a.reservationId, 128)
    && cfg.maxConcurrentCommands >= 1
    && Preflight(cfg, st, IntentOf(a, horizon)) == Ok(plan) && plan.receipt.None?
    && MakeDraft(cfg, IntentOf(a, horizon), plan, a.now, a.linkId, a.eventId) == Ok(d)
    && Sized(cfg, d)
  }

  function Bystander(): Source {
    Source([], [], [], [], [], [], 0)
  }

  function Preparation(op: nat, h: nat, a: Attempt): seq<Step> {
    [AdmitCommand(op, h, a.raw, a.now, ToProvision), ReceiveAnswer(op, AnswerOf(a)), RunPreflight(op, Committed),
     PriceRows(op, {}, a.now, a.linkId, a.eventId, true), ReserveGrowth(op, Some(a.reservationId)),
     CheckAgain(op, a.now, {}, None, Bystander(), Committed)]
  }

  // A running provision on a handle of its own, with an empty store.
  ghost predicate At(s: State, t: State, op: nat, h: nat, horizon: Horizon, p: Phase, now: nat) {
    && t.store == s.store && t.calls == s.calls && t.handles.Keys == s.handles.Keys + {h}
    && op in t.ops && t.ops == s.ops[op := Op(h, true, Some(horizon), p)]
    && HandleOf(t, h) == Handle(false, now, 1)
    && (forall k: nat | k != h :: HandleOf(t, k) == HandleOf(s, k))
  }

  lemma Admitted(cfg: Config, s: State, op: nat, h: nat, a: Attempt, horizon: Horizon, plan: Plan, d: Draft)
    requires Ready(cfg, s.store, a, horizon, plan, d) && op !in s.ops && h !in s.handles
    ensures At(s, Apply(cfg, s, AdmitCommand(op, h, a.raw, a.now, ToProvision)), op, h, horizon, Opening(ToProvision),
               a.now)
  {
    hide ParseHorizon, IntentOk, MakeDraft, Sized, Preflight;
  }

  // A local step whose move is known.
  lemma Moves(cfg: Config, s: State, t: State, op: nat, h: nat, horizon: Horizon, p: Phase, q: Phase, now: nat,
              step: Step)
    requires At(s, t, op, h, horizon, p, now)
    requires !step.AdmitCommand? && !step.RunCommit? && !step.FinishHold? && !step.AcknowledgeEvent? && !step.Tick?
    requires step.op == op && !q.Ended?
    requires Local(cfg, s.store, Handle(false, now, 1), Op(h, true, Some(horizon), p), step)
             == Some(Move(Handle(false, now, 1), q))
    ensures At(s, Apply(cfg, t, step), op, h, horizon, q, now)
  {
    hide Local;
  }

  lemma Answered(cfg: Config, st: Store, op: nat, a: Attempt, horizon: Horizon, plan: Plan, d: Draft,
                 o: Op)
    requires Ready(cfg, st, a, horizon, plan, d) && o.horizon == Some(horizon) && o.phase == Opening(ToProvision)
    ensures Local(cfg, st, Handle(false, a.now, 1), o, ReceiveAnswer(op, AnswerOf(a)))
            == Some(Move(Handle(false, a.now, 1), Deciding(IntentOf(a, horizon))))
  {
    hide ParseHorizon, IntentOk, MakeDraft, Sized, Preflight;
  }

  lemma Preflighted(cfg: Config, st: Store, op: nat, a: Attempt, horizon: Horizon, plan: Plan, d: Draft,
                    o: Op)
    requires Ready(cfg, st, a, horizon, plan, d) && o.horizon == Some(horizon)
    requires o.phase == Deciding(IntentOf(a, horizon))
    ensures Local(cfg, st, Handle(false, a.now, 1), o, RunPreflight(op, Committed))
            == Some(Move(Handle(false, a.now, 1), Planned(IntentOf(a, horizon), plan)))
  {
    hide Preflight, ParseHorizon, IntentOk, MakeDraft, Sized, IdOk, Portable;
  }

  lemma PricedRows(cfg: Config, st: Store, op: nat, a: Attempt, horizon: Horizon, plan: Plan, d: Draft,
                   o: Op)
    requires Ready(cfg, st, a, horizon, plan, d) && o.horizon == Some(horizon)
    requires o.phase == Planned(IntentOf(a, horizon), plan)
    ensures Local(cfg, st, Handle(false, a.now, 1), o, PriceRows(op, {}, a.now, a.linkId, a.eventId, true))
            == Some(Move(Handle(false, a.now, 1), Priced(IntentOf(a, horizon), plan, d)))
  {
    hide ParseHorizon, IntentOk, MakeDraft, Sized, Preflight, IdOk, Portable;
  }

  lemma ReservedGrowth(cfg: Config, st: Store, op: nat, a: Attempt, horizon: Horizon, plan: Plan, d: Draft,
                       o: Op)
    requires Ready(cfg, st, a, horizon, plan, d) && o.horizon == Some(horizon)
    requires o.phase == Priced(IntentOf(a, horizon), plan, d)
    ensures Local(cfg, st, Handle(false, a.now, 1), o, ReserveGrowth(op, Some(a.reservationId)))
            == Some(Move(Handle(false, a.now, 1),
                         Reserved(IntentOf(a, horizon), plan, Funded(d, a.reservationId))))
  {
    hide ParseHorizon, IntentOk, MakeDraft, Sized, Preflight, IdOk, Portable;
  }

  lemma CheckedAgain(cfg: Config, st: Store, op: nat, a: Attempt, horizon: Horizon, plan: Plan, d: Draft,
                     o: Op)
    requires Ready(cfg, st, a, horizon, plan, d) && o.horizon == Some(horizon)
    requires o.phase == Reserved(IntentOf(a, horizon), plan, Funded(d, a.reservationId))
    ensures Local(cfg, st, Handle(false, a.now, 1), o, CheckAgain(op, a.now, {}, None, Bystander(), Committed))
            == Some(Move(Handle(false, a.now, 1),
                         Checked(IntentOf(a, horizon), plan, Funded(d, a.reservationId), None)))
  {
    hide IntentOk, MakeDraft, Sized, Preflight, IdOk, Portable, ActorRow;
    assert horizon.commandId == a.raw by {
      ParsedRaw(a.raw, a.now, cfg.replayWindow);
    }
    hide ParseHorizon;
  }

  /** On an empty store a provision passes the preflight. */
  lemma EmptyPreflight(cfg: Config, a: Attempt, horizon: Horizon, d: Draft)
    requires Fair(cfg, a, horizon, d)
    ensures Preflight(cfg, EMPTY, IntentOf(a, horizon)) == Ok(NOTHING)
  {
    hide ParseHorizon, IntentOk, MakeDraft, Sized, IdOk, Portable;
  }

  lemma FairReady(cfg: Config, a: Attempt, horizon: Horizon, d: Draft)
    requires Fair(cfg, a, horizon, d)
    ensures Ready(cfg, EMPTY, a, horizon, NOTHING, d)
  {
    hide ParseHorizon, IntentOk, MakeDraft, Sized, IdOk, Portable, Preflight;
    EmptyPreflight(cfg, a, horizon, d);
  }

  lemma ParsedRaw(raw: Text, now: nat, window: nat)
    requires ParseHorizon(raw, now, window).Ok?
    ensures ParseHorizon(raw, now, window).value.commandId == raw
  {
  }

  lemma RunStep(cfg: Config, s: State, steps: seq<Step>, step: Step)
    ensures Run(cfg, s, steps + [step]) == Apply(cfg, Run(cfg, s, steps), step)
    decreases |steps|
  {
    hide Apply;
    if steps == [] {
      assert [step][1..] == [] && steps + [step] == [step];
      assert Run(cfg, s, [step]) == Run(cfg, Apply(cfg, s, step), [step][1..]);
    } else {
      assert (steps + [step])[1..] == steps[1..] + [step];
      RunStep(cfg, Apply(cfg, s, steps[0]), steps[1..], step);
    }
  }

  lemma {:induction false} RunAll(cfg: Config, s: State, before: seq<Step>, after: seq<Step>)
    ensures Run(cfg, s, before + after) == Run(cfg, Run(cfg, s, before), after)
    decreases |after|
  {
    hide Apply;
    if after == [] {
      assert before + after == before;
    } else {
      assert before + after == (before + [after[0]]) + after[1..];
      RunAll(cfg, s, before + [after[0]], after[1..]);
      RunStep(cfg, s, before, after[0]);
    }
  }

  /** A ready provision on an unused handle reaches its commit with nothing held against it. */
  lemma ProvisionPrepares(cfg: Config, s: State, op: nat, h: nat, a: Attempt, horizon: Horizon, plan: Plan,
                          d: Draft)
    requires Ready(cfg, s.store, a, horizon, plan, d) && op !in s.ops && h !in s.handles
    ensures var i := IntentOf(a, horizon);
            At(s, Run(cfg, s, Preparation(op, h, a)), op, h, horizon,
               Checked(i, plan, Funded(d, a.reservationId), None), a.now)
  {
    hide *;
    var i := IntentOf(a, horizon);
    var p := Preparation(op, h, a);
    PreparationSteps(op, h, a);
    var t1 := Apply(cfg, s, p[0]);
    Admitted(cfg, s, op, h, a, horizon, plan, d);
    Answered(cfg, s.store, op, a, horizon, plan, d, Op(h, true, Some(horizon), Opening(ToProvision)));
    Moves(cfg, s, t1, op, h, horizon, Opening(ToProvision), Deciding(i), a.now, p[1]);
    var t2 := Apply(cfg, t1, p[1]);
    Preflighted(cfg, s.store, op, a, horizon, plan, d, Op(h, true, Some(horizon), Deciding(i)));
    Moves(cfg, s, t2, op, h, horizon, Deciding(i), Planned(i, plan), a.now, p[2]);
    var t3 := Apply(cfg, t2, p[2]);
    PricedRows(cfg, s.store, op, a, horizon, plan, d, Op(h, true, Some(horizon), Planned(i, plan)));
    Moves(cfg, s, t3, op, h, horizon, Planned(i, plan), Priced(i, plan, d), a.now, p[3]);
    var t4 := Apply(cfg, t3, p[3]);
    var f := Funded(d, a.reservationId);
    ReservedGrowth(cfg, s.store, op, a, horizon, plan, d, Op(h, true, Some(horizon), Priced(i, plan, d)));
    Moves(cfg, s, t4, op, h, horizon, Priced(i, plan, d), Reserved(i, plan, f), a.now, p[4]);
    var t5 := Apply(cfg, t4, p[4]);
    CheckedAgain(cfg, s.store, op, a, horizon, plan, d, Op(h, true, Some(horizon), Reserved(i, plan, f)));
    Moves(cfg, s, t5, op, h, horizon, Reserved(i, plan, f), Checked(i, plan, f, None), a.now, p[5]);
    RunSix(cfg, s, p);
  }

  lemma PreparationSteps(op: nat, h: nat, a: Attempt)
    ensures var p := Preparation(op, h, a);
            && |p| == 6 && p[0] == AdmitCommand(op, h, a.raw, a.now, ToProvision)
            && p[1] == ReceiveAnswer(op, AnswerOf(a)) && p[2] == RunPreflight(op, Committed)
            && p[3] == PriceRows(op, {}, a.now, a.linkId, a.eventId, true)
            && p[4] == ReserveGrowth(op, Some(a.reservationId))
            && p[5] == CheckAgain(op, a.now, {}, None, Bystander(), Committed)
  {
  }

  lemma RunSix(cfg: Config, s: State, p: seq<Step>)
    requires |p| == 6
    ensures Run(cfg, s, p)
            == Apply(cfg, Apply(cfg, Apply(cfg, Apply(cfg, Apply(cfg, Apply(cfg, s, p[0]), p[1]), p[2]), p[3]), p[4]),
                     p[5])
  {
    hide Apply;
    assert p[..0] == [] && p[..6] == p;
    assert p[..1] == p[..0] + [p[0]] && p[..2] == p[..1] + [p[1]] && p[..3] == p[..2] + [p[2]];
    assert p[..4] == p[..3] + [p[3]] && p[..5] == p[..4] + [p[4]] && p[..6] == p[..5] + [p[5]];
    RunStep(cfg, s, p[..0], p[0]);
    RunStep(cfg, s, p[..1], p[1]);
    RunStep(cfg, s, p[..2], p[2]);
    RunStep(cfg, s, p[..3], p[3]);
    RunStep(cfg, s, p[..4], p[4]);
    RunStep(cfg, s, p[..5], p[5]);
  }

  /** A prepared provision commits on the empty store. */
  lemma EmptyCommits(cfg: Config, a: Attempt, horizon: Horizon, d: Draft)
    requires Fair(cfg, a, horizon, d)
    ensures CommitBody(cfg, EMPTY, false, None, IntentOf(a, horizon), NOTHING, Funded(d, a.reservationId))
            == Ok(Commit(Written(EMPTY, NOTHING, Funded(d, a.reservationId)), d.receipt.result))
  {
    hide Preflight, WriteAll, Fair, Written, Canonical, TargetJson;
    EmptyPreflight(cfg, a, horizon, d);
    var f := Funded(d, a.reservationId);
    EmptyApplies(f);
    WriteAllEffect(EMPTY, NOTHING, f);
  }

  lemma EmptyApplies(f: Draft)
    ensures WritesApply(EMPTY, NOTHING, f)
  {
  }

  /** An undisturbed provision commits: its store is the written one, and its caller is told the original result. */
  lemma ProvisionCommits(cfg: Config, a: Attempt, horizon: Horizon, d: Draft)
    requires Fair(cfg, a, horizon, d)
    ensures var t := Run(cfg, INITIAL, Preparation(0, 0, a) + [RunCommit(0, Committed), FinishHold(0, true)]);
            && t.store == Written(EMPTY, NOTHING, Funded(d, a.reservationId))
            && t.calls == [Settle(a.reservationId, horizon.commandId)]
            && 0 in t.ops && t.ops[0].phase == Ended(Ok(Some(d.receipt.result)), SettledHold(a.reservationId))
  {
    hide *;
    var p := Preparation(0, 0, a);
    var s := Run(cfg, INITIAL, p);
    InitialIsEmpty();
    FairReady(cfg, a, horizon, d);
    ProvisionPrepares(cfg, INITIAL, 0, 0, a, horizon, NOTHING, d);
    EmptyCommits(cfg, a, horizon, d);
    CommitAndSettle(cfg, s, a, horizon, d);
    RunAll(cfg, INITIAL, p, [RunCommit(0, Committed), FinishHold(0, true)]);
    RunTwo(cfg, s, RunCommit(0, Committed), FinishHold(0, true));
  }

  lemma InitialIsEmpty()
    ensures INITIAL.store == EMPTY && INITIAL.ops == map[] && INITIAL.handles == map[] && INITIAL.calls == []
  {
  }

  lemma RunTwo(cfg: Config, s: State, a: Step, b: Step)
    ensures Run(cfg, s, [a, b]) == Apply(cfg, Apply(cfg, s, a), b)
  {
    hide Apply;
    assert [a] + [b] == [a, b] && [] + [a] == [a];
    RunStep(cfg, s, [], a);
    RunStep(cfg, s, [a], b);
  }

  lemma CommitAndSettle(cfg: Config, s: State, a: Attempt, horizon: Horizon, d: Draft)
    requires var i, f := IntentOf(a, horizon), Funded(d, a.reservationId);
             && At(INITIAL, s, 0, 0, horizon, Checked(i, NOTHING, f, None), a.now)
             && CommitBody(cfg, EMPTY, false, None, i, NOTHING, f)
                == Ok(Commit(Written(EMPTY, NOTHING, f), d.receipt.result))
    ensures var t := Apply(cfg, Apply(cfg, s, RunCommit(0, Committed)), FinishHold(0, true));
            && t.store == Written(EMPTY, NOTHING, Funded(d, a.reservationId))
            && t.calls == [Settle(a.reservationId, horizon.commandId)]
            && 0 in t.ops && t.ops[0].phase == Ended(Ok(Some(d.receipt.result)), SettledHold(a.reservationId))
  {
    hide CommitBody, Written;
  }

  /**
   With one reservation granted to two attempts at the same command, on two handles, a schedule from the empty
   store settles and releases it.
   */
  lemma SharedReservationReached(cfg: Config, a: Attempt, horizon: Horizon, d: Draft) returns (steps: seq<Step>)
    requires Fair(cfg, a, horizon, d)
    ensures var t := Run(cfg, INITIAL, steps);
            && Settle(a.reservationId, horizon.commandId) in t.calls
            && ReleaseConfirmedAbort(a.reservationId, horizon.commandId) in t.calls
  {
    hide *;
    var p, q := Preparation(0, 0, a), Preparation(1, 1, a);
    var s1 := Run(cfg, INITIAL, p);
    InitialIsEmpty();
    FairReady(cfg, a, horizon, d);
    ProvisionPrepares(cfg, INITIAL, 0, 0, a, horizon, NOTHING, d);
    OnlyOne(s1, horizon, IntentOf(a, horizon), Funded(d, a.reservationId), a.now);
    var s2 := Run(cfg, s1, q);
    ProvisionPrepares(cfg, s1, 1, 1, a, horizon, NOTHING, d);
    EmptyCommits(cfg, a, horizon, d);
    BothChecked(cfg, s1, s2, a, horizon, d);
    SharedReservationIsReleased(cfg, s2, 0, 1);
    var last := [RunCommit(1, ConfirmedAbort), RunCommit(0, Committed), FinishHold(1, true), FinishHold(0, true)];
    RunAll(cfg, INITIAL, p, q);
    RunAll(cfg, INITIAL, p + q, last);
    steps := p + q + last;
  }

  lemma OnlyOne(s: State, horizon: Horizon, i: Intent, f: Draft, now: nat)
    requires At(INITIAL, s, 0, 0, horizon, Checked(i, NOTHING, f, None), now)
    ensures s.store == EMPTY && 1 !in s.ops && 1 !in s.handles
  {
  }

  lemma BothChecked(cfg: Config, s: State, t: State, a: Attempt, horizon: Horizon, d: Draft)
    requires var i, f := IntentOf(a, horizon), Funded(d, a.reservationId);
             && At(INITIAL, s, 0, 0, horizon, Checked(i, NOTHING, f, None), a.now)
             && At(s, t, 1, 1, horizon, Checked(i, NOTHING, f, None), a.now)
             && CommitBody(cfg, EMPTY, false, None, i, NOTHING, f).Ok?
    ensures 0 in t.ops && 1 in t.ops && t.ops[0].phase.Checked? && t.ops[1].phase.Checked?
    ensures t.ops[0].horizon == Some(t.ops[0].phase.intent.horizon) == Some(horizon)
    ensures t.ops[1].horizon == Some(t.ops[1].phase.intent.horizon) == Some(horizon)
    ensures Holding(t.ops[0].phase) == Holding(t.ops[1].phase) == Some(a.reservationId)
    ensures BodyOf(cfg, t, t.ops[0]).Ok?
  {
    hide CommitBody;
    assert HandleOf(t, 0) == HandleOf(s, 0);
  }

  /*** A concrete instance ***/

  // A nonce or identifier of 43 equal letters.
  function Letters(letter: CodeUnit): Text {
    seq(43, i => letter)
  }

  lemma LettersOk(letter: CodeUnit)
    requires letter in [65, 69, 73]
    ensures IdOk(Letters(letter))
  {
    var ends := Ascii("AEIMQUYcgkosw048");
    assert ends[0] == 65 && ends[1] == 69 && ends[2] == 73;
  }

  lemma OneLetter()
    ensures Portable([65], 128) && TextOk([65], 2048) && TextOk([65], 512) && Portable([65], 80) && AccountOk([65])
  {
    PortableSize([65]);
  }

  // A command id issued at time 0.
  function SomeRaw(letter: CodeUnit): Text {
    Decimal(0) + [46] + Letters(letter)
  }

  lemma RawOk(letter: CodeUnit, now: nat, window: nat)
    requires letter in [65, 69, 73] && now < window <= MAX_SAFE
    ensures ParseHorizon(SomeRaw(letter), now, window) == Ok(Horizon(SomeRaw(letter), 0, window))
    ensures TextOk(SomeRaw(letter), 60)
  {
    hide ParseHorizon, IdOk, Utf8, Escape;
    LettersOk(letter);
    assert SomeRaw(letter) == [48, 46] + Letters(letter);
    PortableSize(SomeRaw(letter));
    HorizonParses(0, Letters(letter), now, window);
  }

  function SomeAttempt(): Attempt {
    Attempt(SomeRaw(65), 0, [65], [65], [65], [65], [65], Letters(65), Letters(65), [65])
  }

  lemma IntentFair(cfg: Config, horizon: Horizon)
    requires horizon == Horizon(SomeRaw(65), 0, 1)
    ensures IntentOk(cfg, IntentOf(SomeAttempt(), horizon))
  {
    hide Portable, TextOk, AccountOk, SomeRaw;
    RawOk(65, 0, 1);
    OneLetter();
  }

  // An account without a revision and a target that does not exist always give a draft.
  lemma FirstDraft(cfg: Config, horizon: Horizon)
    ensures MakeDraft(cfg, IntentOf(SomeAttempt(), horizon), NOTHING, 0, Letters(65), Letters(65)).Ok?
  {
    hide IntentDigest;
  }

  /** The conditions of the lemmas above can be met. */
  lemma FairInstance() returns (cfg: Config, horizon: Horizon, d: Draft)
    ensures Fair(cfg, SomeAttempt(), horizon, d)
  {
    hide ParseHorizon, IntentOk, IdOk, Portable, MakeDraft, Sized, SomeRaw, Letters;
    horizon := Horizon(SomeRaw(65), 0, 1);
    RawOk(65, 0, 1);
    LettersOk(65);
    OneLetter();
    var i := IntentOf(SomeAttempt(), horizon);
    var small := Config([65], 1, 1, 1, 0, 1, 1, 5);
    FirstDraft(small, horizon);
    d := MakeDraft(small, i, NOTHING, 0, Letters(65), Letters(65)).value;
    cfg := small.(maxRecordBytes := RowsSize(small, d));
    SameSize(small, cfg, d);
    SameDraft(small, cfg, i);
    RowsFit(cfg, d);
    IntentFair(cfg, horizon);
  }

  lemma SameSize(small: Config, cfg: Config, d: Draft)
    requires cfg.namespace == small.namespace
    ensures RowsSize(cfg, d) == RowsSize(small, d)
  {
    hide Utf8, Canonical;
  }

  function RowsSize(cfg: Config, d: Draft): nat {
    Utf8(Canonical(IdentityJson(d.identity)))
    + Utf8(Canonical(RevisionJson(cfg.namespace, d.receipt.account, d.revision)))
    + Utf8(Canonical(CommandJson(d.receipt)))
    + Utf8(Canonical(ConsentJson(d.consent)))
    + Utf8(Canonical(EventJson(d.event)))
  }

  lemma RowsFit(cfg: Config, d: Draft)
    requires cfg.maxRecordBytes == RowsSize(cfg, d)
    ensures Sized(cfg, d)
  {
    hide Utf8, Canonical;
  }

  lemma SameDraft(cfg: Config, larger: Config, i: Intent)
    requires larger == cfg.(maxRecordBytes := larger.maxRecordBytes)
    ensures MakeDraft(cfg, i, NOTHING, 0, Letters(65), Letters(65))
            == MakeDraft(larger, i, NOTHING, 0, Letters(65), Letters(65))
  {
    assert DigestMembers(cfg, i) == DigestMembers(larger, i);
  }

  /** Without fresh reservation ids the separation of settled and released ones fails in a concrete schedule. */
  lemma SharedReservationExample() returns (cfg: Config, steps: seq<Step>, id: Text, commandId: Text)
    ensures var calls := Run(cfg, INITIAL, steps).calls;
            Settle(id, commandId) in calls && ReleaseConfirmedAbort(id, commandId) in calls
  {
    hide *;
    var horizon, d;
    cfg, horizon, d := FairInstance();
    steps := SharedReservationReached(cfg, SomeAttempt(), horizon, d);
    id, commandId := SomeAttempt().reservationId, horizon.commandId;
  }
}
