/** What a command commits is what was asked and answered, and what a repeated command is told. */
module DirectoryRequests {
  import opened Common
  import opened CanonicalText
  import opened DirectoryRows
  import opened DirectoryTransactions
  import opened DirectoryStoreLaws
  import opened DirectoryProtocol
  import opened DirectoryInvariants
  import opened DirectoryReservations
  import opened DirectoryTheorems

  /*** The moves of one operation ***/

  predicate LocalKind(step: Step) {
    !step.AdmitCommand? && !step.RunCommit? && !step.FinishHold? && !step.AcknowledgeEvent? && !step.Tick?
  }

  // What one step makes of operation op: nothing, its local move, or what follows its commit or its closing call.
  lemma OwnMove(cfg: Config, s: State, step: Step, op: nat) returns (p: Phase)
    requires op in s.ops
    ensures var o := s.ops[op];
            var t := Apply(cfg, s, step);
            && op in t.ops && t.ops[op] == o.(phase := p)
            && (|| p == o.phase
                || (LocalKind(step) && step.op == op
                    && Local(cfg, s.store, HandleOf(s, o.handle), o, step).Some?
                    && p == Local(cfg, s.store, HandleOf(s, o.handle), o, step).value.phase)
                || (o.phase.Checked? && Past(p))
                || (Closing(o).Some? && p.Ended?))
  {
    hide Local, Closing, Holding, Past, AdmitStep, CommitStep, FinishStep, TickStep, Acknowledged;
    p := s.ops[op].phase;
    match step {
      case AdmitCommand(q, h, raw, now, request) =>
        if q !in s.ops {
          AdmittedOperation(cfg, s, q, h, raw, now, request);
        } else {
          AdmittedTwice(cfg, s, q, h, raw, now, request);
        }
      case RunCommit(q, outcome) =>
        p := CommitMove(cfg, s, q, outcome, op);
      case FinishHold(q, acknowledged) =>
        p := FinishMove(s, q, acknowledged, op);
      case AcknowledgeEvent(_) =>
      case Tick(h, now) => TickedOps(s, h, now);
      case _ =>
        p := LocalMoveOf(cfg, s, step, op);
    }
  }

  lemma CommitMove(cfg: Config, s: State, q: nat, outcome: Outcome, op: nat) returns (p: Phase)
    requires op in s.ops
    ensures var t := CommitStep(cfg, s, q, outcome);
            && op in t.ops && t.ops[op] == s.ops[op].(phase := p)
            && (p == s.ops[op].phase || (s.ops[op].phase.Checked? && Past(p)))
  {
    p := s.ops[op].phase;
    if q in s.ops && s.ops[q].phase.Checked? {
      hide CommitStep, Past, Holding;
      var next := CommitPhase(cfg, s, q, outcome);
      if q == op {
        p := next;
      }
    }
  }

  lemma FinishMove(s: State, q: nat, acknowledged: bool, op: nat) returns (p: Phase)
    requires op in s.ops
    ensures var t := FinishStep(s, q, acknowledged);
            && op in t.ops && t.ops[op] == s.ops[op].(phase := p)
            && (p == s.ops[op].phase || (Closing(s.ops[op]).Some? && p.Ended?))
  {
    p := FinishStep(s, q, acknowledged).ops[op].phase;
  }

  lemma LocalMoveOf(cfg: Config, s: State, step: Step, op: nat) returns (p: Phase)
    requires op in s.ops && LocalKind(step)
    ensures var o := s.ops[op];
            var t := LocalStep(cfg, s, step);
            && op in t.ops && t.ops[op] == o.(phase := p)
            && (|| p == o.phase
                || (step.op == op && Local(cfg, s.store, HandleOf(s, o.handle), o, step).Some?
                    && p == Local(cfg, s.store, HandleOf(s, o.handle), o, step).value.phase))
  {
    hide Local;
    p := LocalStep(cfg, s, step).ops[op].phase;
  }

  /*** From the request to the intent ***/

  // The request is still open, or the command has ended.
  predicate Asked(s: State, op: nat, request: Request) {
    op in s.ops && ((s.ops[op].phase == Opening(request) && s.ops[op].horizon.Some?) || s.ops[op].phase.Ended?)
  }

  // The command of the operation is the one it was admitted with.
  predicate Carries(s: State, op: nat, raw: Text) {
    op in s.ops && (s.ops[op].horizon.Some? ==> s.ops[op].horizon.value.commandId == raw)
  }

  // The session is that of b.
  predicate Guards(s: State, op: nat, request: Request, b: Source) {
    op in s.ops
    && match s.ops[op].phase
       case Guarding(r, source) => r == request && source == b && s.ops[op].horizon.Some?
       case Guarded(r, actor) => r == request && actor.source == b && s.ops[op].horizon.Some?
       case Ended(_, _) => true
       case _ => false
  }

  // The operation commits for intent i, or will not commit any more.
  predicate Serves(s: State, op: nat, i: Intent) {
    op in s.ops
    && match s.ops[op].phase
       case Deciding(j) => j == i
       case Planned(j, _) => j == i
       case Priced(j, _, _) => j == i
       case Reserved(j, _, _) => j == i
       case Checked(j, _, _, _) => j == i
       case Settling(_, _) => true
       case Releasing(_, _) => true
       case Replaying(_) => true
       case Ended(_, _) => true
       case _ => false
  }

  lemma ClosesLate(o: Op)
    requires Closing(o).Some?
    ensures o.phase.Settling? || o.phase.Releasing? || o.phase.Replaying?
  {
  }

  lemma LocalAsked(cfg: Config, st: Store, h: Handle, o: Op, step: Step)
    requires o.phase.Opening? && !step.ReceiveAnswer?
    ensures Local(cfg, st, h, o, step).None?
  {
  }

  lemma LocalGuards(cfg: Config, st: Store, h: Handle, o: Op, step: Step)
    requires Local(cfg, st, h, o, step).Some? && !step.ResolveIntent?
    requires o.phase.Guarding? || o.phase.Guarded?
    ensures o.phase.Guarding?
    ensures var p := Local(cfg, st, h, o, step).value.phase;
            || p.Ended?
            || (p.Guarded? && p.request == o.phase.request && p.actor.source == o.phase.source)
  {
    hide StoredIdentity, StoredRevision;
  }

  lemma LocalServes(cfg: Config, st: Store, h: Handle, o: Op, step: Step)
    requires Local(cfg, st, h, o, step).Some?
    requires o.phase.Deciding? || o.phase.Planned? || o.phase.Priced? || o.phase.Reserved? || o.phase.Checked?
    ensures var p := Local(cfg, st, h, o, step).value.phase;
            match p
            case Planned(j, _) => j == o.phase.intent
            case Priced(j, _, _) => j == o.phase.intent
            case Reserved(j, _, _) => j == o.phase.intent
            case Checked(j, _, _, _) => j == o.phase.intent
            case Replaying(_) => true
            case Ended(_, _) => true
            case _ => false
  {
    hide Preflight, MakeDraft, Sized, MethodLeft, Rechecked, IdOk, Portable;
  }

  lemma StepAsked(cfg: Config, s: State, step: Step, op: nat, request: Request)
    requires Asked(s, op, request) && !(step.ReceiveAnswer? && step.op == op)
    ensures Asked(Apply(cfg, s, step), op, request)
  {
    hide Apply, Local, Closing;
    var o := s.ops[op];
    var p := OwnMove(cfg, s, step, op);
    if o.phase.Opening? && !step.ReceiveAnswer? {
      LocalAsked(cfg, s.store, HandleOf(s, o.handle), o, step);
    }
    LateOrEnded(cfg, s, step, op);
  }

  // Ended operations make no move, and only late ones are closed.
  lemma LateOrEnded(cfg: Config, s: State, step: Step, op: nat)
    requires op in s.ops
    ensures Closing(s.ops[op]).Some? ==>
              s.ops[op].phase.Settling? || s.ops[op].phase.Releasing? || s.ops[op].phase.Replaying?
    ensures var o := s.ops[op];
            (o.phase.Settling? || o.phase.Releasing? || o.phase.Replaying? || o.phase.Ended?) ==>
              Local(cfg, s.store, HandleOf(s, o.handle), o, step).None?
  {
    hide OnAnswer, OnGuard, OnResolve, OnPreflight, OnPrice, OnReserve, Rechecked, OnLookUp;
    if Closing(s.ops[op]).Some? {
      ClosesLate(s.ops[op]);
    }
  }

  lemma StepGuards(cfg: Config, s: State, step: Step, op: nat, request: Request, b: Source)
    requires Guards(s, op, request, b) && !(step.ResolveIntent? && step.op == op)
    ensures Guards(Apply(cfg, s, step), op, request, b)
  {
    hide Apply, Local, Closing;
    var o := s.ops[op];
    var h := HandleOf(s, o.handle);
    var p := OwnMove(cfg, s, step, op);
    LateOrEnded(cfg, s, step, op);
    if Local(cfg, s.store, h, o, step).Some? && LocalKind(step) && step.op == op && !o.phase.Ended? {
      LocalGuards(cfg, s.store, h, o, step);
    }
  }

  lemma StepServes(cfg: Config, s: State, step: Step, op: nat, i: Intent)
    requires Serves(s, op, i)
    ensures Serves(Apply(cfg, s, step), op, i)
  {
    hide Apply, Local, Closing;
    var o := s.ops[op];
    var h := HandleOf(s, o.handle);
    var p := OwnMove(cfg, s, step, op);
    LateOrEnded(cfg, s, step, op);
    if Local(cfg, s.store, h, o, step).Some? {
      LocalServes(cfg, s.store, h, o, step);
    }
  }

  // No answer for operation op comes in these steps.
  predicate Unanswered(steps: seq<Step>, op: nat) {
    forall k | 0 <= k < |steps| :: !(steps[k].ReceiveAnswer? && steps[k].op == op)
  }

  predicate Unresolved(steps: seq<Step>, op: nat) {
    forall k | 0 <= k < |steps| :: !(steps[k].ResolveIntent? && steps[k].op == op)
  }

  lemma {:induction false} RunAsked(cfg: Config, s: State, steps: seq<Step>, op: nat, request: Request)
    requires Asked(s, op, request) && Unanswered(steps, op)
    ensures Asked(Run(cfg, s, steps), op, request)
    decreases |steps|
  {
    hide Apply, Asked;
    if steps != [] {
      StepAsked(cfg, s, steps[0], op, request);
      RunAsked(cfg, Apply(cfg, s, steps[0]), steps[1..], op, request);
    }
  }

  lemma {:induction false} RunGuards(cfg: Config, s: State, steps: seq<Step>, op: nat, request: Request, b: Source)
    requires Guards(s, op, request, b) && Unresolved(steps, op)
    ensures Guards(Run(cfg, s, steps), op, request, b)
    decreases |steps|
  {
    hide Apply, Guards;
    if steps != [] {
      StepGuards(cfg, s, steps[0], op, request, b);
      RunGuards(cfg, Apply(cfg, s, steps[0]), steps[1..], op, request, b);
    }
  }

  lemma {:induction false} RunServes(cfg: Config, s: State, steps: seq<Step>, op: nat, i: Intent)
    requires Serves(s, op, i)
    ensures Serves(Run(cfg, s, steps), op, i)
    decreases |steps|
  {
    hide Apply, Serves;
    if steps != [] {
      StepServes(cfg, s, steps[0], op, i);
      RunServes(cfg, Apply(cfg, s, steps[0]), steps[1..], op, i);
    }
  }

  /*** What the answers make of a request ***/

  lemma AdmittedAsks(cfg: Config, s: State, op: nat, h: nat, raw: Text, now: nat, request: Request)
    requires op !in s.ops
    ensures Asked(AdmitStep(cfg, s, op, h, raw, now, request), op, request)
  {
    hide ParseHorizon;
  }

  lemma AdmittedCarries(cfg: Config, s: State, op: nat, h: nat, raw: Text, now: nat, request: Request)
    requires op !in s.ops
    ensures Carries(AdmitStep(cfg, s, op, h, raw, now, request), op, raw)
  {
    hide TextOk, Digits, IdOk, DecimalValue;
  }

  lemma {:induction false} RunCarries(cfg: Config, s: State, steps: seq<Step>, op: nat, raw: Text)
    requires Carries(s, op, raw)
    ensures Carries(Run(cfg, s, steps), op, raw)
    decreases |steps|
  {
    hide Apply, Local, Closing;
    if steps != [] {
      var p := OwnMove(cfg, s, steps[0], op);
      RunCarries(cfg, Apply(cfg, s, steps[0]), steps[1..], op, raw);
    }
  }

  lemma SessionGuards(cfg: Config, s: State, op: nat, request: Request, b: Source)
    requires Asked(s, op, request) && (request.ToLink? || request.ToUnlink?)
    ensures Guards(Apply(cfg, s, ReceiveAnswer(op, Session(b))), op, request, b)
  {
    hide Update;
    var o := s.ops[op];
    var move := Local(cfg, s.store, HandleOf(s, o.handle), o, ReceiveAnswer(op, Session(b)));
    if move.Some? {
      MovedOps(s, op, move.value);
    }
  }

  // An intent with these contents, or no intent any more.
  ghost predicate Intends(s: State, op: nat, action: Action, account: Text, consentId: Text, target: Target) {
    exists i: Intent ::
      && Serves(s, op, i)
      && i.action == action && i.account == account && i.consentId == consentId && i.target == target
  }

  ghost predicate IntendsFor(s: State, op: nat, action: Action, account: Text, consentId: Text, target: Target,
                             provider: Text)
  {
    exists i: Intent ::
      && Serves(s, op, i) && i.provider == provider
      && i.action == action && i.account == account && i.consentId == consentId && i.target == target
  }

  lemma LinkIntends(cfg: Config, s: State, op: nat, b: Source, outcome: Outcome, a: Answer)
    requires Guards(s, op, ToLink, b) && s.ops[op].phase.Guarded? && a.Approve?
    ensures var t := Apply(cfg, s, ResolveIntent(op, outcome, a));
            IntendsFor(t, op, Link, b.account, a.consentId, ByIdentity(a.issuer, a.subject), a.provider)
  {
    hide Update, IntentOk;
    var o := s.ops[op];
    var h := HandleOf(s, o.handle);
    var i := Intent(Link, o.horizon.value, b.account, a.consentId, ByIdentity(a.issuer, a.subject), a.provider,
                    Some(o.phase.actor));
    var move := Local(cfg, s.store, h, o, ResolveIntent(op, outcome, a));
    assert move == Some(Decide(cfg, h, i));
    MovedOps(s, op, move.value);
    assert Serves(Apply(cfg, s, ResolveIntent(op, outcome, a)), op, i);
  }

  lemma UnlinkIntends(cfg: Config, s: State, op: nat, linkId: Text, b: Source, outcome: Outcome, a: Answer)
    requires Guards(s, op, ToUnlink(linkId), b) && s.ops[op].phase.Guarded? && a.Approve?
    ensures var t := Apply(cfg, s, ResolveIntent(op, outcome, a));
            Intends(t, op, Unlink, b.account, a.consentId, ByLink(linkId))
  {
    hide Update, IntentOk, StoredLink;
    var o := s.ops[op];
    var h := HandleOf(s, o.handle);
    var row := Atomic(StoredLink(cfg, s.store, linkId), outcome);
    var provider := if row.Value? && row.value.Some? then row.value.value.provider else [];
    var i := Intent(Unlink, o.horizon.value, b.account, a.consentId, ByLink(linkId), provider, Some(o.phase.actor));
    var move := Local(cfg, s.store, h, o, ResolveIntent(op, outcome, a));
    assert move.Some? && (move.value.phase == Deciding(i) || move.value.phase.Ended?);
    MovedOps(s, op, move.value);
    assert Serves(Apply(cfg, s, ResolveIntent(op, outcome, a)), op, i);
  }

  lemma ProvisionIntends(cfg: Config, s: State, op: nat, a: Answer)
    requires Asked(s, op, ToProvision) && a.Approve?
    ensures var t := Apply(cfg, s, ReceiveAnswer(op, a));
            IntendsFor(t, op, Provision, a.account, a.consentId, ByIdentity(a.issuer, a.subject), a.provider)
  {
    hide Update, IntentOk;
    var o := s.ops[op];
    var h := HandleOf(s, o.handle);
    var horizon := if o.horizon.Some? then o.horizon.value else Horizon([], 0, 0);
    var i := Intent(Provision, horizon, a.account, a.consentId, ByIdentity(a.issuer, a.subject), a.provider, None);
    var move := Local(cfg, s.store, h, o, ReceiveAnswer(op, a));
    if move.Some? {
      MovedOps(s, op, move.value);
    }
    assert Serves(Apply(cfg, s, ReceiveAnswer(op, a)), op, i);
  }

  /*** What is committed ***/

  // The row opened for an account, and the records of the command that did it.
  ghost predicate Opens(cfg: Config, s: Store, t: Store, action: Action, account: Text, issuer: Text, subject: Text,
                        provider: Text, consentId: Text, commandId: Text, k: nat)
  {
    && k < |t.identities| && RowMoved(s, t, k) && Accounted(cfg, s, t, action, account, consentId, commandId)
    && var r := t.identities[k];
    && r.issuer == issuer && r.subject == subject && r.provider == provider && r.account == account && r.active
  }

  ghost predicate Closes(cfg: Config, s: Store, t: Store, account: Text, linkId: Text, consentId: Text,
                         commandId: Text, k: nat)
  {
    && k < |t.identities| && RowMoved(s, t, k) && Accounted(cfg, s, t, Unlink, account, consentId, commandId)
    && var r := t.identities[k];
    && r.linkId == linkId && r.account == account && !r.active
  }

  // Row k is new at its first generation, or has changed its status and its generation; the other rows stand.
  ghost predicate RowMoved(s: Store, t: Store, k: nat)
    requires k < |t.identities|
  {
    && (forall j | 0 <= j < |s.identities| && j != k :: j < |t.identities| && t.identities[j] == s.identities[j])
    && (if k < |s.identities|
        then |t.identities| == |s.identities| && t.identities[k].generation == s.identities[k].generation + 1
             && t.identities[k].active != s.identities[k].active
        else |t.identities| == k + 1 == |s.identities| + 1 && t.identities[k].generation == 1)
  }

  // One receipt and one consumed consent more.
  ghost predicate Accounted(cfg: Config, s: Store, t: Store, action: Action, account: Text, consentId: Text,
                            commandId: Text)
  {
    var n, m := |s.commands|, |s.consents|;
    && |t.commands| == n + 1 && t.commands[n].commandId == commandId
    && t.commands[n].account == account && t.commands[n].action == action
    && |t.consents| == m + 1 && t.consents[m].consentId == consentId && t.consents[m].commandId == commandId
    && t.consents[m].namespace == cfg.namespace
  }

  lemma ServedIntent(s: State, op: nat, i: Intent)
    requires Serves(s, op, i) && s.ops[op].phase.Checked?
    ensures s.ops[op].phase.intent == i
  {
  }

  // The commit of an operation that serves an intent opens or closes the row the intent names.
  lemma ServedCommit(cfg: Config, s: State, op: nat, i: Intent, raw: Text, last: Outcome) returns (k: nat)
    requires Inv(cfg, s) && Serves(s, op, i) && Carries(s, op, raw) && CommitStep(cfg, s, op, last).store != s.store
    ensures var t := CommitStep(cfg, s, op, last).store;
            && (i.target.ByIdentity? ==>
                  Opens(cfg, s.store, t, i.action, i.account, i.target.issuer, i.target.subject, i.provider,
                        i.consentId, raw, k))
            && (i.target.ByLink? ==>
                  Closes(cfg, s.store, t, i.account, i.target.linkId, i.consentId, raw, k))
  {
    hide Inv, CommitStep, Serves, RecordsFulfil, RowFulfils, Opens, Closes, Prepared;
    StoreChanged(cfg, s, op, last);
    ServedIntent(s, op, i);
    CheckedPhase(cfg, s, op);
    k := WrittenIntent(cfg, s, op, last);
    PreparedFits(cfg, s.store, i, s.ops[op].phase.plan, s.ops[op].phase.draft);
    FulfilsMoves(cfg, s.store, CommitStep(cfg, s, op, last).store, i, s.ops[op].phase.draft.receipt.reservationId, k);
  }

  lemma PreparedFits(cfg: Config, st: Store, i: Intent, plan: Plan, d: Draft)
    requires Prepared(cfg, st, i, plan, d)
    ensures i.action == Unlink <==> i.target.ByLink?
  {
    hide Shape, OtherActive, PlanHolds, TargetAllowed;
  }

  lemma FulfilsMoves(cfg: Config, s: Store, t: Store, i: Intent, reservationId: Text, k: nat)
    requires RowFulfils(s, t, i, k) && (i.action == Unlink <==> i.target.ByLink?)
    requires RecordsFulfil(cfg, s, t, i, reservationId, t.identities[k].linkId)
    ensures i.target.ByIdentity? ==>
              Opens(cfg, s, t, i.action, i.account, i.target.issuer, i.target.subject, i.provider, i.consentId,
                    i.horizon.commandId, k)
    ensures i.target.ByLink? ==>
              Closes(cfg, s, t, i.account, i.target.linkId, i.consentId, i.horizon.commandId, k)
  {
    hide IntentDigest;
  }

  /*** From the request to the commit ***/

  // The state after operation op was admitted with a request, answered with session b, and m2 has run.
  function UpToGuard(cfg: Config, s: State, op: nat, h: nat, raw: Text, now: nat, request: Request, m1: seq<Step>,
                     b: Source, m2: seq<Step>): State
  {
    Run(cfg, Apply(cfg, Run(cfg, Apply(cfg, s, AdmitCommand(op, h, raw, now, request)), m1),
                   ReceiveAnswer(op, Session(b))), m2)
  }

  lemma Guarded(cfg: Config, s: State, op: nat, h: nat, raw: Text, now: nat, request: Request, m1: seq<Step>,
                b: Source, m2: seq<Step>)
    requires Inv(cfg, s) && op !in s.ops && (request.ToLink? || request.ToUnlink?)
    requires Unanswered(m1, op) && Unresolved(m2, op)
    ensures var t := UpToGuard(cfg, s, op, h, raw, now, request, m1, b, m2);
            Inv(cfg, t) && Guards(t, op, request, b) && Carries(t, op, raw)
  {
    hide *;
    var s1 := Apply(cfg, s, AdmitCommand(op, h, raw, now, request));
    AdmitApplied(cfg, s, op, h, raw, now, request);
    StepKeeps(cfg, s, AdmitCommand(op, h, raw, now, request));
    RunAsked(cfg, s1, m1, op, request);
    RunKeeps(cfg, s1, m1);
    RunCarries(cfg, s1, m1, op, raw);
    var s2 := Run(cfg, s1, m1);
    var answered := ReceiveAnswer(op, Session(b));
    var s3 := Apply(cfg, s2, answered);
    SessionGuards(cfg, s2, op, request, b);
    StepKeeps(cfg, s2, answered);
    OneCarries(cfg, s2, answered, op, raw);
    RunGuards(cfg, s3, m2, op, request, b);
    RunKeeps(cfg, s3, m2);
    RunCarries(cfg, s3, m2, op, raw);
    UpToGuardIs(cfg, s, op, h, raw, now, request, m1, b, m2);
  }

  lemma UpToGuardIs(cfg: Config, s: State, op: nat, h: nat, raw: Text, now: nat, request: Request, m1: seq<Step>,
                    b: Source, m2: seq<Step>)
    ensures UpToGuard(cfg, s, op, h, raw, now, request, m1, b, m2)
            == Run(cfg, Apply(cfg, Run(cfg, Apply(cfg, s, AdmitCommand(op, h, raw, now, request)), m1),
                              ReceiveAnswer(op, Session(b))), m2)
  {
    hide Run, Apply;
  }

  lemma AdmitApplied(cfg: Config, s: State, op: nat, h: nat, raw: Text, now: nat, request: Request)
    requires op !in s.ops
    ensures Asked(Apply(cfg, s, AdmitCommand(op, h, raw, now, request)), op, request)
    ensures Carries(Apply(cfg, s, AdmitCommand(op, h, raw, now, request)), op, raw)
  {
    hide AdmitStep, Asked, Carries;
    AdmittedAsks(cfg, s, op, h, raw, now, request);
    AdmittedCarries(cfg, s, op, h, raw, now, request);
  }

  lemma OneCarries(cfg: Config, s: State, step: Step, op: nat, raw: Text)
    requires Carries(s, op, raw)
    ensures Carries(Apply(cfg, s, step), op, raw)
  {
    hide Apply, Local, Closing;
    var p := OwnMove(cfg, s, step, op);
  }

  // What an operation that intends something commits after any further schedule.
  lemma IntendedCommit(cfg: Config, s: State, op: nat, i: Intent, raw: Text, steps: seq<Step>, last: Outcome)
    returns (k: nat)
    requires Inv(cfg, s) && Serves(s, op, i) && Carries(s, op, raw)
    requires CommitStep(cfg, Run(cfg, s, steps), op, last).store != Run(cfg, s, steps).store
    ensures var u := Run(cfg, s, steps);
            var t := CommitStep(cfg, u, op, last).store;
            && (i.target.ByIdentity? ==>
                  Opens(cfg, u.store, t, i.action, i.account, i.target.issuer, i.target.subject, i.provider,
                        i.consentId, raw, k))
            && (i.target.ByLink? ==>
                  Closes(cfg, u.store, t, i.account, i.target.linkId, i.consentId, raw, k))
  {
    hide *;
    RunServes(cfg, s, steps, op, i);
    RunCarries(cfg, s, steps, op, raw);
    RunKeeps(cfg, s, steps);
    k := ServedCommit(cfg, Run(cfg, s, steps), op, i, raw, last);
  }

  /**
   A link that was asked for with the session of b and approved for an identity commits, whatever happens in between,
   only by opening the row of that identity for the account of b, and it consumes the consent of the approval.
   */
  lemma LinkCommitsTheAnswer(cfg: Config, before: seq<Step>, op: nat, h: nat, raw: Text, now: nat, m1: seq<Step>,
                             b: Source, m2: seq<Step>, outcome: Outcome, a: Answer, m3: seq<Step>, last: Outcome)
    returns (k: nat)
    requires op !in Run(cfg, INITIAL, before).ops && Unanswered(m1, op) && Unresolved(m2, op) && a.Approve?
    requires var t := UpToGuard(cfg, Run(cfg, INITIAL, before), op, h, raw, now, ToLink, m1, b, m2);
             var u := Run(cfg, Apply(cfg, t, ResolveIntent(op, outcome, a)), m3);
             && op in t.ops && t.ops[op].phase.Guarded?
             && CommitStep(cfg, u, op, last).store != u.store
    ensures var t := UpToGuard(cfg, Run(cfg, INITIAL, before), op, h, raw, now, ToLink, m1, b, m2);
            var u := Run(cfg, Apply(cfg, t, ResolveIntent(op, outcome, a)), m3);
            Opens(cfg, u.store, CommitStep(cfg, u, op, last).store, Link, b.account, a.issuer, a.subject, a.provider,
                  a.consentId, raw, k)
  {
    hide *;
    var s := Run(cfg, INITIAL, before);
    Reachable(cfg, before);
    Guarded(cfg, s, op, h, raw, now, ToLink, m1, b, m2);
    var t := UpToGuard(cfg, s, op, h, raw, now, ToLink, m1, b, m2);
    var step := ResolveIntent(op, outcome, a);
    LinkIntends(cfg, t, op, b, outcome, a);
    StepKeeps(cfg, t, step);
    OneCarries(cfg, t, step, op, raw);
    var i := IntentFor(Apply(cfg, t, step), op, Link, b.account, a.consentId, ByIdentity(a.issuer, a.subject),
                       a.provider);
    k := IntendedCommit(cfg, Apply(cfg, t, step), op, i, raw, m3, last);
  }

  lemma IntentFor(s: State, op: nat, action: Action, account: Text, consentId: Text, target: Target, provider: Text)
    returns (i: Intent)
    requires IntendsFor(s, op, action, account, consentId, target, provider)
    ensures Serves(s, op, i) && i.provider == provider
    ensures i.action == action && i.account == account && i.consentId == consentId && i.target == target
  {
    hide Serves;
    i :| && Serves(s, op, i) && i.provider == provider
         && i.action == action && i.account == account && i.consentId == consentId && i.target == target;
  }

  lemma IntentOn(s: State, op: nat, action: Action, account: Text, consentId: Text, target: Target)
    returns (i: Intent)
    requires Intends(s, op, action, account, consentId, target)
    ensures Serves(s, op, i)
    ensures i.action == action && i.account == account && i.consentId == consentId && i.target == target
  {
    hide Serves;
    i :| && Serves(s, op, i)
         && i.action == action && i.account == account && i.consentId == consentId && i.target == target;
  }

  /** An unlink closes the link it was asked for, of the account of the session it was asked with. */
  lemma UnlinkCommitsTheAnswer(cfg: Config, before: seq<Step>, op: nat, h: nat, raw: Text, now: nat, linkId: Text,
                               m1: seq<Step>, b: Source, m2: seq<Step>, outcome: Outcome, a: Answer, m3: seq<Step>,
                               last: Outcome)
    returns (k: nat)
    requires op !in Run(cfg, INITIAL, before).ops && Unanswered(m1, op) && Unresolved(m2, op) && a.Approve?
    requires var t := UpToGuard(cfg, Run(cfg, INITIAL, before), op, h, raw, now, ToUnlink(linkId), m1, b, m2);
             var u := Run(cfg, Apply(cfg, t, ResolveIntent(op, outcome, a)), m3);
             && op in t.ops && t.ops[op].phase.Guarded?
             && CommitStep(cfg, u, op, last).store != u.store
    ensures var t := UpToGuard(cfg, Run(cfg, INITIAL, before), op, h, raw, now, ToUnlink(linkId), m1, b, m2);
            var u := Run(cfg, Apply(cfg, t, ResolveIntent(op, outcome, a)), m3);
            Closes(cfg, u.store, CommitStep(cfg, u, op, last).store, b.account, linkId, a.consentId, raw, k)
  {
    hide *;
    var s := Run(cfg, INITIAL, before);
    Reachable(cfg, before);
    Guarded(cfg, s, op, h, raw, now, ToUnlink(linkId), m1, b, m2);
    var t := UpToGuard(cfg, s, op, h, raw, now, ToUnlink(linkId), m1, b, m2);
    var step := ResolveIntent(op, outcome, a);
    UnlinkIntends(cfg, t, op, linkId, b, outcome, a);
    StepKeeps(cfg, t, step);
    OneCarries(cfg, t, step, op, raw);
    var i := IntentOn(Apply(cfg, t, step), op, Unlink, b.account, a.consentId, ByLink(linkId));
    k := IntendedCommit(cfg, Apply(cfg, t, step), op, i, raw, m3, last);
  }

  /** A provision opens the identity that was approved, for the account that was approved. */
  lemma ProvisionCommitsTheAnswer(cfg: Config, before: seq<Step>, op: nat, h: nat, raw: Text, now: nat,
                                  m1: seq<Step>, a: Answer, m3: seq<Step>, last: Outcome)
    returns (k: nat)
    requires op !in Run(cfg, INITIAL, before).ops && Unanswered(m1, op) && a.Approve?
    requires var t := Run(cfg, Apply(cfg, Run(cfg, INITIAL, before), AdmitCommand(op, h, raw, now, ToProvision)), m1);
             var u := Run(cfg, Apply(cfg, t, ReceiveAnswer(op, a)), m3);
             CommitStep(cfg, u, op, last).store != u.store
    ensures var t := Run(cfg, Apply(cfg, Run(cfg, INITIAL, before), AdmitCommand(op, h, raw, now, ToProvision)), m1);
            var u := Run(cfg, Apply(cfg, t, ReceiveAnswer(op, a)), m3);
            Opens(cfg, u.store, CommitStep(cfg, u, op, last).store, Provision, a.account, a.issuer, a.subject,
                  a.provider, a.consentId, raw, k)
  {
    hide *;
    var s := Run(cfg, INITIAL, before);
    Reachable(cfg, before);
    var s1 := Apply(cfg, s, AdmitCommand(op, h, raw, now, ToProvision));
    AdmitApplied(cfg, s, op, h, raw, now, ToProvision);
    StepKeeps(cfg, s, AdmitCommand(op, h, raw, now, ToProvision));
    RunAsked(cfg, s1, m1, op, ToProvision);
    RunKeeps(cfg, s1, m1);
    RunCarries(cfg, s1, m1, op, raw);
    var t := Run(cfg, s1, m1);
    var step := ReceiveAnswer(op, a);
    ProvisionIntends(cfg, t, op, a);
    StepKeeps(cfg, t, step);
    OneCarries(cfg, t, step, op, raw);
    var i := IntentFor(Apply(cfg, t, step), op, Provision, a.account, a.consentId, ByIdentity(a.issuer, a.subject),
                       a.provider);
    k := IntendedCommit(cfg, Apply(cfg, t, step), op, i, raw, m3, last);
  }
}
