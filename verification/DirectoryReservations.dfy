/** The fate of every reservation, who may write, and which caller sees the original result. */
module DirectoryReservations {
  import opened Common
  import opened CanonicalText
  import opened DirectoryRows
  import opened DirectoryTransactions
  import opened DirectoryStoreLaws
  import opened DirectoryProtocol
  import opened DirectoryInvariants

  /*** Shapes of steps ***/

  // The reservation an operation is working with.
  function Holding(p: Phase): Option<Text> {
    match p
    case Reserved(_, _, d) => Some(d.receipt.reservationId)
    case Checked(_, _, d, _) => Some(d.receipt.reservationId)
    case Settling(id, _) => Some(id)
    case Releasing(id, _) => Some(id)
    case Ended(_, SettledHold(id)) => Some(id)
    case Ended(_, ReleasedHold(id)) => Some(id)
    case Ended(_, KeptHold(id)) => Some(id)
    case _ => None
  }

  predicate Unspent(p: Phase) {
    p.Reserved? || p.Checked?
  }

  /** A local move obtains a reservation only from the capacity port and keeps it for the commit. */
  lemma LocalHolds(cfg: Config, st: Store, h: Handle, o: Op, step: Step)
    requires Local(cfg, st, h, o, step).Some?
    ensures var p := Local(cfg, st, h, o, step).value.phase;
            && (Holding(p).Some? ==> Unspent(p))
            && (p.Reserved? ==> step.ReserveGrowth? && step.id == Holding(p))
            && (p.Checked? ==> Unspent(o.phase) && Holding(p) == Holding(o.phase))
  {
    hide Preflight, ActorRow, StoredLink, IntentOk, LookUpBody, MakeDraft, Sized, MethodLeft, Rechecked;
  }

  lemma AdmittedOperation(cfg: Config, s: State, op: nat, h: nat, raw: Text, now: nat, request: Request)
    requires op !in s.ops
    ensures var t := AdmitStep(cfg, s, op, h, raw, now, request);
            && t.store == s.store && t.aborts == s.aborts && t.granted == s.granted && t.calls == s.calls
            && op in t.ops && t.ops == s.ops[op := t.ops[op]]
            && (t.ops[op].phase.Opening? || (t.ops[op].phase.Ended? && t.ops[op].phase.hold.NoHold?
                                             && t.ops[op].phase.outcome.Err?))
  {
    hide ParseHorizon;
  }

  /*** A reservation is never dropped ***/

  predicate Past(p: Phase) {
    p.Settling? || p.Releasing? || p.Ended?
  }

  // Operation op is still as it was, or its commit transaction has run, and it works with the same reservation.
  predicate Follows(s: State, op: nat, o: Op) {
    && op in s.ops && s.ops[op].handle == o.handle && s.ops[op].horizon == o.horizon
    && Holding(s.ops[op].phase) == Holding(o.phase)
    && (o.phase.Checked? ==> s.ops[op] == o || Past(s.ops[op].phase))
    && (Past(o.phase) ==> Past(s.ops[op].phase))
  }

  /** From a granted reservation a local move leads to the commit transaction only. */
  lemma LocalKeepsHold(cfg: Config, st: Store, h: Handle, o: Op, step: Step)
    requires Local(cfg, st, h, o, step).Some? && Holding(o.phase).Some?
    ensures var p := Local(cfg, st, h, o, step).value.phase;
            o.phase.Reserved? && p.Checked? && Holding(p) == Holding(o.phase)
  {
    hide Preflight, ActorRow, StoredLink, IntentOk, LookUpBody, MakeDraft, Sized, MethodLeft, Rechecked;
  }

  lemma LocalFollows(cfg: Config, s: State, step: Step, op: nat)
    requires op in s.ops && Holding(s.ops[op].phase).Some? && !step.AcknowledgeEvent? && !step.Tick?
    ensures Follows(LocalStep(cfg, s, step), op, s.ops[op])
  {
    hide Local, Holding;
    if step.op == op {
      var o := s.ops[op];
      var move := Local(cfg, s.store, HandleOf(s, o.handle), o, step);
      if move.Some? {
        LocalKeepsHold(cfg, s.store, HandleOf(s, o.handle), o, step);
      }
    }
  }

  lemma MovedOps(s: State, op: nat, m: Move)
    requires op in s.ops
    ensures Update(s, op, m).ops == s.ops[op := s.ops[op].(phase := m.phase)]
  {
  }

  // What the commit transaction makes of its operation, and of no other.
  lemma CommitPhase(cfg: Config, s: State, op: nat, outcome: Outcome) returns (p: Phase)
    requires op in s.ops && s.ops[op].phase.Checked?
    ensures CommitStep(cfg, s, op, outcome).ops == s.ops[op := s.ops[op].(phase := p)]
    ensures Past(p) && Holding(p) == Holding(s.ops[op].phase)
  {
    hide BodyOf, Update;
    var o := s.ops[op];
    var id, commandId := o.phase.draft.receipt.reservationId, o.phase.intent.horizon.commandId;
    var h, body := HandleOf(s, o.handle), BodyOf(cfg, s, o);
    match Atomic(body, outcome)
    case Value(c) =>
      p := Settling(id, c.result);
      MovedOps(s.(store := c.store), op, Move(h, p));
    case Refused(error) =>
      p := Releasing(id, error);
      MovedOps(s.(aborts := s.aborts + {(id, commandId)}), op, Move(h, p));
    case Lost =>
      p := Ended(Err(CommitUnknown), KeptHold(id));
      var applied := outcome.Unknown? && outcome.applied && body.Ok?;
      MovedOps(if applied then s.(store := body.value.store) else s, op, Lose(h, KeptHold(id)));
  }

  lemma CommitFollows(cfg: Config, s: State, step: Step, op: nat)
    requires op in s.ops && Holding(s.ops[op].phase).Some? && step.RunCommit?
    ensures Follows(Apply(cfg, s, step), op, s.ops[op])
  {
    hide Holding;
    if step.op in s.ops && s.ops[step.op].phase.Checked? {
      hide CommitStep;
      var p := CommitPhase(cfg, s, step.op, step.outcome);
    }
  }

  lemma FinishFollows(s: State, step: Step, op: nat)
    requires op in s.ops && Holding(s.ops[op].phase).Some? && step.FinishHold?
    ensures Follows(FinishStep(s, step.op, step.acknowledged), op, s.ops[op])
  {
  }

  lemma AdmitFollows(cfg: Config, s: State, step: Step, op: nat)
    requires op in s.ops && step.AdmitCommand?
    ensures Follows(Apply(cfg, s, step), op, s.ops[op])
  {
    hide AdmitStep, Holding;
    var AdmitCommand(p, h, raw, now, request) := step;
    if p !in s.ops {
      AdmittedOperation(cfg, s, p, h, raw, now, request);
    } else {
      AdmittedTwice(cfg, s, p, h, raw, now, request);
    }
  }

  lemma AdmittedTwice(cfg: Config, s: State, op: nat, h: nat, raw: Text, now: nat, request: Request)
    requires op in s.ops
    ensures AdmitStep(cfg, s, op, h, raw, now, request) == s
  {
  }

  lemma StepFollows(cfg: Config, s: State, step: Step, op: nat)
    requires op in s.ops && Holding(s.ops[op].phase).Some?
    ensures Follows(Apply(cfg, s, step), op, s.ops[op])
  {
    hide Holding, AdmitStep, CommitStep, FinishStep, LocalStep, TickStep, Acknowledged;
    match step
    case AdmitCommand(_, _, _, _, _) => AdmitFollows(cfg, s, step, op);
    case RunCommit(_, _) => CommitFollows(cfg, s, step, op);
    case FinishHold(_, _) => FinishFollows(s, step, op);
    case AcknowledgeEvent(_) =>
    case Tick(h, now) => TickedOps(s, h, now);
    case _ => LocalFollows(cfg, s, step, op);
  }

  lemma TickedOps(s: State, h: nat, now: nat)
    ensures TickStep(s, h, now).ops == s.ops && TickStep(s, h, now).granted == s.granted
  {
  }

  lemma FollowsTransitive(s: State, op: nat, o: Op, p: Op)
    requires Follows(s, op, p) && p.handle == o.handle && p.horizon == o.horizon
    requires Holding(p.phase) == Holding(o.phase) && (o.phase.Checked? ==> p == o || Past(p.phase))
    requires Past(o.phase) ==> Past(p.phase)
    ensures Follows(s, op, o)
  {
    hide Holding;
  }

  /** Through every schedule a command keeps its reservation and the checked command its commit will run with. */
  lemma {:induction false} RunFollows(cfg: Config, s: State, steps: seq<Step>, op: nat)
    requires op in s.ops && Holding(s.ops[op].phase).Some?
    ensures Follows(Run(cfg, s, steps), op, s.ops[op])
    decreases |steps|
  {
    hide Holding, Apply;
    if steps != [] {
      var t := Apply(cfg, s, steps[0]);
      StepFollows(cfg, s, steps[0], op);
      RunFollows(cfg, t, steps[1..], op);
      FollowsTransitive(Run(cfg, t, steps[1..]), op, s.ops[op], t.ops[op]);
    }
  }

  // The operation an identifier was last granted to works with it.
  predicate GrantHeld(s: State, id: Text) {
    id in s.granted ==> s.granted[id] in s.ops && Holding(s.ops[s.granted[id]].phase) == Some(id)
  }

  lemma LocalGrants(cfg: Config, s: State, step: Step, id: Text)
    requires !step.AcknowledgeEvent? && !step.Tick?
    ensures var t := LocalStep(cfg, s, step);
            id in t.granted ==>
              || (id in s.granted && t.granted[id] == s.granted[id])
              || (t.granted[id] in t.ops && Holding(t.ops[t.granted[id]].phase) == Some(id))
  {
    hide Local;
  }

  lemma CommitGrants(cfg: Config, s: State, op: nat, outcome: Outcome)
    ensures CommitStep(cfg, s, op, outcome).granted == s.granted
  {
    hide BodyOf;
  }

  lemma AdmitGrants(cfg: Config, s: State, op: nat, h: nat, raw: Text, now: nat, request: Request)
    ensures AdmitStep(cfg, s, op, h, raw, now, request).granted == s.granted
  {
    hide Enter, Admission;
  }

  lemma FinishGrants(s: State, op: nat, acknowledged: bool)
    ensures FinishStep(s, op, acknowledged).granted == s.granted
  {
    hide Closing;
  }

  lemma StepGrants(cfg: Config, s: State, step: Step, id: Text)
    requires GrantHeld(s, id)
    ensures GrantHeld(Apply(cfg, s, step), id)
  {
    hide Holding, AdmitStep, CommitStep, FinishStep, LocalStep, TickStep, Acknowledged;
    if id in s.granted {
      StepFollows(cfg, s, step, s.granted[id]);
    }
    match step
    case AdmitCommand(op, h, raw, now, request) => AdmitGrants(cfg, s, op, h, raw, now, request);
    case RunCommit(op, outcome) => CommitGrants(cfg, s, op, outcome);
    case FinishHold(op, acknowledged) => FinishGrants(s, op, acknowledged);
    case AcknowledgeEvent(_) =>
    case Tick(h, now) => TickedOps(s, h, now);
    case _ => LocalGrants(cfg, s, step, id);
  }

  lemma {:induction false} RunGrants(cfg: Config, s: State, steps: seq<Step>, id: Text)
    requires GrantHeld(s, id)
    ensures GrantHeld(Run(cfg, s, steps), id)
    decreases |steps|
  {
    hide GrantHeld, Apply;
    if steps != [] {
      StepGrants(cfg, s, steps[0], id);
      RunGrants(cfg, Apply(cfg, s, steps[0]), steps[1..], id);
    }
  }

  /*** Fresh reservation ids ***/

  // The capacity authority never grants an identifier twice.
  predicate FreshStep(s: State, step: Step) {
    step.ReserveGrowth? && step.id.Some? ==> step.id.value !in s.granted
  }

  predicate FreshRun(cfg: Config, s: State, steps: seq<Step>)
    decreases |steps|
  {
    steps == [] || (FreshStep(s, steps[0]) && FreshRun(cfg, Apply(cfg, s, steps[0]), steps[1..]))
  }

  ghost predicate Receipted(st: Store, id: Text) {
    exists k | 0 <= k < |st.commands| :: st.commands[k].reservationId == id
  }

  ghost predicate Aborted(aborts: set<(Text, Text)>, id: Text) {
    exists c: Text :: (id, c) in aborts
  }

  ghost predicate HoldOk(s: State, op: nat, p: Phase) {
    Holding(p).Some? ==>
      var id := Holding(p).value;
      && id in s.granted && s.granted[id] == op
      && (Unspent(p) ==> !Receipted(s.store, id) && !Aborted(s.aborts, id))
  }

  // Every id in a receipt or an abort was granted, and no id is in both.
  ghost predicate Separate(s: State) {
    forall id: Text ::
      && (Receipted(s.store, id) ==> id in s.granted && !Aborted(s.aborts, id))
      && (Aborted(s.aborts, id) ==> id in s.granted)
  }

  ghost predicate FatesOk(s: State) {
    Separate(s) && forall op | op in s.ops :: HoldOk(s, op, s.ops[op].phase)
  }

  // A step that changes only handles, calls, event rows and one operation without a reservation.
  lemma FatesKept(s: State, t: State, op: nat)
    requires FatesOk(s) && t.store.commands == s.store.commands && t.aborts == s.aborts && t.granted == s.granted
    requires forall p | p in t.ops && p != op :: p in s.ops && t.ops[p] == s.ops[p]
    requires op in t.ops ==> HoldOk(t, op, t.ops[op].phase)
    ensures FatesOk(t)
  {
    assert forall id: Text :: Receipted(t.store, id) == Receipted(s.store, id);
    forall p | p in t.ops ensures HoldOk(t, p, t.ops[p].phase) {
      if p != op {
        assert HoldOk(s, p, s.ops[p].phase);
      }
    }
  }

  lemma LocalKeepsFates(cfg: Config, s: State, step: Step)
    requires !step.AcknowledgeEvent? && !step.Tick? && FatesOk(s) && FreshStep(s, step)
    ensures FatesOk(LocalStep(cfg, s, step))
  {
    hide Local, Receipted, Aborted;
    if step.op in s.ops {
      var o := s.ops[step.op];
      var h := HandleOf(s, o.handle);
      var move := Local(cfg, s.store, h, o, step);
      if move.Some? {
        LocalHolds(cfg, s.store, h, o, step);
        var t := LocalStep(cfg, s, step);
        assert HoldOk(s, step.op, o.phase);
        if move.value.phase.Reserved? {
          var id := step.id.value;
          forall p | p in t.ops ensures HoldOk(t, p, t.ops[p].phase) {
            if p != step.op {
              assert HoldOk(s, p, s.ops[p].phase);
            }
          }
        } else {
          FatesKept(s, t, step.op);
        }
      }
    }
  }

  lemma AdmitKeepsFates(cfg: Config, s: State, op: nat, h: nat, raw: Text, now: nat, request: Request)
    requires FatesOk(s)
    ensures FatesOk(AdmitStep(cfg, s, op, h, raw, now, request))
  {
    hide Admission, Enter;
    if op !in s.ops {
      AdmittedOperation(cfg, s, op, h, raw, now, request);
      FatesKept(s, AdmitStep(cfg, s, op, h, raw, now, request), op);
    }
  }

  /** What a commit body makes of the receipts: nothing, or one more receipt with the plan's reservation. */
  lemma CommitReceipts(cfg: Config, st: Store, fenced: bool, failure: Option<Code>, i: Intent, plan: Plan, d: Draft)
    requires CommitBody(cfg, st, fenced, failure, i, plan, d).Ok?
    ensures var c := CommitBody(cfg, st, fenced, failure, i, plan, d).value;
            || (c.store.commands == st.commands && Receipted(st, d.receipt.reservationId) && c.result.replay)
            || (c.store.commands == st.commands + [d.receipt] && c.result == d.receipt.result
                && forall k | 0 <= k < |st.commands| :: st.commands[k].commandId != d.receipt.commandId)
  {
    hide CommitBody, StoreOk;
    var replay := CommitCases(cfg, st, fenced, failure, i, plan, d);
  }

  lemma ReceiptedAppend(s: Store, t: Store, row: CommandRow, id: Text)
    requires t.commands == s.commands + [row]
    ensures Receipted(t, id) <==> Receipted(s, id) || row.reservationId == id
  {
    if Receipted(s, id) {
      var k :| 0 <= k < |s.commands| && s.commands[k].reservationId == id;
      assert t.commands[k] == s.commands[k];
    }
    if row.reservationId == id {
      assert t.commands[|s.commands|] == row;
    }
  }

  // The holder of id spends it: it becomes receipted or aborted, not both.
  lemma Spent(s: State, t: State, op: nat, id: Text)
    requires FatesOk(s) && op in s.ops && Unspent(s.ops[op].phase) && Holding(s.ops[op].phase) == Some(id)
    requires t.granted == s.granted && op in t.ops
    requires forall p | p in t.ops && p != op :: p in s.ops && t.ops[p] == s.ops[p]
    requires Holding(t.ops[op].phase) == Some(id) && !Unspent(t.ops[op].phase)
    requires forall x: Text | x != id ::
               Receipted(t.store, x) == Receipted(s.store, x) && Aborted(t.aborts, x) == Aborted(s.aborts, x)
    requires !(Receipted(t.store, id) && Aborted(t.aborts, id))
    ensures FatesOk(t)
  {
    hide Receipted, Aborted, Holding;
    assert HoldOk(s, op, s.ops[op].phase);
    forall p | p in t.ops ensures HoldOk(t, p, t.ops[p].phase) {
      if p != op {
        assert HoldOk(s, p, s.ops[p].phase);
      }
    }
  }

  /** A commit transaction adds the operation's receipt or its abort, or neither, and ends the search for one. */
  lemma CommitChange(cfg: Config, s: State, op: nat, outcome: Outcome)
    requires op in s.ops && s.ops[op].phase.Checked?
    ensures var t := CommitStep(cfg, s, op, outcome);
            var d, c := s.ops[op].phase.draft, s.ops[op].phase.intent.horizon.commandId;
            && t.granted == s.granted && op in t.ops
            && (forall p | p in t.ops && p != op :: p in s.ops && t.ops[p] == s.ops[p])
            && Holding(t.ops[op].phase) == Some(d.receipt.reservationId) && !Unspent(t.ops[op].phase)
            && (t.store.commands == s.store.commands || t.store.commands == s.store.commands + [d.receipt])
            && (t.aborts == s.aborts || t.aborts == s.aborts + {(d.receipt.reservationId, c)})
            && (t.store.commands == s.store.commands || t.aborts == s.aborts)
  {
    hide CommitStep, Receipted, Past, Holding, Unspent;
    var o := s.ops[op];
    var Checked(i, plan, d, failure) := o.phase;
    var p := CommitPhase(cfg, s, op, outcome);
    PastIsSpent(p);
    HoldingChecked(o);
    CommitTables(cfg, s, op, outcome);
    CommitGrants(cfg, s, op, outcome);
    hide CommitBody;
    if BodyOf(cfg, s, o).Ok? {
      CommitReceipts(cfg, s.store, HandleOf(s, o.handle).fenced, failure, i, plan, d);
    }
  }

  lemma PastIsSpent(p: Phase)
    requires Past(p)
    ensures !Unspent(p)
  {
  }

  // The tables and the aborts after a commit transaction.
  lemma CommitTables(cfg: Config, s: State, op: nat, outcome: Outcome)
    requires op in s.ops && s.ops[op].phase.Checked?
    ensures var t, body := CommitStep(cfg, s, op, outcome), BodyOf(cfg, s, s.ops[op]);
            var d, c := s.ops[op].phase.draft, s.ops[op].phase.intent.horizon.commandId;
            && (t.store == s.store || (body.Ok? && t.store == body.value.store))
            && (t.aborts == s.aborts || (t.aborts == s.aborts + {(d.receipt.reservationId, c)} && t.store == s.store))
  {
    hide BodyOf;
  }

  lemma CommitKeepsFates(cfg: Config, s: State, op: nat, outcome: Outcome)
    requires FatesOk(s)
    ensures FatesOk(CommitStep(cfg, s, op, outcome))
  {
    hide CommitBody, BodyOf, Receipted, Aborted, Separate;
    if op in s.ops && s.ops[op].phase.Checked? {
      CommitChange(cfg, s, op, outcome);
      CheckedKeepsFates(s, CommitStep(cfg, s, op, outcome), op);
    }
  }

  lemma CheckedKeepsFates(s: State, t: State, op: nat)
    requires FatesOk(s) && op in s.ops && s.ops[op].phase.Checked?
    requires var d, c := s.ops[op].phase.draft, s.ops[op].phase.intent.horizon.commandId;
             && t.granted == s.granted && op in t.ops
             && (forall p | p in t.ops && p != op :: p in s.ops && t.ops[p] == s.ops[p])
             && Holding(t.ops[op].phase) == Some(d.receipt.reservationId) && !Unspent(t.ops[op].phase)
             && (t.store.commands == s.store.commands || t.store.commands == s.store.commands + [d.receipt])
             && (t.aborts == s.aborts || t.aborts == s.aborts + {(d.receipt.reservationId, c)})
             && (t.store.commands == s.store.commands || t.aborts == s.aborts)
    ensures FatesOk(t)
  {
    hide Receipted, Aborted, Separate;
    var d, c := s.ops[op].phase.draft, s.ops[op].phase.intent.horizon.commandId;
    var id := d.receipt.reservationId;
    assert HoldOk(s, op, s.ops[op].phase);
    forall x: Text | x != id
      ensures Receipted(t.store, x) == Receipted(s.store, x) && Aborted(t.aborts, x) == Aborted(s.aborts, x)
    {
      SpentElsewhere(s, t, d.receipt, c, x);
    }
    SpentOnce(s, t, id, c);
    Spent(s, t, op, id);
  }

  lemma SpentElsewhere(s: State, t: State, row: CommandRow, commandId: Text, x: Text)
    requires x != row.reservationId
    requires t.store.commands == s.store.commands || t.store.commands == s.store.commands + [row]
    requires t.aborts == s.aborts || t.aborts == s.aborts + {(row.reservationId, commandId)}
    ensures Receipted(t.store, x) == Receipted(s.store, x) && Aborted(t.aborts, x) == Aborted(s.aborts, x)
  {
    if t.store.commands != s.store.commands {
      ReceiptedAppend(s.store, t.store, row, x);
    }
  }

  lemma SpentOnce(s: State, t: State, id: Text, commandId: Text)
    requires !Receipted(s.store, id) && !Aborted(s.aborts, id)
    requires t.store.commands == s.store.commands || t.aborts == s.aborts
    ensures !(Receipted(t.store, id) && Aborted(t.aborts, id))
  {
  }

  lemma FinishKeepsFates(s: State, op: nat, acknowledged: bool)
    requires FatesOk(s)
    ensures FatesOk(FinishStep(s, op, acknowledged))
  {
    hide Receipted, Aborted;
    if op in s.ops && Closing(s.ops[op]).Some? {
      assert HoldOk(s, op, s.ops[op].phase);
      FatesKept(s, FinishStep(s, op, acknowledged), op);
    }
  }

  lemma QuietKeepsFates(s: State, t: State)
    requires FatesOk(s) && t.ops == s.ops && t.store.commands == s.store.commands
    requires t.aborts == s.aborts && t.granted == s.granted
    ensures FatesOk(t)
  {
    hide Receipted, Aborted;
    assert forall id: Text :: Receipted(t.store, id) == Receipted(s.store, id) by {
      SameReceipts(s.store, t.store);
    }
    forall p | p in t.ops ensures HoldOk(t, p, t.ops[p].phase) {
      assert HoldOk(s, p, s.ops[p].phase);
    }
  }

  lemma SameReceipts(s: Store, t: Store)
    requires t.commands == s.commands
    ensures forall id: Text :: Receipted(t, id) == Receipted(s, id)
  {
  }

  lemma StepKeepsFates(cfg: Config, s: State, step: Step)
    requires FatesOk(s) && FreshStep(s, step)
    ensures FatesOk(Apply(cfg, s, step))
  {
    hide FatesOk, FreshStep, AdmitStep, CommitStep, FinishStep, LocalStep;
    match step
    case AdmitCommand(op, h, raw, now, request) => AdmitKeepsFates(cfg, s, op, h, raw, now, request);
    case RunCommit(op, outcome) => CommitKeepsFates(cfg, s, op, outcome);
    case FinishHold(op, acknowledged) => FinishKeepsFates(s, op, acknowledged);
    case AcknowledgeEvent(n) => QuietKeepsFates(s, Apply(cfg, s, step));
    case Tick(h, now) => QuietKeepsFates(s, Apply(cfg, s, step));
    case _ => LocalKeepsFates(cfg, s, step);
  }

  lemma {:induction false} FreshRunKeepsFates(cfg: Config, s: State, steps: seq<Step>)
    requires FatesOk(s) && FreshRun(cfg, s, steps)
    ensures FatesOk(Run(cfg, s, steps))
    decreases |steps|
  {
    hide FatesOk, FreshStep, Apply;
    if steps != [] {
      StepKeepsFates(cfg, s, steps[0]);
      FreshRunKeepsFates(cfg, Apply(cfg, s, steps[0]), steps[1..]);
    }
  }

  /**
   With fresh reservation ids no reservation is both settled and released: settled ones stand in a committed
   receipt, released ones only in confirmed aborts.
   */
  lemma NeverSettledAndReleased(cfg: Config, steps: seq<Step>, id: Text, c: Text, e: Text)
    requires FreshRun(cfg, INITIAL, steps)
    ensures var calls := Run(cfg, INITIAL, steps).calls;
            !(Settle(id, c) in calls && ReleaseConfirmedAbort(id, e) in calls)
  {
    hide *;
    InitialInv(cfg);
    RunKeeps(cfg, INITIAL, steps);
    InitialFates();
    FreshRunKeepsFates(cfg, INITIAL, steps);
    CallsSeparate(cfg, Run(cfg, INITIAL, steps), id, c, e);
  }

  lemma InitialFates()
    ensures FatesOk(INITIAL)
  {
  }

  lemma CallsSeparate(cfg: Config, s: State, id: Text, c: Text, e: Text)
    requires Inv(cfg, s) && FatesOk(s)
    ensures !(Settle(id, c) in s.calls && ReleaseConfirmedAbort(id, e) in s.calls)
  {
    hide StoreOk, PhaseOk, HoldOk;
    if Settle(id, c) in s.calls {
      assert CallOk(s, Settle(id, c));
      assert Receipted(s.store, id);
    }
    if ReleaseConfirmedAbort(id, e) in s.calls {
      assert CallOk(s, ReleaseConfirmedAbort(id, e));
      assert Aborted(s.aborts, id);
    }
  }

  /**
   Without that assumption the separation fails: of two commands that were granted the same reservation, one
   aborts and releases it although the other commits a receipt on it.
   */
  lemma SharedReservationIsReleased(cfg: Config, s: State, p: nat, q: nat)
    requires p in s.ops && q in s.ops && p != q
    requires s.ops[p].phase.Checked? && s.ops[q].phase.Checked?
    requires s.ops[p].horizon == Some(s.ops[p].phase.intent.horizon)
    requires s.ops[q].horizon == Some(s.ops[q].phase.intent.horizon)
    requires Holding(s.ops[p].phase) == Holding(s.ops[q].phase)
    requires BodyOf(cfg, s, s.ops[p]).Ok?
    ensures var id := Holding(s.ops[p].phase).value;
            var t := Run(cfg, s, [RunCommit(q, ConfirmedAbort), RunCommit(p, Committed), FinishHold(q, true),
                                  FinishHold(p, true)]);
            && Settle(id, s.ops[p].horizon.value.commandId) in t.calls
            && ReleaseConfirmedAbort(id, s.ops[q].horizon.value.commandId) in t.calls
  {
    hide *;
    var a, b, c, d := RunCommit(q, ConfirmedAbort), RunCommit(p, Committed), FinishHold(q, true), FinishHold(p, true);
    var s1 := Apply(cfg, s, a);
    CommitAborts(cfg, s, q, p);
    SameBody(cfg, s, s1, p);
    var s2 := Apply(cfg, s1, b);
    CommitCommits(cfg, s1, p, q);
    var s3 := Apply(cfg, s2, c);
    FinishCalls(cfg, s2, q, p);
    var s4 := Apply(cfg, s3, d);
    FinishCalls(cfg, s3, p, q);
    HoldingChecked(s.ops[p]);
    HoldingChecked(s.ops[q]);
    RunFour(cfg, s, a, b, c, d);
  }

  lemma HoldingChecked(o: Op)
    requires o.phase.Checked?
    ensures Holding(o.phase) == Some(o.phase.draft.receipt.reservationId)
  {
  }

  lemma CommitAborts(cfg: Config, s: State, q: nat, p: nat)
    requires q in s.ops && s.ops[q].phase.Checked? && p in s.ops && p != q
    ensures var t := Apply(cfg, s, RunCommit(q, ConfirmedAbort));
            && q in t.ops && p in t.ops && t.ops[p] == s.ops[p] && t.store == s.store
            && t.ops[q].horizon == s.ops[q].horizon && t.ops[q].phase.Releasing?
            && t.ops[q].phase.reservationId == s.ops[q].phase.draft.receipt.reservationId
            && HandleOf(t, s.ops[p].handle).fenced == HandleOf(s, s.ops[p].handle).fenced
  {
    hide CommitBody;
  }

  lemma CommitCommits(cfg: Config, s: State, p: nat, q: nat)
    requires p in s.ops && s.ops[p].phase.Checked? && q in s.ops && p != q && BodyOf(cfg, s, s.ops[p]).Ok?
    ensures var t := Apply(cfg, s, RunCommit(p, Committed));
            && p in t.ops && q in t.ops && t.ops[q] == s.ops[q]
            && t.ops[p].horizon == s.ops[p].horizon && t.ops[p].phase.Settling?
            && t.ops[p].phase.reservationId == s.ops[p].phase.draft.receipt.reservationId
  {
    hide CommitBody;
  }

  lemma FinishCalls(cfg: Config, s: State, op: nat, other: nat)
    requires op in s.ops && other in s.ops && op != other && s.ops[op].horizon.Some?
    requires s.ops[op].phase.Settling? || s.ops[op].phase.Releasing?
    ensures var t := Apply(cfg, s, FinishHold(op, true));
            var id, c := s.ops[op].phase.reservationId, s.ops[op].horizon.value.commandId;
            && op in t.ops && other in t.ops && t.ops[other] == s.ops[other] && s.calls <= t.calls
            && (if s.ops[op].phase.Settling? then Settle(id, c) else ReleaseConfirmedAbort(id, c)) in t.calls
  {
    var t := Apply(cfg, s, FinishHold(op, true));
    assert t.calls[|s.calls|] in t.calls;
  }

  lemma SameBody(cfg: Config, s: State, t: State, p: nat)
    requires p in s.ops && p in t.ops && s.ops[p] == t.ops[p] && s.ops[p].phase.Checked? && s.store == t.store
    requires HandleOf(s, s.ops[p].handle).fenced == HandleOf(t, s.ops[p].handle).fenced
    ensures BodyOf(cfg, s, s.ops[p]) == BodyOf(cfg, t, t.ops[p])
  {
  }

  lemma RunFour(cfg: Config, s: State, a: Step, b: Step, c: Step, d: Step)
    ensures Run(cfg, s, [a, b, c, d]) == Apply(cfg, Apply(cfg, Apply(cfg, Apply(cfg, s, a), b), c), d)
  {
    hide Apply;
    var s1 := Apply(cfg, s, a);
    var s2 := Apply(cfg, s1, b);
    var s3 := Apply(cfg, s2, c);
    assert [a, b, c, d][1..] == [b, c, d] && [b, c, d][1..] == [c, d] && [c, d][1..] == [d] && [d][1..] == [];
    assert Run(cfg, s3, [d]) == Apply(cfg, s3, d);
    assert Run(cfg, s2, [c, d]) == Run(cfg, s3, [d]);
    assert Run(cfg, s1, [b, c, d]) == Run(cfg, s2, [c, d]);
  }
}
