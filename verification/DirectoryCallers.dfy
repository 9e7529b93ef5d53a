/** Which operations may write, how many run at once on a handle, and who is told the original result. */
module DirectoryCallers {
  import opened Common
  import opened CanonicalText
  import opened DirectoryRows
  import opened DirectoryTransactions
  import opened DirectoryStoreLaws
  import opened DirectoryProtocol
  import opened DirectoryInvariants
  import opened DirectoryReservations

  /*** The write gate ***/

  predicate Mutating(p: Phase) {
    match p
    case Opening(request) => Gated(request)
    case Guarding(request, _) => Gated(request)
    case Guarded(request, _) => Gated(request)
    case Looking(_, _) => false
    case Replaying(_) => false
    case Ended(_, hold) => !hold.NoHold?
    case _ => true
  }

  predicate GatedOk(o: Op) {
    !o.gated ==> !Mutating(o.phase)
  }

  ghost function Active(s: State, h: nat): set<nat> {
    set op | op in s.ops && s.ops[op].gated && s.ops[op].handle == h && !s.ops[op].phase.Ended?
  }

  // The counter of a handle is the number of its running commands, and the limit holds.
  ghost predicate GateOk(cfg: Config, s: State) {
    && (forall h: nat :: HandleOf(s, h).concurrent == |Active(s, h)| <= cfg.maxConcurrentCommands)
    && (forall op | op in s.ops :: GatedOk(s.ops[op]))
  }

  lemma LocalGate(cfg: Config, st: Store, h: Handle, o: Op, step: Step)
    requires Local(cfg, st, h, o, step).Some? && GatedOk(o)
    ensures var m := Local(cfg, st, h, o, step).value;
            m.handle.concurrent == h.concurrent && GatedOk(o.(phase := m.phase)) && !o.phase.Ended?
  {
    hide Preflight, ActorRow, StoredLink, IntentOk, LookUpBody, MakeDraft, Sized, MethodLeft, ParseHorizon;
  }

  lemma UpdateActive(s: State, op: nat, m: Move, h: nat)
    requires op in s.ops && !s.ops[op].phase.Ended?
    ensures var t := Update(s, op, m);
            |Active(t, h)| == |Active(s, h)|
                              - (if s.ops[op].gated && s.ops[op].handle == h && m.phase.Ended? then 1 else 0)
  {
    var t := Update(s, op, m);
    if s.ops[op].gated && s.ops[op].handle == h && m.phase.Ended? {
      assert Active(t, h) == Active(s, h) - {op};
    } else {
      assert Active(t, h) == Active(s, h);
    }
  }

  lemma UpdateKeepsGate(cfg: Config, s: State, op: nat, m: Move)
    requires GateOk(cfg, s) && op in s.ops && !s.ops[op].phase.Ended?
    requires m.handle.concurrent == HandleOf(s, s.ops[op].handle).concurrent
    requires GatedOk(s.ops[op].(phase := m.phase))
    ensures GateOk(cfg, Update(s, op, m))
  {
    hide GatedOk, Active;
    var t := Update(s, op, m);
    forall h: nat ensures HandleOf(t, h).concurrent == |Active(t, h)| <= cfg.maxConcurrentCommands {
      UpdateActive(s, op, m, h);
      assert HandleOf(s, h).concurrent == |Active(s, h)|;
    }
  }

  // Only the operations and the counters of the handles matter to the gate.
  lemma SameGate(cfg: Config, s: State, t: State)
    requires GateOk(cfg, s) && t.ops == s.ops
    requires forall h: nat :: HandleOf(t, h).concurrent == HandleOf(s, h).concurrent
    ensures GateOk(cfg, t)
  {
    assert forall h: nat :: Active(t, h) == Active(s, h);
  }

  // A state as s that has one more operation.
  lemma AddedGate(cfg: Config, s: State, t: State, op: nat, h: nat)
    requires GateOk(cfg, s) && op !in s.ops && op in t.ops && t.ops == s.ops[op := t.ops[op]]
    requires t.ops[op].handle == h && GatedOk(t.ops[op])
    requires forall k: nat | k != h :: HandleOf(t, k).concurrent == HandleOf(s, k).concurrent
    requires HandleOf(t, h).concurrent == HandleOf(s, h).concurrent
                                          + (if t.ops[op].gated && !t.ops[op].phase.Ended? then 1 else 0)
    requires HandleOf(t, h).concurrent <= cfg.maxConcurrentCommands
    ensures GateOk(cfg, t)
  {
    hide Active, GatedOk;
    forall k: nat ensures HandleOf(t, k).concurrent == |Active(t, k)| <= cfg.maxConcurrentCommands {
      assert HandleOf(s, k).concurrent == |Active(s, k)| <= cfg.maxConcurrentCommands;
      AddedActive(s, t, op, k);
    }
  }

  lemma AddedActive(s: State, t: State, op: nat, h: nat)
    requires op !in s.ops && op in t.ops && t.ops == s.ops[op := t.ops[op]]
    ensures |Active(t, h)| == |Active(s, h)| + (if t.ops[op].gated && t.ops[op].handle == h
                                                   && !t.ops[op].phase.Ended? then 1 else 0)
  {
    if t.ops[op].gated && t.ops[op].handle == h && !t.ops[op].phase.Ended? {
      assert Active(t, h) == Active(s, h) + {op};
    } else {
      assert Active(t, h) == Active(s, h);
    }
  }

  lemma AdmitCounters(cfg: Config, s: State, op: nat, h: nat, raw: Text, now: nat, request: Request)
    requires op !in s.ops && HandleOf(s, h).concurrent <= cfg.maxConcurrentCommands
    ensures var t := AdmitStep(cfg, s, op, h, raw, now, request);
            && op in t.ops && t.ops == s.ops[op := t.ops[op]]
            && t.ops[op].handle == h && GatedOk(t.ops[op])
            && (HandleOf(s, h).fenced ==> !t.ops[op].gated)
            && (forall k: nat | k != h :: HandleOf(t, k) == HandleOf(s, k))
            && HandleOf(t, h).concurrent == HandleOf(s, h).concurrent
                                            + (if t.ops[op].gated && !t.ops[op].phase.Ended? then 1 else 0)
            && HandleOf(t, h).concurrent <= cfg.maxConcurrentCommands
  {
    hide ParseHorizon;
  }

  lemma CommitMoves(cfg: Config, s: State, op: nat, outcome: Outcome)
    requires GateOk(cfg, s)
    ensures GateOk(cfg, CommitStep(cfg, s, op, outcome))
  {
    hide BodyOf, GateOk, Update, Active;
    if op in s.ops && s.ops[op].phase.Checked? {
      var o := s.ops[op];
      var id, commandId := o.phase.draft.receipt.reservationId, o.phase.intent.horizon.commandId;
      var h, body := HandleOf(s, o.handle), BodyOf(cfg, s, o);
      CheckedGate(cfg, s, op);
      match Atomic(body, outcome)
      case Value(c) =>
        SameGate(cfg, s, s.(store := c.store));
        UpdateKeepsGate(cfg, s.(store := c.store), op, Move(h, Settling(id, c.result)));
      case Refused(error) =>
        SameGate(cfg, s, s.(aborts := s.aborts + {(id, commandId)}));
        UpdateKeepsGate(cfg, s.(aborts := s.aborts + {(id, commandId)}), op, Move(h, Releasing(id, error)));
      case Lost =>
        var mid := if outcome.Unknown? && outcome.applied && body.Ok? then s.(store := body.value.store) else s;
        SameGate(cfg, s, mid);
        UpdateKeepsGate(cfg, mid, op, Lose(h, KeptHold(id)));
    }
  }

  lemma CheckedGate(cfg: Config, s: State, op: nat)
    requires GateOk(cfg, s) && op in s.ops && (s.ops[op].phase.Checked? || Closing(s.ops[op]).Some?)
    ensures !s.ops[op].phase.Ended? && (Mutating(s.ops[op].phase) ==> s.ops[op].gated)
  {
    hide Active;
    assert GatedOk(s.ops[op]);
  }

  lemma ClosingGate(o: Op)
    requires Closing(o).Some? && (Mutating(o.phase) ==> o.gated)
    ensures GatedOk(o.(phase := Closing(o).value.1))
    ensures GatedOk(o.(phase := Ended(Err(CommitUnknown), Closing(o).value.2)))
  {
  }

  lemma FinishMoves(cfg: Config, s: State, op: nat, acknowledged: bool)
    requires GateOk(cfg, s)
    ensures GateOk(cfg, FinishStep(s, op, acknowledged))
  {
    hide GateOk, Update, Active, Closing, GatedOk, Mutating;
    if op in s.ops && Closing(s.ops[op]).Some? {
      var (call, phase, hold) := Closing(s.ops[op]).value;
      var h := HandleOf(s, s.ops[op].handle);
      CheckedGate(cfg, s, op);
      ClosingGate(s.ops[op]);
      SameGate(cfg, s, s.(calls := s.calls + [call]));
      UpdateKeepsGate(cfg, s.(calls := s.calls + [call]), op, if acknowledged then Move(h, phase) else Lose(h, hold));
    }
  }

  lemma AdmitMoves(cfg: Config, s: State, op: nat, h: nat, raw: Text, now: nat, request: Request)
    requires GateOk(cfg, s)
    ensures GateOk(cfg, AdmitStep(cfg, s, op, h, raw, now, request))
  {
    hide Admission, Enter, Update, Active, GatedOk;
    if op !in s.ops {
      assert HandleOf(s, h).concurrent == |Active(s, h)| <= cfg.maxConcurrentCommands;
      AdmitCounters(cfg, s, op, h, raw, now, request);
      AddedGate(cfg, s, AdmitStep(cfg, s, op, h, raw, now, request), op, h);
    }
  }

  lemma LocalMoves(cfg: Config, s: State, step: Step)
    requires GateOk(cfg, s) && !step.AcknowledgeEvent? && !step.Tick?
    ensures GateOk(cfg, LocalStep(cfg, s, step))
  {
    hide Local, Update, Active, GatedOk;
    if step.op in s.ops {
      var o := s.ops[step.op];
      var move := Local(cfg, s.store, HandleOf(s, o.handle), o, step);
      if move.Some? {
        LocalGate(cfg, s.store, HandleOf(s, o.handle), o, step);
        UpdateKeepsGate(cfg, s, step.op, move.value);
        SameGate(cfg, Update(s, step.op, move.value), LocalStep(cfg, s, step));
      }
    }
  }

  lemma StepKeepsGate(cfg: Config, s: State, step: Step)
    requires GateOk(cfg, s)
    ensures GateOk(cfg, Apply(cfg, s, step))
  {
    hide GateOk, AdmitStep, CommitStep, FinishStep, LocalStep;
    match step
    case AdmitCommand(op, h, raw, now, request) => AdmitMoves(cfg, s, op, h, raw, now, request);
    case RunCommit(op, outcome) => CommitMoves(cfg, s, op, outcome);
    case FinishHold(op, acknowledged) => FinishMoves(cfg, s, op, acknowledged);
    case AcknowledgeEvent(n) => SameGate(cfg, s, Apply(cfg, s, step));
    case Tick(h, now) => SameGate(cfg, s, Apply(cfg, s, step));
    case _ => LocalMoves(cfg, s, step);
  }

  lemma {:induction false} RunKeepsGate(cfg: Config, s: State, steps: seq<Step>)
    requires GateOk(cfg, s)
    ensures GateOk(cfg, Run(cfg, s, steps))
    decreases |steps|
  {
    hide GateOk, Apply;
    if steps != [] {
      StepKeepsGate(cfg, s, steps[0]);
      RunKeepsGate(cfg, Apply(cfg, s, steps[0]), steps[1..]);
    }
  }

  lemma InitialGate(cfg: Config)
    ensures GateOk(cfg, INITIAL)
  {
    assert forall h: nat :: Active(INITIAL, h) == {};
  }

  /** In every reachable state a handle's counter is the number of its running commands, within the limit. */
  lemma CommandsAreLimited(cfg: Config, steps: seq<Step>, h: nat)
    ensures var s := Run(cfg, INITIAL, steps);
            HandleOf(s, h).concurrent == |Active(s, h)| <= cfg.maxConcurrentCommands
  {
    hide Run, Active;
    InitialGate(cfg);
    RunKeepsGate(cfg, INITIAL, steps);
  }

  /*** Fences ***/

  // Operation op, if it ever runs on h, runs without write access, and h is fenced.
  ghost predicate ShutOut(s: State, h: nat, op: nat) {
    HandleOf(s, h).fenced && (op in s.ops && s.ops[op].handle == h ==> !s.ops[op].gated)
  }

  lemma StepShutsOut(cfg: Config, s: State, step: Step, h: nat, op: nat)
    requires Inv(cfg, s) && GateOk(cfg, s) && ShutOut(s, h, op)
    ensures ShutOut(Apply(cfg, s, step), h, op)
  {
    hide Inv, GateOk, Apply, Grows;
    StepKeeps(cfg, s, step);
    assert HandleOf(Apply(cfg, s, step), h).fenced;
    if step.AdmitCommand? {
      AdmitShutsOut(cfg, s, step, h, op);
    } else {
      EntriesStay(cfg, s, step, op);
    }
  }

  // Operation op entered on the same handle with the same access, or has not entered.
  predicate SameEntry(s: State, t: State, op: nat) {
    && (op in t.ops <==> op in s.ops)
    && (op in s.ops ==> t.ops[op].handle == s.ops[op].handle && t.ops[op].gated == s.ops[op].gated)
  }

  lemma FinishEntries(s: State, p: nat, acknowledged: bool, op: nat)
    ensures SameEntry(s, FinishStep(s, p, acknowledged), op)
  {
    hide Closing;
  }

  lemma CommitEntries(cfg: Config, s: State, p: nat, outcome: Outcome, op: nat)
    ensures SameEntry(s, CommitStep(cfg, s, p, outcome), op)
  {
    if p in s.ops && s.ops[p].phase.Checked? {
      hide CommitStep;
      var phase := CommitPhase(cfg, s, p, outcome);
    }
  }

  lemma LocalEntries(cfg: Config, s: State, step: Step, op: nat)
    requires !step.AcknowledgeEvent? && !step.Tick?
    ensures SameEntry(s, LocalStep(cfg, s, step), op)
  {
    hide Local;
  }

  // Only an admission decides on which handle an operation runs, and whether it may write.
  lemma EntriesStay(cfg: Config, s: State, step: Step, op: nat)
    requires !step.AdmitCommand?
    ensures SameEntry(s, Apply(cfg, s, step), op)
  {
    hide CommitStep, FinishStep, LocalStep, TickStep, Acknowledged;
    match step
    case RunCommit(p, outcome) => CommitEntries(cfg, s, p, outcome, op);
    case FinishHold(p, acknowledged) => FinishEntries(s, p, acknowledged, op);
    case AcknowledgeEvent(_) =>
    case Tick(h, now) => TickedOps(s, h, now);
    case _ => LocalEntries(cfg, s, step, op);
  }

  lemma AdmitShutsOut(cfg: Config, s: State, step: Step, h: nat, op: nat)
    requires GateOk(cfg, s) && step.AdmitCommand? && ShutOut(s, h, op)
    ensures var t := Apply(cfg, s, step); op in t.ops && t.ops[op].handle == h ==> !t.ops[op].gated
  {
    hide Admission, Enter, Active, GatedOk, Update;
    var AdmitCommand(p, k, raw, now, request) := step;
    if p !in s.ops {
      assert HandleOf(s, k).concurrent == |Active(s, k)| <= cfg.maxConcurrentCommands;
      AdmitCounters(cfg, s, p, k, raw, now, request);
    }
  }

  lemma {:induction false} RunShutsOut(cfg: Config, s: State, steps: seq<Step>, h: nat, op: nat)
    requires Inv(cfg, s) && GateOk(cfg, s) && ShutOut(s, h, op)
    ensures ShutOut(Run(cfg, s, steps), h, op)
    decreases |steps|
  {
    hide Inv, GateOk, ShutOut, Apply, Extends;
    if steps != [] {
      StepShutsOut(cfg, s, steps[0], h, op);
      StepKeeps(cfg, s, steps[0]);
      StepKeepsGate(cfg, s, steps[0]);
      RunShutsOut(cfg, Apply(cfg, s, steps[0]), steps[1..], h, op);
    }
  }

  /**
   A fence is never lifted, and no operation that enters a fenced handle ever holds a reservation or prepares a
   write, whatever it asks for.
   */
  lemma FencedHandlesAdmitNoWrites(cfg: Config, before: seq<Step>, after: seq<Step>, h: nat, op: nat)
    requires var s := Run(cfg, INITIAL, before); HandleOf(s, h).fenced && op !in s.ops
    ensures var t := Run(cfg, Run(cfg, INITIAL, before), after);
            && HandleOf(t, h).fenced
            && (op in t.ops && t.ops[op].handle == h ==> !Mutating(t.ops[op].phase) && Holding(t.ops[op].phase).None?)
  {
    hide Run, Inv, Active, Extends;
    InitialInv(cfg);
    InitialGate(cfg);
    RunKeeps(cfg, INITIAL, before);
    RunKeepsGate(cfg, INITIAL, before);
    var s := Run(cfg, INITIAL, before);
    RunShutsOut(cfg, s, after, h, op);
    RunKeepsGate(cfg, s, after);
  }

  lemma FencedBody(cfg: Config, s: State, op: nat, outcome: Outcome)
    requires op in s.ops && HandleOf(s, s.ops[op].handle).fenced
    ensures CommitStep(cfg, s, op, outcome).store == s.store
    ensures var t := CommitStep(cfg, s, op, outcome);
            s.ops[op].phase.Checked? ==> op in t.ops && (t.ops[op].phase.Releasing? || t.ops[op].phase.Ended?)
  {
    hide Preflight, WriteAll;
  }

  /**
   From the moment a handle is fenced, also between the recheck and the commit of a command, no later commit of
   that handle writes, and none reports a value.
   */
  lemma FencedCommitsWriteNothing(cfg: Config, before: seq<Step>, after: seq<Step>, op: nat, outcome: Outcome)
    requires var s := Run(cfg, INITIAL, before);
             var t := Run(cfg, s, after);
             op in t.ops && HandleOf(s, t.ops[op].handle).fenced
    ensures var t := Run(cfg, Run(cfg, INITIAL, before), after);
            var u := CommitStep(cfg, t, op, outcome);
            && u.store == t.store
            && (t.ops[op].phase.Checked? ==> op in u.ops && (u.ops[op].phase.Releasing? || u.ops[op].phase.Ended?))
  {
    hide Run, Inv, Grows, CommitStep;
    InitialInv(cfg);
    RunKeeps(cfg, INITIAL, before);
    RunKeeps(cfg, Run(cfg, INITIAL, before), after);
    FencedBody(cfg, Run(cfg, Run(cfg, INITIAL, before), after), op, outcome);
  }

  /*** The original result ***/

  // The caller is, or is about to be, told a result that is not marked as a replay.
  predicate Original(o: Op) {
    match o.phase
    case Settling(_, r) => !r.replay
    case Ended(outcome, _) => outcome.Ok? && outcome.value.Some? && !outcome.value.value.replay
    case _ => false
  }

  ghost predicate OneOriginal(s: State) {
    && (forall op | op in s.ops && Original(s.ops[op]) :: s.ops[op].horizon.Some?)
    && (forall p, q | p in s.ops && q in s.ops && p != q && Original(s.ops[p]) && Original(s.ops[q]) ::
          s.ops[p].horizon.value.commandId != s.ops[q].horizon.value.commandId)
  }

  lemma SameOriginals(s: State, t: State, op: nat)
    requires OneOriginal(s) && op in t.ops
    requires forall p | p in t.ops && p != op :: p in s.ops && t.ops[p] == s.ops[p]
    requires Original(t.ops[op]) ==> op in s.ops && Original(s.ops[op]) && t.ops[op].horizon == s.ops[op].horizon
    ensures OneOriginal(t)
  {
    hide Original;
  }

  lemma OriginalRecorded(cfg: Config, s: State, q: nat)
    requires Inv(cfg, s) && q in s.ops && Original(s.ops[q])
    ensures s.ops[q].horizon.Some?
    ensures exists k | 0 <= k < |s.store.commands| ::
              s.store.commands[k].commandId == s.ops[q].horizon.value.commandId
  {
    hide StoreOk, CallOk, Recorded;
    PhaseOf(cfg, s, q);
  }

  lemma CommitOriginal(cfg: Config, s: State, op: nat, outcome: Outcome)
    requires op in s.ops && s.ops[op].phase.Checked?
    ensures var t := CommitStep(cfg, s, op, outcome);
            && op in t.ops && t.ops[op].horizon == s.ops[op].horizon
            && (forall p | p in t.ops && p != op :: p in s.ops && t.ops[p] == s.ops[p])
            && (Original(t.ops[op]) ==>
                  forall k | 0 <= k < |s.store.commands| ::
                    s.store.commands[k].commandId != s.ops[op].phase.draft.receipt.commandId)
  {
    hide CommitBody, Receipted;
    var o := s.ops[op];
    var Checked(i, plan, d, failure) := o.phase;
    if BodyOf(cfg, s, o).Ok? {
      CommitReceipts(cfg, s.store, HandleOf(s, o.handle).fenced, failure, i, plan, d);
    }
  }

  lemma CheckedReceipt(cfg: Config, s: State, op: nat)
    requires Inv(cfg, s) && op in s.ops && s.ops[op].phase.Checked?
    ensures s.ops[op].horizon.Some?
    ensures s.ops[op].horizon.value.commandId == s.ops[op].phase.draft.receipt.commandId
  {
    hide StoreOk, CallOk, PlanOk;
    CheckedPhase(cfg, s, op);
  }

  lemma CommitKeepsOriginal(cfg: Config, s: State, op: nat, outcome: Outcome)
    requires Inv(cfg, s) && OneOriginal(s)
    ensures OneOriginal(CommitStep(cfg, s, op, outcome))
  {
    hide Inv, BodyOf, Original;
    if op in s.ops && s.ops[op].phase.Checked? {
      var t := CommitStep(cfg, s, op, outcome);
      CommitOriginal(cfg, s, op, outcome);
      CheckedReceipt(cfg, s, op);
      forall q | q in s.ops && Original(s.ops[q]) ensures
          exists k | 0 <= k < |s.store.commands| ::
            s.store.commands[k].commandId == s.ops[q].horizon.value.commandId
      {
        OriginalRecorded(cfg, s, q);
      }
    }
  }

  lemma LocalOriginal(cfg: Config, st: Store, h: Handle, o: Op, step: Step)
    requires Local(cfg, st, h, o, step).Some?
    ensures !Original(o.(phase := Local(cfg, st, h, o, step).value.phase))
  {
    hide Preflight, ActorRow, StoredLink, IntentOk, LookUpBody, MakeDraft, Sized, MethodLeft, Rechecked;
  }

  lemma LocalKeepsOriginal(cfg: Config, s: State, step: Step)
    requires OneOriginal(s) && !step.AcknowledgeEvent? && !step.Tick?
    ensures OneOriginal(LocalStep(cfg, s, step))
  {
    hide Local, Original;
    if step.op in s.ops {
      var o := s.ops[step.op];
      var move := Local(cfg, s.store, HandleOf(s, o.handle), o, step);
      if move.Some? {
        LocalOriginal(cfg, s.store, HandleOf(s, o.handle), o, step);
        SameOriginals(s, LocalStep(cfg, s, step), step.op);
      }
    }
  }

  lemma FinishKeepsOriginal(s: State, op: nat, acknowledged: bool)
    requires OneOriginal(s)
    ensures OneOriginal(FinishStep(s, op, acknowledged))
  {
    hide OneOriginal;
    if op in s.ops && Closing(s.ops[op]).Some? {
      SameOriginals(s, FinishStep(s, op, acknowledged), op);
    }
  }

  lemma StepKeepsOriginal(cfg: Config, s: State, step: Step)
    requires Inv(cfg, s) && OneOriginal(s)
    ensures OneOriginal(Apply(cfg, s, step))
  {
    hide Inv, AdmitStep, CommitStep, FinishStep, LocalStep;
    match step
    case AdmitCommand(op, h, raw, now, request) =>
      if op !in s.ops {
        AdmittedOperation(cfg, s, op, h, raw, now, request);
        SameOriginals(s, AdmitStep(cfg, s, op, h, raw, now, request), op);
      } else {
        AdmittedTwice(cfg, s, op, h, raw, now, request);
      }
    case RunCommit(op, outcome) => CommitKeepsOriginal(cfg, s, op, outcome);
    case FinishHold(op, acknowledged) => FinishKeepsOriginal(s, op, acknowledged);
    case AcknowledgeEvent(n) =>
    case Tick(h, now) =>
    case _ => LocalKeepsOriginal(cfg, s, step);
  }

  lemma {:induction false} RunKeepsOriginal(cfg: Config, s: State, steps: seq<Step>)
    requires Inv(cfg, s) && OneOriginal(s)
    ensures OneOriginal(Run(cfg, s, steps))
    decreases |steps|
  {
    hide Inv, OneOriginal, Apply, Extends;
    if steps != [] {
      StepKeeps(cfg, s, steps[0]);
      StepKeepsOriginal(cfg, s, steps[0]);
      RunKeepsOriginal(cfg, Apply(cfg, s, steps[0]), steps[1..]);
    }
  }

  /** At most one caller of a command is told an original result; every other success is marked as a replay. */
  lemma OneCallerSeesTheOriginal(cfg: Config, steps: seq<Step>, p: nat, q: nat)
    requires var s := Run(cfg, INITIAL, steps);
             && p in s.ops && q in s.ops && p != q
             && Original(s.ops[p]) && Original(s.ops[q])
    ensures var s := Run(cfg, INITIAL, steps);
            && s.ops[p].horizon.Some? && s.ops[q].horizon.Some?
            && s.ops[p].horizon.value.commandId != s.ops[q].horizon.value.commandId
  {
    hide Inv, Run, Original;
    InitialInv(cfg);
    RunKeepsOriginal(cfg, INITIAL, steps);
  }
}
