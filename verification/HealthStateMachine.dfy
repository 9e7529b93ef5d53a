/** One step of a health check: status, counters, incident and the flapping window. */
module HealthStateMachine {
  import opened Common

  datatype Status = Okay | Warn | Fail | Unknown | Disabled | Blocked

  datatype IncidentId = IncidentId(key: string, at: int)

  datatype CheckState = CheckState(
    status: Status,
    since: int,
    fails: nat,
    oks: nat,
    lastOkAt: Option<int>,
    transitions: seq<int>,
    flapping: bool,
    stableSince: Option<int>,
    openIncident: Option<IncidentId>
  )

  datatype Observation = Observation(
    result: Status,
    now: int,
    failThreshold: Option<int>,
    recoverThreshold: Option<int>,
    parentFailing: bool,
    graceUntil: Option<int>,
    incidentId: IncidentId
  )

  datatype Event = Quiet | Opened | Recovered | StartedFlapping

  datatype Output = Output(state: CheckState, event: Event, recovered: Option<IncidentId>)

  const HOUR := 60 * 60 * 1000
  const STABLE := 30 * 60 * 1000

  function Threshold(t: Option<int>): int {
    if t.Some? then t.value else 2
  }

  function InitialState(now: int): CheckState {
    CheckState(Unknown, now, 0, 0, None, [], false, None, None)
  }

  /*** The parts of a step ***/

  // What a step counts as.
  datatype Kind = Reset | Good | Bad | Skip

  function KindOf(x: Observation): Kind {
    if x.result == Disabled || x.parentFailing || (x.graceUntil.Some? && x.now < x.graceUntil.value) then Reset
    else
      match x.result
      case Okay => Good
      case Warn => Bad
      case Fail => Bad
      case _ => Skip
  }

  function ResetStatus(x: Observation): Status {
    if x.result == Disabled then Disabled else if x.parentFailing then Blocked else Unknown
  }

  predicate Opens(s: CheckState, x: Observation) {
    KindOf(x) == Bad && s.openIncident.None? && s.fails + 1 >= Threshold(x.failThreshold)
  }

  predicate Recovers(s: CheckState, x: Observation) {
    KindOf(x) == Good && s.openIncident.Some? && s.oks + 1 >= Threshold(x.recoverThreshold)
  }

  function NextStatus(s: CheckState, x: Observation): Status {
    match KindOf(x)
    case Reset => ResetStatus(x)
    case Good => if s.openIncident.None? || Recovers(s, x) then Okay else s.status
    case Bad => if Opens(s, x) then x.result else if s.openIncident.None? then Unknown else s.status
    case Skip => Unknown
  }

  /** The transitions within the last hour. */
  function Recent(ts: seq<int>, now: int): seq<int> {
    if ts == [] then []
    else Recent(ts[..|ts| - 1], now) + (if ts[|ts| - 1] > now - HOUR then [ts[|ts| - 1]] else [])
  }

  // Status, counters and incident.
  function Counted(s: CheckState, x: Observation): CheckState {
    var kind := KindOf(x);
    s.(status := NextStatus(s, x),
       fails := if kind == Bad then s.fails + 1 else if kind == Skip then s.fails else 0,
       oks := if kind == Good then s.oks + 1 else if kind == Skip then s.oks else 0,
       lastOkAt := if kind == Good then Some(x.now) else s.lastOkAt,
       openIncident := if Opens(s, x) then Some(x.incidentId) else if Recovers(s, x) then None else s.openIncident)
  }

  // The window after the status is known.
  function Windowed(s: CheckState, changed: bool, now: int): CheckState {
    var kept := Recent(s.transitions, now);
    if changed then s.(since := now, transitions := kept + [now], stableSince := Some(now))
    else s.(transitions := kept)
  }

  predicate StartsFlapping(s: CheckState) {
    !s.flapping && |s.transitions| >= 4
  }

  predicate Settles(s: CheckState, now: int) {
    s.flapping && s.stableSince.Some? && now - s.stableSince.value >= STABLE
  }

  function Transition(s: CheckState, x: Observation): Output {
    var w := Windowed(Counted(s, x), NextStatus(s, x) != s.status, x.now);
    var event := if Opens(s, x) then Opened else if Recovers(s, x) then Recovered else Quiet;
    Output(
      if StartsFlapping(w) then w.(flapping := true)
      else if Settles(w, x.now) then w.(flapping := false, transitions := [])
      else w,
      if StartsFlapping(w) then StartedFlapping
      else if w.flapping && !Settles(w, x.now) then Quiet
      else event,
      if Recovers(s, x) then s.openIncident else None)
  }

  method RetainRecent(ts: seq<int>, now: int) returns (kept: seq<int>)
    ensures kept == Recent(ts, now)
  {
    kept := [];
    for i := 0 to |ts|
      invariant kept == Recent(ts[..i], now)
    {
      if ts[i] > now - HOUR {
        kept := kept + [ts[i]];
      }
      assert ts[..i + 1][..i] == ts[..i];
    }
    assert ts[..|ts|] == ts;
  }

  /** The step as it runs: a copy of the state whose fields are assigned one after the other. */
  method TransitionCheck(s: CheckState, x: Observation) returns (out: Output)
    ensures out == Transition(s, x)
  {
    hide Recent;
    var kept := RetainRecent(s.transitions, x.now);
    var state := s.(transitions := kept);
    var previous := state.status;
    var event := Quiet;
    var recovered: Option<IncidentId> := None;
    if x.result == Disabled {
      state := state.(status := Disabled, fails := 0, oks := 0);
    } else if x.parentFailing {
      state := state.(status := Blocked, fails := 0, oks := 0);
    } else if x.graceUntil.Some? && x.now < x.graceUntil.value {
      state := state.(status := Unknown, fails := 0, oks := 0);
    } else if x.result == Okay {
      state := state.(lastOkAt := Some(x.now), oks := state.oks + 1, fails := 0);
      if state.openIncident.Some? && state.oks >= Threshold(x.recoverThreshold) {
        recovered := state.openIncident;
        state := state.(status := Okay, openIncident := None);
        event := Recovered;
      } else if state.openIncident.None? {
        state := state.(status := Okay);
      }
    } else if x.result == Fail || x.result == Warn {
      state := state.(fails := state.fails + 1, oks := 0);
      if state.openIncident.None? && state.fails >= Threshold(x.failThreshold) {
        state := state.(status := x.result, openIncident := Some(x.incidentId));
        event := Opened;
      } else if state.openIncident.None? {
        state := state.(status := Unknown);
      }
    } else {
      state := state.(status := Unknown);
    }
    if state.status != previous {
      state := state.(since := x.now, transitions := state.transitions + [x.now], stableSince := Some(x.now));
    }
    if !state.flapping && |state.transitions| >= 4 {
      state := state.(flapping := true);
      event := StartedFlapping;
    } else if state.flapping && state.stableSince.Some? && x.now - state.stableSince.value >= STABLE {
      state := state.(flapping := false, transitions := []);
    } else if state.flapping {
      event := Quiet;
    }
    return Output(state, event, recovered);
  }
}
