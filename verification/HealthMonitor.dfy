/** Recording probe results of many checks: the state rows and the incident rows they open and resolve. */
module HealthMonitor {
  import opened Common
  import opened HealthStateMachine
  import opened HealthRuns

  datatype IncidentRow = IncidentRow(checkKey: string, openedAt: int, resolvedAt: Option<int>)

  datatype Tables = Tables(states: map<string, CheckState>, incidents: map<IncidentId, IncidentRow>)

  // A recorded result; the time is that of the probe's start plus its duration.
  datatype Entry = Entry(
    key: string,
    result: Status,
    startedAt: int,
    duration: int,
    failThreshold: Option<int>,
    recoverThreshold: Option<int>,
    parentFailing: bool,
    graceUntil: Option<int>
  )

  function TimeOf(e: Entry): int {
    e.startedAt + e.duration
  }

  function ObservationOf(e: Entry): Observation {
    Observation(e.result, TimeOf(e), e.failThreshold, e.recoverThreshold, e.parentFailing, e.graceUntil,
                IncidentId(e.key, TimeOf(e)))
  }

  function Previous(t: Tables, e: Entry): CheckState {
    if e.key in t.states then t.states[e.key] else InitialState(TimeOf(e))
  }

  function Resolved(incidents: map<IncidentId, IncidentRow>, id: Option<IncidentId>, now: int)
    : map<IncidentId, IncidentRow>
  {
    if id.Some? && id.value in incidents
    then incidents[id.value := incidents[id.value].(resolvedAt := Some(now))]
    else incidents
  }

  function Record(t: Tables, e: Entry): Tables {
    var x := ObservationOf(e);
    var change := Transition(Previous(t, e), x);
    var added := if change.event == Opened
                  then t.incidents[x.incidentId := IncidentRow(e.key, x.now, None)] else t.incidents;
    Tables(t.states[e.key := change.state], Resolved(added, change.recovered, x.now))
  }

  function RecordAll(entries: seq<Entry>): Tables {
    if entries == [] then Tables(map[], map[])
    else Record(RecordAll(entries[..|entries| - 1]), entries[|entries| - 1])
  }

  class HealthMonitorService {
    var states: map<string, CheckState>
    var incidents: map<IncidentId, IncidentRow>
    var results: seq<Entry>

    function Contents(): Tables
      reads this
    {
      Tables(states, incidents)
    }

    ghost predicate Valid()
      reads this
    {
      Contents() == RecordAll(results)
    }

    constructor ()
      ensures Valid() && results == []
    {
      states, incidents, results := map[], map[], [];
    }

    /** One transaction: the result row, the state row, and the incident row it opens or resolves. */
    method RecordResult(e: Entry) returns (state: CheckState)
      requires Valid()
      modifies this
      ensures Valid() && results == old(results) + [e]
      ensures Contents() == Record(old(Contents()), e)
      ensures e.key in states && state == states[e.key]
    {
      var x := ObservationOf(e);
      var previous := Previous(Contents(), e);
      var change := TransitionCheck(previous, x);
      results := results + [e];
      states := states[e.key := change.state];
      if change.event == Opened {
        incidents := incidents[x.incidentId := IncidentRow(e.key, x.now, None)];
      }
      if change.recovered.Some? && change.recovered.value in incidents {
        var id := change.recovered.value;
        incidents := incidents[id := incidents[id].(resolvedAt := Some(x.now))];
      }
      state := change.state;
      assert results[..|results| - 1] == old(results);
    }
  }

  /*** Each check sees only its own results ***/

  function HistoryOf(entries: seq<Entry>, key: string): History {
    if entries == [] then []
    else
      HistoryOf(entries[..|entries| - 1], key)
      + (if entries[|entries| - 1].key == key then [ObservationOf(entries[|entries| - 1])] else [])
  }

  /** The stored state of a check is the run of the state machine over that check's own results, from its first. */
  lemma {:induction false} StateIsRun(entries: seq<Entry>, key: string)
    ensures var h := HistoryOf(entries, key);
            && (key in RecordAll(entries).states <==> h != [])
            && (h != [] ==> RecordAll(entries).states[key] == Run(h[0].now, h))
  {
    hide Transition, Run;
    if entries != [] {
      var n := |entries| - 1;
      var e := entries[n];
      var p := HistoryOf(entries[..n], key);
      StateIsRun(entries[..n], key);
      if e.key == key {
        var start := if p == [] then TimeOf(e) else p[0].now;
        RunAppend(start, p, ObservationOf(e));
        assert HistoryOf(entries, key) == p + [ObservationOf(e)] && HistoryOf(entries, key)[0].now == start;
        assert Previous(RecordAll(entries[..n]), e) == Run(start, p);
      } else {
        assert HistoryOf(entries, key) == p;
      }
    }
  }

  /*** Incident rows ***/

  predicate Unresolved(t: Tables, id: IncidentId) {
    id in t.incidents && t.incidents[id].resolvedAt.None?
  }

  // An open incident belongs to its check, and an unresolved row is the incident its check's state names.
  ghost predicate RowsOk(t: Tables) {
    && (forall key | key in t.states && t.states[key].openIncident.Some? :: t.states[key].openIncident.value.key == key)
    && (forall id | id in t.incidents :: t.incidents[id].checkKey == id.key)
    && (forall id | Unresolved(t, id) :: id.key in t.states && t.states[id.key].openIncident == Some(id))
  }

  lemma StepIncident(s: CheckState, x: Observation)
    ensures var out := Transition(s, x);
            && (out.event == Opened ==> Opens(s, x))
            && (Opens(s, x) ==> s.openIncident.None?)
            && (Opens(s, x) ==> out.state.openIncident == Some(x.incidentId) && out.recovered.None?)
            && (Recovers(s, x) ==> out.state.openIncident.None? && out.recovered == s.openIncident)
            && (!Opens(s, x) && !Recovers(s, x) ==> out.state.openIncident == s.openIncident && out.recovered.None?)
  {
  }

  lemma RecordKeepsRows(t: Tables, e: Entry)
    requires RowsOk(t)
    ensures RowsOk(Record(t, e))
  {
    var x, s := ObservationOf(e), Previous(t, e);
    StepIncident(s, x);
    hide Transition, Opens, Recovers;
    var u := Record(t, e);
    forall id | Unresolved(u, id) ensures id.key in u.states && u.states[id.key].openIncident == Some(id) {
      if id.key != e.key {
        assert Unresolved(t, id);
      } else if Unresolved(t, id) {
        assert s.openIncident == Some(id);
      }
    }
  }

  /** In every sequence of records a check has at most one unresolved incident row: the one its state names. */
  lemma {:induction false} OneUnresolvedRow(entries: seq<Entry>, id: IncidentId, other: IncidentId)
    requires Unresolved(RecordAll(entries), id)
    ensures var t := RecordAll(entries);
            && t.incidents[id].checkKey == id.key
            && id.key in t.states && t.states[id.key].openIncident == Some(id)
            && (Unresolved(t, other) && other.key == id.key ==> other == id)
  {
    AllRowsOk(entries);
  }

  lemma {:induction false} AllRowsOk(entries: seq<Entry>)
    ensures RowsOk(RecordAll(entries))
  {
    hide Record;
    if entries != [] {
      AllRowsOk(entries[..|entries| - 1]);
      RecordKeepsRows(RecordAll(entries[..|entries| - 1]), entries[|entries| - 1]);
    }
  }

  // A step that opens an incident changes the status, so the check flaps afterwards if it did or if three changes
  // of the last hour are retained.
  lemma OpeningStep(s: CheckState, x: Observation)
    requires Opens(s, x) && s.status !in {Warn, Fail}
    ensures var out := Transition(s, x);
            && (out.state.flapping <==> s.flapping || |Recent(s.transitions, x.now)| >= 3)
            && (out.event == Opened <==> !out.state.flapping)
            && out.state.openIncident == Some(x.incidentId) && out.recovered.None?
  {
    hide Recent;
  }

  lemma PreviousStatus(entries: seq<Entry>, e: Entry)
    requires Previous(RecordAll(entries), e).openIncident.None?
    ensures Previous(RecordAll(entries), e).status !in {Warn, Fail}
  {
    hide RecordAll, Run;
    StateIsRun(entries, e.key);
    var h := HistoryOf(entries, e.key);
    if h != [] {
      StatusMatchesIncident(h[0].now, h);
    }
  }

  // What the check shows before a result: it flaps, or one more change makes it flap.
  predicate NearFlapping(s: CheckState, now: int) {
    s.flapping || |Recent(s.transitions, now)| >= 3
  }

  /**
   A result that opens an incident inserts the incident's row exactly when the check was not flapping and had fewer
   than three status changes in the last hour. Otherwise its state names an incident that has no row of its own.
   */
  lemma RowInsertedIff(entries: seq<Entry>, e: Entry)
    requires Opens(Previous(RecordAll(entries), e), ObservationOf(e))
    ensures var t, x := RecordAll(entries), ObservationOf(e);
            var near, u := NearFlapping(Previous(t, e), x.now), RecordAll(entries + [e]);
            && e.key in u.states && u.states[e.key].openIncident == Some(x.incidentId)
            && (u.states[e.key].flapping <==> near)
            && u.incidents == (if near then t.incidents
                               else t.incidents[x.incidentId := IncidentRow(e.key, x.now, None)])
  {
    hide Transition, Recent, Previous;
    assert (entries + [e])[..|entries|] == entries;
    PreviousStatus(entries, e);
    OpeningStep(Previous(RecordAll(entries), e), ObservationOf(e));
  }

  /*** What one record does ***/

  // The number of results in a row that a threshold asks for.
  function Needed(threshold: Option<int>): int {
    match threshold case Some(n) => n case None => 2
  }

  // A result that is neither disabled nor suspended by a failing parent or a grace period.
  predicate Unsuspended(e: Entry) {
    !e.parentFailing && (e.graceUntil.Some? ==> e.graceUntil.value <= e.startedAt + e.duration)
  }

  lemma EntryKind(s: CheckState, e: Entry)
    ensures Opens(s, ObservationOf(e)) <==>
              && e.result in {Warn, Fail} && Unsuspended(e)
              && s.openIncident.None? && s.fails + 1 >= Needed(e.failThreshold)
    ensures Recovers(s, ObservationOf(e)) <==>
              && e.result == Okay && Unsuspended(e)
              && s.openIncident.Some? && s.oks + 1 >= Needed(e.recoverThreshold)
  {
  }

  /**
   A recorded result opens an incident exactly when it is the last of enough failing ones, and closes the open one
   exactly when it is the last of enough ok ones. The incident is named by check and time. Closing marks its row,
   if it has one, resolved at the time of the result. No other check and no other row changes.
   */
  lemma RecordedOpensAndCloses(entries: seq<Entry>, e: Entry)
    ensures var t, u := RecordAll(entries), RecordAll(entries + [e]);
            var s, now := Previous(t, e), e.startedAt + e.duration;
            var opens := && e.result in {Warn, Fail} && Unsuspended(e)
                         && s.openIncident.None? && s.fails + 1 >= Needed(e.failThreshold);
            var closes := && e.result == Okay && Unsuspended(e)
                          && s.openIncident.Some? && s.oks + 1 >= Needed(e.recoverThreshold);
            && e.key in u.states && u.states == t.states[e.key := u.states[e.key]]
            && u.states[e.key].openIncident
               == (if opens then Some(IncidentId(e.key, now)) else if closes then None else s.openIncident)
            && u.incidents
               == (if opens && !NearFlapping(s, now)
                   then t.incidents[IncidentId(e.key, now) := IncidentRow(e.key, now, None)]
                   else if closes && s.openIncident.value in t.incidents
                   then t.incidents[s.openIncident.value := t.incidents[s.openIncident.value].(resolvedAt := Some(now))]
                   else t.incidents)
  {
    var s := Previous(RecordAll(entries), e);
    assert (entries + [e])[..|entries|] == entries;
    EntryKind(s, e);
    StepIncident(s, ObservationOf(e));
    if Opens(s, ObservationOf(e)) {
      RowInsertedIff(entries, e);
    }
    hide Transition, Opens, Recovers, NearFlapping, Previous;
  }

  /*** An incident without a row ***/

  // A result of the check "k" with both thresholds at one.
  function Probe(result: Status, at: int): Entry {
    Entry("k", result, at, 0, Some(1), Some(1), false, None)
  }

  // The check's state after it has changed its status at each of the times.
  predicate Toggled(t: Tables, status: Status, times: seq<int>, flapping: bool, incident: Option<IncidentId>) {
    && "k" in t.states
    && var s := t.states["k"];
       && s.status == status && s.transitions == times && s.flapping == flapping && s.openIncident == incident
       && s.stableSince.Some? && times != [] && s.stableSince.value == times[|times| - 1]
  }

  lemma {:induction false} AllRecent(ts: seq<int>, now: int)
    requires forall i | 0 <= i < |ts| :: ts[i] > now - HOUR
    ensures Recent(ts, now) == ts
  {
    if ts != [] {
      AllRecent(ts[..|ts| - 1], now);
    }
  }

  // A step that changes the status between failing and ok, with all earlier changes still retained.
  lemma ToggleStep(s: CheckState, x: Observation)
    requires x == ObservationOf(Probe(x.result, x.now)) && Recent(s.transitions, x.now) == s.transitions
    requires (x.result == Fail && s.status == Okay && s.openIncident.None?)
             || (x.result == Okay && s.status == Fail && s.openIncident.Some?)
    ensures var out := Transition(s, x);
            var t := out.state;
            && t.status == x.result && t.transitions == s.transitions + [x.now] && t.stableSince == Some(x.now)
            && t.flapping == (s.flapping || |s.transitions| >= 3)
            && t.openIncident == (if x.result == Fail then Some(x.incidentId) else None)
            && (s.flapping ==> out.event != Opened) && (x.result == Fail ==> out.recovered.None?)
  {
    hide Recent;
  }

  // One result more: a failure opens an incident, an ok result closes it, and both change the status.
  lemma Toggle(entries: seq<Entry>, result: Status, times: seq<int>, flapping: bool, incident: Option<IncidentId>,
               at: int)
    requires Toggled(RecordAll(entries), if result == Fail then Okay else Fail, times, flapping, incident)
    requires (result == Fail && incident.None?) || (result == Okay && incident.Some?)
    requires forall i | 0 <= i < |times| :: at - HOUR < times[i] <= at
    ensures var id := IncidentId("k", at);
            var t, u := RecordAll(entries), RecordAll(entries + [Probe(result, at)]);
            && Toggled(u, result, times + [at], flapping || |times| >= 3, if result == Fail then Some(id) else None)
            && (flapping && result == Fail ==> u.incidents == t.incidents)
            && forall other | other != id && other !in t.incidents :: other !in u.incidents
  {
    hide Recent, Transition;
    var e := Probe(result, at);
    assert (entries + [e])[..|entries|] == entries;
    AllRecent(times, at);
    ToggleStep(RecordAll(entries).states["k"], ObservationOf(e));
  }

  lemma FirstProbe()
    ensures var t := RecordAll([Probe(Fail, 0)]);
            && Toggled(t, Fail, [0], false, Some(IncidentId("k", 0)))
            && forall other | other != IncidentId("k", 0) :: other !in t.incidents
  {
    assert [Probe(Fail, 0)][..0] == [];
    assert RecordAll([Probe(Fail, 0)]) == Record(Tables(map[], map[]), Probe(Fail, 0));
    assert Recent([], 0) == [];
  }

  /** Five results in five milliseconds leave a check in an incident for which no row exists. */
  lemma IncidentWithoutRow()
    ensures var t := RecordAll([Probe(Fail, 0), Probe(Okay, 1), Probe(Fail, 2), Probe(Okay, 3), Probe(Fail, 4)]);
            && "k" in t.states && t.states["k"].status == Fail
            && t.states["k"].openIncident == Some(IncidentId("k", 4))
            && IncidentId("k", 4) !in t.incidents
  {
    hide RecordAll;
    var e0 := [Probe(Fail, 0)];
    var e1 := e0 + [Probe(Okay, 1)];
    var e2 := e1 + [Probe(Fail, 2)];
    var e3 := e2 + [Probe(Okay, 3)];
    FirstProbe();
    Toggle(e0, Okay, [0], false, Some(IncidentId("k", 0)), 1);
    Toggle(e1, Fail, [0] + [1], false, None, 2);
    Toggle(e2, Okay, [0] + [1] + [2], false, Some(IncidentId("k", 2)), 3);
    Toggle(e3, Fail, [0] + [1] + [2] + [3], true, None, 4);
    assert e3 + [Probe(Fail, 4)] == [Probe(Fail, 0), Probe(Okay, 1), Probe(Fail, 2), Probe(Okay, 3), Probe(Fail, 4)];
  }
}
