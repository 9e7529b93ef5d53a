/** A check over a whole history of observations: counters, incidents and flapping in terms of the history. */
module HealthRuns {
  import opened Common
  import opened HealthStateMachine

  type History = seq<Observation>

  /** The state after a history, from the initial state. */
  function Run(start: int, h: History): CheckState {
    if h == [] then InitialState(start) else Transition(Run(start, h[..|h| - 1]), h[|h| - 1]).state
  }

  /*** Counters ***/

  // Position i belongs to the trailing run of results of one kind: nothing of another kind, but for skipped ones.
  predicate Trailing(h: History, kind: Kind, i: nat)
    requires i < |h|
  {
    KindOf(h[i]) == kind && forall j | i <= j < |h| :: KindOf(h[j]) == kind || KindOf(h[j]) == Skip
  }

  function TrailingRun(h: History, kind: Kind): set<nat> {
    set i: nat | 0 <= i < |h| && Trailing(h, kind, i)
  }

  lemma TrailingStep(h: History, kind: Kind)
    requires h != [] && kind != Skip
    ensures var n := |h| - 1;
            TrailingRun(h, kind) ==
            (if KindOf(h[n]) == kind then TrailingRun(h[..n], kind) + {n}
             else if KindOf(h[n]) == Skip then TrailingRun(h[..n], kind)
             else {})
  {
    var n := |h| - 1;
    var p := h[..n];
    forall i: nat | i < n ensures Trailing(h, kind, i) <==>
        Trailing(p, kind, i) && (KindOf(h[n]) == kind || KindOf(h[n]) == Skip)
    {
      assert forall j | i <= j < n :: p[j] == h[j];
    }
    assert Trailing(h, kind, n) <==> KindOf(h[n]) == kind;
  }

  lemma StepCounters(s: CheckState, x: Observation)
    ensures var t, kind := Transition(s, x).state, KindOf(x);
            && t.fails == (if kind == Bad then s.fails + 1 else if kind == Skip then s.fails else 0)
            && t.oks == (if kind == Good then s.oks + 1 else if kind == Skip then s.oks else 0)
            && t.openIncident == (if Opens(s, x) then Some(x.incidentId) else if Recovers(s, x) then None
                                  else s.openIncident)
  {
  }

  lemma NoTrailing(kind: Kind)
    ensures TrailingRun([], kind) == {}
  {
  }

  lemma TrailingBounded(h: History, kind: Kind)
    ensures |h| !in TrailingRun(h, kind)
  {
  }

  /** The counters are the lengths of the trailing runs of failing and of ok results. */
  lemma {:induction false} CountersAreTrailingRuns(start: int, h: History)
    ensures Run(start, h).fails == |TrailingRun(h, Bad)|
    ensures Run(start, h).oks == |TrailingRun(h, Good)|
  {
    hide Transition, TrailingRun;
    if h == [] {
      NoTrailing(Bad);
      NoTrailing(Good);
    } else {
      var n := |h| - 1;
      CountersAreTrailingRuns(start, h[..n]);
      StepCounters(Run(start, h[..n]), h[n]);
      TrailingStep(h, Bad);
      TrailingStep(h, Good);
      TrailingBounded(h[..n], Bad);
      TrailingBounded(h[..n], Good);
    }
  }

  /*** What a result counts as ***/

  // Nothing suspends the check: no parent fails, and no grace period is running.
  predicate Counts(x: Observation) {
    !x.parentFailing && (x.graceUntil.Some? ==> x.graceUntil.value <= x.now)
  }

  predicate Failing(x: Observation) {
    x.result in {Warn, Fail} && Counts(x)
  }

  predicate Passing(x: Observation) {
    x.result == Okay && Counts(x)
  }

  lemma KindMeans(x: Observation)
    ensures KindOf(x) == Bad <==> Failing(x)
    ensures KindOf(x) == Good <==> Passing(x)
    ensures KindOf(x) == Reset <==> x.result == Disabled || !Counts(x)
  {
  }

  /** With omitted thresholds the second of two failing results leaves an incident open, after any history. */
  lemma TwoFailuresOpen(start: int, h: History, x: Observation, y: Observation)
    requires Failing(x) && Failing(y) && x.failThreshold.None? && y.failThreshold.None?
    ensures var t, u := Run(start, h + [x]), Run(start, h + [x] + [y]);
            && u.openIncident.Some?
            && (t.openIncident.None? ==> u.openIncident == Some(y.incidentId) && u.status == y.result)
            && (Run(start, h).openIncident.Some? ==> u.openIncident == Run(start, h).openIncident)
  {
    RunAppend(start, h, x);
    RunAppend(start, h + [x], y);
    KindMeans(x);
    KindMeans(y);
    StepCounters(Run(start, h), x);
    StepCounters(Run(start, h + [x]), y);
    StepStatus(Run(start, h + [x]), y);
    hide Transition, Run, KindOf;
  }

  /** With omitted thresholds two ok results leave no incident open and the status ok, after any history. */
  lemma TwoOksClose(start: int, h: History, x: Observation, y: Observation)
    requires Passing(x) && Passing(y) && x.recoverThreshold.None? && y.recoverThreshold.None?
    ensures var u := Run(start, h + [x] + [y]);
            u.openIncident.None? && u.status == Okay && u.lastOkAt == Some(y.now)
  {
    RunAppend(start, h, x);
    RunAppend(start, h + [x], y);
    KindMeans(x);
    KindMeans(y);
    StepCounters(Run(start, h), x);
    StepCounters(Run(start, h + [x]), y);
    StepStatus(Run(start, h + [x]), y);
    StepFields(Run(start, h + [x]), y);
    hide Transition, Run, KindOf;
  }

  /**
   A disabled result, a failing parent and a grace period, in this order, show their status and reset both counters.
   An open incident stays open.
   */
  lemma SuspendedShows(start: int, h: History, x: Observation)
    requires x.result == Disabled || !Counts(x)
    ensures var s, t := Run(start, h), Run(start, h + [x]);
            && t.status == (if x.result == Disabled then Disabled else if x.parentFailing then Blocked else Unknown)
            && t.fails == t.oks == 0 && t.openIncident == s.openIncident && t.lastOkAt == s.lastOkAt
  {
    RunAppend(start, h, x);
    KindMeans(x);
    StepCounters(Run(start, h), x);
    StepStatus(Run(start, h), x);
    StepFields(Run(start, h), x);
    hide Transition, Run;
  }

  /**
   A new check is unknown. A failing result shows itself when it opens an incident, and unknown while none is open; an
   ok result shows as ok when no incident is left. Neither changes what an open incident shows.
   */
  lemma ResultShows(start: int, h: History, x: Observation)
    ensures Run(start, []).status == Unknown
    ensures var s, t := Run(start, h), Run(start, h + [x]);
            && (Failing(x) ==>
                  t.status == (if t.openIncident.None? then Unknown
                               else if s.openIncident.None? then x.result else s.status))
            && (Passing(x) ==> t.status == (if t.openIncident.None? then Okay else s.status))
  {
    RunAppend(start, h, x);
    KindMeans(x);
    StepCounters(Run(start, h), x);
    StepStatus(Run(start, h), x);
    hide Transition, Run, KindOf;
  }

  /** A result of another kind shows as unknown, and neither counts nor resets. */
  lemma OtherResultsSkip(start: int, h: History, x: Observation)
    requires x.result in {Unknown, Blocked} && Counts(x)
    ensures var s, t := Run(start, h), Run(start, h + [x]);
            && t.status == Unknown && t.fails == s.fails && t.oks == s.oks
            && t.openIncident == s.openIncident && t.lastOkAt == s.lastOkAt
  {
    RunAppend(start, h, x);
    StepCounters(Run(start, h), x);
    StepStatus(Run(start, h), x);
    StepFields(Run(start, h), x);
    hide Transition, Run;
  }

  /*** Incidents ***/

  // The i-th observation completes a run of failures that reaches its threshold.
  predicate Fails(h: History, i: nat)
    requires i < |h|
  {
    KindOf(h[i]) == Bad && |TrailingRun(h[..i + 1], Bad)| >= Threshold(h[i].failThreshold)
  }

  predicate Heals(h: History, i: nat)
    requires i < |h|
  {
    KindOf(h[i]) == Good && |TrailingRun(h[..i + 1], Good)| >= Threshold(h[i].recoverThreshold)
  }

  predicate FailedSince(h: History, i: nat)
    requires i < |h|
  {
    Fails(h, i) && forall j | i < j < |h| :: !Heals(h, j)
  }

  lemma PrefixFails(h: History, i: nat)
    requires i + 1 < |h|
    ensures Fails(h[..|h| - 1], i) == Fails(h, i) && Heals(h[..|h| - 1], i) == Heals(h, i)
  {
    assert h[..|h| - 1][..i + 1] == h[..i + 1];
  }

  lemma LastFails(start: int, h: History)
    requires h != []
    ensures var n, s := |h| - 1, Run(start, h[..|h| - 1]);
            && (Opens(s, h[n]) <==> s.openIncident.None? && Fails(h, n))
            && (Recovers(s, h[n]) <==> s.openIncident.Some? && Heals(h, n))
  {
    hide TrailingRun;
    var n := |h| - 1;
    assert h[..n + 1] == h;
    CountersAreTrailingRuns(start, h[..n]);
    TrailingStep(h, Bad);
    TrailingStep(h, Good);
    TrailingBounded(h[..n], Bad);
    TrailingBounded(h[..n], Good);
  }

  // One more observation keeps a failure standing unless it heals.
  lemma SinceStep(h: History, i: nat)
    requires i + 1 < |h|
    ensures FailedSince(h, i) <==> FailedSince(h[..|h| - 1], i) && !Heals(h, |h| - 1)
  {
    hide Fails, Heals;
    var n := |h| - 1;
    PrefixFails(h, i);
    forall j | i < j < n ensures Heals(h[..n], j) == Heals(h, j) {
      PrefixFails(h, j);
    }
  }

  lemma LastSince(h: History)
    requires h != []
    ensures FailedSince(h, |h| - 1) <==> Fails(h, |h| - 1)
  {
  }

  /**
   An incident is open exactly when some run of failures has reached its threshold and no run of ok results has
   reached its own since.
   */
  lemma {:induction false} IncidentOpenIff(start: int, h: History)
    ensures Run(start, h).openIncident.Some? <==> exists i | 0 <= i < |h| :: FailedSince(h, i)
  {
    hide Transition, FailedSince, Fails, Heals, Opens, Recovers;
    if h != [] {
      var n := |h| - 1;
      var s := Run(start, h[..n]);
      IncidentOpenIff(start, h[..n]);
      LastFails(start, h);
      StepCounters(s, h[n]);
      LastSince(h);
      NotBoth(h, n);
      forall i | 0 <= i < n ensures FailedSince(h, i) <==> FailedSince(h[..n], i) && !Heals(h, n) {
        SinceStep(h, i);
      }
      if i :| 0 <= i < n && FailedSince(h[..n], i) && !Heals(h, n) {
        assert FailedSince(h, i);
      }
      if Fails(h, n) {
        assert FailedSince(h, n);
      }
    }
  }

  lemma NotBoth(h: History, i: nat)
    requires i < |h|
    ensures !(Fails(h, i) && Heals(h, i))
  {
  }

  // The same thresholds, at least one, throughout.
  predicate Constant(h: History, fail: int, recover: int) {
    && fail >= 1 && recover >= 1
    && forall i | 0 <= i < |h| ::
         Threshold(h[i].failThreshold) == fail && Threshold(h[i].recoverThreshold) == recover
  }

  /** While no incident is open the failures are below their threshold, and while one is, the oks are below theirs. */
  lemma {:induction false} BelowThresholds(start: int, h: History, fail: int, recover: int)
    requires Constant(h, fail, recover)
    ensures Run(start, h).openIncident.None? ==> Run(start, h).fails < fail
    ensures Run(start, h).openIncident.Some? ==> Run(start, h).oks < recover
  {
    hide Transition;
    if h != [] {
      var n := |h| - 1;
      BelowThresholds(start, h[..n], fail, recover);
      StepCounters(Run(start, h[..n]), h[n]);
    }
  }

  /** With constant thresholds an incident appears exactly at the fail threshold and vanishes exactly at the other. */
  lemma IncidentsAtThresholds(start: int, h: History, x: Observation, fail: int, recover: int)
    requires Constant(h + [x], fail, recover)
    ensures var s, t := Run(start, h), Run(start, h + [x]);
            && (s.openIncident.None? && t.openIncident.Some? <==>
                  s.openIncident.None? && KindOf(x) == Bad && |TrailingRun(h + [x], Bad)| == fail)
            && (s.openIncident.Some? && t.openIncident.None? <==>
                  s.openIncident.Some? && KindOf(x) == Good && |TrailingRun(h + [x], Good)| == recover)
            && (s.openIncident.Some? && t.openIncident.Some? ==> s.openIncident == t.openIncident)
  {
    assert (h + [x])[..|h|] == h;
    assert forall i | 0 <= i < |h| :: (h + [x])[i] == h[i];
    BelowThresholds(start, h, fail, recover);
    CountersAreTrailingRuns(start, h + [x]);
  }

  /*** The flapping window ***/

  predicate Timed(start: int, h: History) {
    && (forall i | 0 <= i < |h| :: start <= h[i].now)
    && (forall i, j | 0 <= i < j < |h| :: h[i].now <= h[j].now)
  }

  // The times at which the status has changed.
  function Changes(start: int, h: History): seq<int> {
    if h == [] then []
    else
      var n := |h| - 1;
      Changes(start, h[..n]) + (if Run(start, h).status != Run(start, h[..n]).status then [h[n].now] else [])
  }

  predicate Sorted(ts: seq<int>) {
    forall i, j | 0 <= i < j < |ts| :: ts[i] <= ts[j]
  }

  predicate Within(ts: seq<int>, now: int) {
    forall i | 0 <= i < |ts| :: now - 3_600_000 < ts[i] <= now
  }

  function Now(start: int, h: History): int {
    if h == [] then start else h[|h| - 1].now
  }

  lemma {:induction false} RecentKeeps(ts: seq<int>, now: int)
    ensures |Recent(ts, now)| <= |ts|
    ensures forall t | t in Recent(ts, now) :: t in ts && t > now - HOUR
    ensures Sorted(ts) ==> Sorted(Recent(ts, now))
  {
    if ts != [] {
      var n := |ts| - 1;
      RecentKeeps(ts[..n], now);
      if Sorted(ts) {
        var r := Recent(ts[..n], now);
        forall i | 0 <= i < |r| ensures r[i] <= ts[n] {
          assert r[i] in r;
        }
      }
    }
  }

  // The status part of a step ignores the window.
  lemma StepStatus(s: CheckState, x: Observation)
    ensures Transition(s, x).state.status == NextStatus(s, x)
    ensures Transition(s, x).state.stableSince == (if NextStatus(s, x) != s.status then Some(x.now) else s.stableSince)
  {
  }

  // The window before the flapping rules are applied.
  function Window(s: CheckState, x: Observation): seq<int> {
    Recent(s.transitions, x.now) + (if NextStatus(s, x) != s.status then [x.now] else [])
  }

  lemma StepWindow(s: CheckState, x: Observation)
    ensures var t := Transition(s, x).state;
            && (t.transitions == Window(s, x) || (t.transitions == [] && s.flapping && !t.flapping))
            && (!s.flapping ==> (t.flapping <==> |Window(s, x)| >= 4) && t.transitions == Window(s, x))
            && (s.flapping && !t.flapping ==> t.transitions == [])
            && (s.flapping && !t.flapping <==>
                  s.flapping && t.stableSince.Some? && x.now - t.stableSince.value >= STABLE)
  {
  }

  /** Retained transitions are sorted and lie in the last hour, and a state that is not flapping has at most three. */
  lemma {:induction false} WindowHolds(start: int, h: History)
    requires Timed(start, h)
    ensures var s := Run(start, h);
            && Sorted(s.transitions) && Within(s.transitions, Now(start, h))
            && (!s.flapping ==> |s.transitions| <= 3)
  {
    hide Transition, Recent, NextStatus;
    if h != [] {
      var n := |h| - 1;
      var s := Run(start, h[..n]);
      WindowHolds(start, h[..n]);
      RecentKeeps(s.transitions, h[n].now);
      StepWindow(s, h[n]);
      var r := Recent(s.transitions, h[n].now);
      forall i | 0 <= i < |r| ensures h[n].now - HOUR < r[i] <= h[n].now {
        assert r[i] in r && r[i] in s.transitions;
        assert Now(start, h[..n]) <= h[n].now;
      }
    }
  }

  // The changes of a history come in the order of its results.
  lemma {:induction false} ChangesSorted(start: int, h: History)
    requires Timed(start, h)
    ensures Sorted(Changes(start, h))
    ensures forall t | t in Changes(start, h) :: t <= Now(start, h)
  {
    hide Run;
    if h != [] {
      var n := |h| - 1;
      ChangesSorted(start, h[..n]);
      var c := Changes(start, h[..n]);
      assert forall i | 0 <= i < |c| :: c[i] in c;
      assert Now(start, h[..n]) <= h[n].now;
    }
  }

  lemma {:induction false} StableSinceIsLast(start: int, h: History)
    ensures var c := Changes(start, h);
            Run(start, h).stableSince == if c == [] then None else Some(c[|c| - 1])
  {
    hide Transition, NextStatus;
    if h != [] {
      var n := |h| - 1;
      StableSinceIsLast(start, h[..n]);
      StepStatus(Run(start, h[..n]), h[n]);
    }
  }

  /** The stable time is the time of the last status change in the whole history, which is the latest of them. */
  lemma StableSinceIsLastChange(start: int, h: History)
    ensures var c := Changes(start, h);
            && Run(start, h).stableSince == (if c == [] then None else Some(c[|c| - 1]))
            && (Timed(start, h) ==> Sorted(c) && forall t | t in c :: t <= c[|c| - 1] <= Now(start, h))
  {
    hide Run, Changes;
    StableSinceIsLast(start, h);
    if Timed(start, h) {
      var c := Changes(start, h);
      ChangesSorted(start, h);
      forall t | t in c ensures t <= c[|c| - 1] <= Now(start, h) {
        var i :| 0 <= i < |c| && c[i] == t;
        assert c[|c| - 1] in c;
      }
    }
  }

  lemma {:induction false} TransitionsAreChanges(start: int, h: History)
    ensures |Run(start, h).transitions| <= |Changes(start, h)|
  {
    if h != [] {
      var n := |h| - 1;
      var s := Run(start, h[..n]);
      TransitionsAreChanges(start, h[..n]);
      RecentKeeps(s.transitions, h[n].now);
      StepWindow(s, h[n]);
      StepStatus(s, h[n]);
    }
  }

  lemma {:induction false} FlappingHasChanged(start: int, h: History)
    requires Run(start, h).flapping
    ensures Changes(start, h) != []
  {
    var n := |h| - 1;
    var s := Run(start, h[..n]);
    StepWindow(s, h[n]);
    if s.flapping {
      FlappingHasChanged(start, h[..n]);
      assert |Changes(start, h)| >= |Changes(start, h[..n])| > 0;
    } else {
      TransitionsAreChanges(start, h);
    }
  }

  lemma RunAppend(start: int, h: History, x: Observation)
    ensures Run(start, h + [x]) == Transition(Run(start, h), x).state
    ensures Run(start, []) == InitialState(start)
  {
    hide Transition;
    assert (h + [x])[..|h|] == h;
  }

  lemma CalmStep(s: CheckState, x: Observation)
    requires !s.flapping && |s.transitions| <= 3
    ensures Transition(s, x).state.flapping <==> NextStatus(s, x) != s.status && |Recent(s.transitions, x.now)| == 3
  {
    hide Transition, NextStatus, Recent;
    RecentKeeps(s.transitions, x.now);
    StepWindow(s, x);
  }

  lemma FlappingStarts(start: int, h: History, x: Observation)
    requires Timed(start, h) && !Run(start, h).flapping
    ensures var s, t := Run(start, h), Run(start, h + [x]);
            t.flapping <==> t.status != s.status && |Recent(s.transitions, x.now)| == 3
  {
    hide Run, Transition, NextStatus, Recent;
    RunAppend(start, h, x);
    WindowHolds(start, h);
    CalmStep(Run(start, h), x);
    StepStatus(Run(start, h), x);
  }

  lemma FlappingEnds(start: int, h: History, x: Observation)
    requires Run(start, h).flapping
    ensures var s, t := Run(start, h), Run(start, h + [x]);
            var c := Changes(start, h + [x]);
            && c != [] && (!t.flapping <==> x.now - c[|c| - 1] >= 1_800_000)
            && (!t.flapping ==> t.status == s.status && t.transitions == [])
  {
    hide Transition, NextStatus, Recent, Run, Window;
    RunAppend(start, h, x);
    FlappingHasChanged(start, h);
    assert (h + [x])[..|h|] == h;
    StableSinceIsLast(start, h + [x]);
    StepWindow(Run(start, h), x);
    StepStatus(Run(start, h), x);
  }

  lemma TimedPrefix(start: int, h: History, x: Observation)
    requires Timed(start, h + [x])
    ensures Timed(start, h)
  {
    assert forall i | 0 <= i < |h| :: (h + [x])[i] == h[i];
  }

  /**
   Flapping starts exactly when a status change is the fourth retained one, and ends exactly when the last status
   change of the history is at least 30 minutes past.
   */
  lemma FlappingWindow(start: int, h: History, x: Observation)
    requires Timed(start, h + [x])
    ensures var s, t := Run(start, h), Run(start, h + [x]);
            var c := Changes(start, h + [x]);
            && (!s.flapping && t.flapping <==>
                  !s.flapping && t.status != s.status && |Recent(s.transitions, x.now)| == 3)
            && (s.flapping ==> c != [] && (!t.flapping <==> x.now - c[|c| - 1] >= 1_800_000))
            && (s.flapping && !t.flapping ==> t.status == s.status && t.transitions == [])
  {
    hide *;
    TimedPrefix(start, h, x);
    if Run(start, h).flapping {
      FlappingEnds(start, h, x);
    } else {
      FlappingStarts(start, h, x);
    }
  }

  // The status changes since flapping last ended.
  function SinceCalm(start: int, h: History): seq<int> {
    if h == [] then []
    else
      var n := |h| - 1;
      if Run(start, h[..n]).flapping && !Run(start, h).flapping then []
      else SinceCalm(start, h[..n]) + (if Run(start, h).status != Run(start, h[..n]).status then [h[n].now] else [])
  }

  lemma {:induction false} RecentTwice(ts: seq<int>, earlier: int, now: int)
    requires earlier <= now
    ensures Recent(Recent(ts, earlier), now) == Recent(ts, now)
  {
    if ts != [] {
      var n := |ts| - 1;
      RecentTwice(ts[..n], earlier, now);
      var r := Recent(ts[..n], earlier);
      if ts[n] > earlier - HOUR {
        var q := r + [ts[n]];
        assert Recent(ts, earlier) == q && q[..|q| - 1] == r && q[|q| - 1] == ts[n];
        assert Recent(q, now) == Recent(r, now) + (if ts[n] > now - HOUR then [ts[n]] else []);
      } else {
        assert Recent(ts, earlier) == r && Recent(ts, now) == Recent(ts[..n], now);
      }
    }
  }

  lemma RecentNow(ts: seq<int>, now: int)
    ensures Recent(ts + [now], now) == Recent(ts, now) + [now]
  {
    assert (ts + [now])[..|ts|] == ts;
  }

  lemma {:induction false} RecentMembers(ts: seq<int>, now: int)
    ensures forall t :: t in Recent(ts, now) <==> t in ts && t > now - 3_600_000
  {
    if ts != [] {
      var n := |ts| - 1;
      RecentMembers(ts[..n], now);
      assert ts == ts[..n] + [ts[n]];
    }
  }

  /**
   The retained transitions are the status changes since flapping last ended, in order, without those that are an
   hour old or older.
   */
  lemma RetainedAreRecentChanges(start: int, h: History)
    requires Timed(start, h)
    ensures var kept, c := Run(start, h).transitions, SinceCalm(start, h);
            && kept == Recent(c, Now(start, h))
            && forall t :: t in kept <==> t in c && t > Now(start, h) - 3_600_000
  {
    hide *;
    RetainedAreRecent(start, h);
    RecentMembers(SinceCalm(start, h), Now(start, h));
  }

  lemma {:induction false} RetainedAreRecent(start: int, h: History)
    requires Timed(start, h)
    ensures Run(start, h).transitions == Recent(SinceCalm(start, h), Now(start, h))
  {
    hide Transition, Recent, NextStatus;
    if h == [] {
      CalmClears(InitialState(start), [], start);
    } else {
      var n := |h| - 1;
      var s := Run(start, h[..n]);
      RetainedAreRecent(start, h[..n]);
      StepStatus(s, h[n]);
      assert Now(start, h[..n]) <= h[n].now;
      RecentTwice(SinceCalm(start, h[..n]), Now(start, h[..n]), h[n].now);
      RecentNow(SinceCalm(start, h[..n]), h[n].now);
      CalmClears(s, [h[n]], h[n].now);
      assert SinceCalm(start, h[..n]) + [] == SinceCalm(start, h[..n]);
      assert Recent(s.transitions, h[n].now) + [] == Recent(s.transitions, h[n].now);
    }
  }

  // A step that ends flapping clears the window.
  lemma CalmClears(s: CheckState, xs: seq<Observation>, now: int)
    ensures Recent([], now) == []
    ensures |xs| == 1 ==>
              var t := Transition(s, xs[0]).state;
              t.transitions == (if s.flapping && !t.flapping then [] else Window(s, xs[0]))
  {
  }

  /*** The other fields ***/

  // The time of the last ok result that counted.
  function LastGood(h: History): Option<int> {
    if h == [] then None
    else if KindOf(h[|h| - 1]) == Good then Some(h[|h| - 1].now)
    else LastGood(h[..|h| - 1])
  }

  lemma StepFields(s: CheckState, x: Observation)
    ensures var t := Transition(s, x).state;
            && t.since == (if NextStatus(s, x) != s.status then x.now else s.since)
            && t.lastOkAt == (if KindOf(x) == Good then Some(x.now) else s.lastOkAt)
  {
  }

  /** The status has stood since its last change, and the last ok time is that of the last ok result that counted. */
  lemma {:induction false} TimesOfHistory(start: int, h: History)
    ensures var c := Changes(start, h);
            Run(start, h).since == if c == [] then start else c[|c| - 1]
    ensures Run(start, h).lastOkAt == LastGood(h)
  {
    hide Transition, NextStatus;
    if h != [] {
      var n := |h| - 1;
      TimesOfHistory(start, h[..n]);
      StepStatus(Run(start, h[..n]), h[n]);
      StepFields(Run(start, h[..n]), h[n]);
    }
  }

  /**
   The event of a step tells a start of flapping, and every opening and closing of an incident unless the check
   flaps afterwards; a closed incident is named in any case.
   */
  lemma EventTells(start: int, h: History, x: Observation)
    ensures var s, out := Run(start, h), Transition(Run(start, h), x);
            var t := Run(start, h + [x]);
            && out.state == t
            && (out.event == StartedFlapping <==> !s.flapping && t.flapping)
            && (out.event == Opened <==> s.openIncident.None? && t.openIncident.Some? && !t.flapping)
            && (out.event == Recovered <==> s.openIncident.Some? && t.openIncident.None? && !t.flapping)
            && out.recovered == (if t.openIncident.None? then s.openIncident else None)
  {
    hide Recent, NextStatus;
    RunAppend(start, h, x);
    StepCounters(Run(start, h), x);
    StepWindow(Run(start, h), x);
  }

  /** A failing status is shown only while an incident is open, an ok status only while none is. */
  lemma {:induction false} StatusMatchesIncident(start: int, h: History)
    ensures Run(start, h).status in {Warn, Fail} ==> Run(start, h).openIncident.Some?
    ensures Run(start, h).status == Okay ==> Run(start, h).openIncident.None?
  {
    if h != [] {
      var n := |h| - 1;
      StatusMatchesIncident(start, h[..n]);
      StepStatus(Run(start, h[..n]), h[n]);
      StepCounters(Run(start, h[..n]), h[n]);
      hide Transition;
    }
  }
}
