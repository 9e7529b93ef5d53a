/** Runs of the session core: what every order of its serialised transactions keeps. */
module SessionLaws {
  import opened Common
  import opened CanonicalText
  import opened SessionCore

  /*** Runs ***/

  // The store may also roll a transaction back, or commit it and lose the acknowledgement.
  datatype Outcome = Done | RolledBack | LostAck

  datatype Step =
    | DoLogin(at: nat, profile: Profile, context: Context, draws: Draws, outcome: Outcome)
    | DoAuthenticate(token: Text, context: Context, at: nat, outcome: Outcome)
    | DoRefresh(token: Text, context: Context, at: nat, drawn: Text, outcome: Outcome)
    | DoLogout(token: Text, context: Context, at: nat, outcome: Outcome)
    | DoRevokeAll(account: Text, listed: seq<Record>, at: nat, outcome: Outcome)

  // History: the times at which a session was used, its login first, and the tokens exchanged for new ones.
  datatype State = State(store: Store, uses: map<Text, seq<nat>>, exchanges: seq<Text>)

  const INITIAL: State := State(Store(map[], map[], []), map[], [])

  function Used(uses: map<Text, seq<nat>>, id: Text, at: nat): map<Text, seq<nat>> {
    uses[id := (if id in uses then uses[id] else []) + [at]]
  }

  // The session of a token.
  function SessionOf(st: Store, token: Text): Text {
    if token in st.tokens then st.tokens[token].sessionId else []
  }

  ghost function Apply(cfg: Config, s: State, step: Step): State {
    if step.outcome.RolledBack? then s
    else
      match step
      case DoLogin(at, profile, context, draws, _) =>
        var r := Login(cfg, s.store, at, profile, context, draws);
        if profile.authTime > at || r.Err? then s
        else s.(store := r.value, uses := Used(s.uses, draws.sessionId, at))
      case DoAuthenticate(token, context, at, _) =>
        var r := Authenticate(cfg, s.store, token, context, at);
        if r.Err? then s else s.(store := r.value, uses := Used(s.uses, SessionOf(s.store, token), at))
      case DoRefresh(token, context, at, drawn, _) =>
        var r := Refresh(cfg, s.store, token, context, at, drawn);
        if r.Err? then s
        else if r.value.reused then s.(store := r.value.store)
        else State(r.value.store, Used(s.uses, SessionOf(s.store, token), at), s.exchanges + [token])
      case DoLogout(token, context, at, _) =>
        var r := Logout(cfg, s.store, token, context, at);
        if r.Err? then s else s.(store := r.value.0)
      case DoRevokeAll(account, listed, at, _) =>
        var r := RevokeEach(s.store, account, listed, at);
        if !Listing(s.store, account, listed) || r.Err? then s else s.(store := r.value.0)
  }

  ghost function Run(cfg: Config, s: State, steps: seq<Step>): State
    decreases |steps|
  {
    if steps == [] then s else Run(cfg, Apply(cfg, s, steps[0]), steps[1..])
  }

  /*** The invariant ***/

  ghost function Family(tokens: map<Text, Entry>, id: Text): set<Text> {
    set t | t in tokens && tokens[t].sessionId == id
  }

  ghost function Current(tokens: map<Text, Entry>, id: Text): set<Text> {
    set t | t in tokens && tokens[t].sessionId == id && tokens[t].current
  }

  function Ledger(events: seq<Event>, id: Text): seq<Event> {
    if events == [] then []
    else Ledger(events[..|events| - 1], id)
         + (if events[|events| - 1].sessionId == id then [events[|events| - 1]] else [])
  }

  predicate Terminal(k: Kind) {
    k.Revoked? || k.Reused?
  }

  // Tokens: one is current, and there is one for the login and one for every refresh.
  ghost predicate FamilyOk(tokens: map<Text, Entry>, r: Record) {
    && |Current(tokens, r.sessionId)| == 1
    && |Family(tokens, r.sessionId)| == r.revision - (if r.revokedAt.Some? then 1 else 0)
  }

  // Events carry revisions 1 to n; creation comes first, and a revocation comes last, exactly if there is one.
  ghost predicate LedgerOk(es: seq<Event>, r: Record) {
    && |es| == r.revision && r.revision >= 1
    && (forall k | 0 <= k < |es| ::
          && es[k].revision == k + 1
          && (es[k].kind.Created? <==> k == 0)
          && (Terminal(es[k].kind) <==> k == |es| - 1 && r.revokedAt.Some?))
  }

  ghost predicate TimesOk(cfg: Config, r: Record, uses: seq<nat>) {
    && |uses| >= 1 && uses[0] == r.createdAt && uses[|uses| - 1] == r.lastSeenAt
    && (forall k | 0 <= k < |uses| - 1 :: uses[k] <= uses[k + 1] < uses[k] + cfg.idleTtl)
    && r.profile.authTime <= r.createdAt <= r.lastSeenAt < r.expiresAt
    && r.expiresAt == r.createdAt + cfg.absoluteTtl <= MAX_SAFE
  }

  ghost predicate SessionOk(cfg: Config, s: State, id: Text)
    requires id in s.store.sessions
  {
    var r := s.store.sessions[id];
    && r.sessionId == id && r.revision <= MAX_SAFE && id in s.uses
    && FamilyOk(s.store.tokens, r)
    && LedgerOk(Ledger(s.store.events, id), r)
    && TimesOk(cfg, r, s.uses[id])
  }

  // Exchanged tokens are the rotated ones, and none was exchanged twice.
  ghost predicate ExchangesOk(s: State) {
    && (forall t: Text :: t in s.exchanges <==> t in s.store.tokens && !s.store.tokens[t].current)
    && (forall i, j | 0 <= i < j < |s.exchanges| :: s.exchanges[i] != s.exchanges[j])
  }

  ghost predicate Inv(cfg: Config, s: State) {
    && (forall id | id in s.store.sessions :: SessionOk(cfg, s, id))
    && (forall t | t in s.store.tokens :: s.store.tokens[t].sessionId in s.store.sessions)
    && (forall i | 0 <= i < |s.store.events| :: s.store.events[i].sessionId in s.store.sessions)
    && s.uses.Keys <= s.store.sessions.Keys
    && ExchangesOk(s)
  }

  // How a session record may change.
  predicate RecordGrows(a: Record, b: Record) {
    && b == a.(lastSeenAt := b.lastSeenAt, revokedAt := b.revokedAt, revision := b.revision)
    && a.lastSeenAt <= b.lastSeenAt && a.revision <= b.revision
    && (a.revokedAt.Some? ==> a == b)
  }

  ghost predicate Extends(s: State, t: State) {
    && (forall id | id in s.store.sessions ::
          id in t.store.sessions && RecordGrows(s.store.sessions[id], t.store.sessions[id]))
    && (forall k | k in s.store.tokens ::
          && k in t.store.tokens && s.store.tokens[k].sessionId == t.store.tokens[k].sessionId
          && (t.store.tokens[k].current ==> s.store.tokens[k].current))
    && s.store.events <= t.store.events && s.exchanges <= t.exchanges
  }

  lemma ExtendsTransitive(s: State, t: State, u: State)
    requires Extends(s, t) && Extends(t, u)
    ensures Extends(s, u)
  {
    forall id | id in s.store.sessions ensures RecordGrows(s.store.sessions[id], u.store.sessions[id]) {
      assert RecordGrows(s.store.sessions[id], t.store.sessions[id]);
      assert RecordGrows(t.store.sessions[id], u.store.sessions[id]);
    }
  }

  /*** Events ***/

  lemma LedgerAppend(events: seq<Event>, e: Event, id: Text)
    ensures Ledger(events + [e], id) == Ledger(events, id) + (if e.sessionId == id then [e] else [])
  {
    assert (events + [e])[..|events|] == events;
  }

  lemma {:induction false} LedgerMembers(events: seq<Event>, i: nat)
    requires i < |events|
    ensures events[i] in Ledger(events, events[i].sessionId)
  {
    if i < |events| - 1 {
      LedgerMembers(events[..|events| - 1], i);
    }
  }

  lemma {:induction false} LedgerEmpty(events: seq<Event>, id: Text)
    requires forall i | 0 <= i < |events| :: events[i].sessionId != id
    ensures Ledger(events, id) == []
  {
    if events != [] {
      LedgerEmpty(events[..|events| - 1], id);
    }
  }

  /** An event with a revision the session has not reached has a free identifier. */
  lemma EventIsFree(events: seq<Event>, r: Record, e: Event)
    requires LedgerOk(Ledger(events, r.sessionId), r) && e.sessionId == r.sessionId && e.revision > r.revision
    ensures !EventTaken(events, e)
  {
    if i :| 0 <= i < |events| && SameEventId(events[i], e) {
      LedgerMembers(events, i);
    }
  }

  lemma LedgerGrows(events: seq<Event>, r: Record, next: Record, e: Event)
    requires LedgerOk(Ledger(events, r.sessionId), r) && r.revokedAt.None?
    requires next.sessionId == r.sessionId == e.sessionId && next.revision == r.revision + 1 == e.revision
    requires !e.kind.Created? && (Terminal(e.kind) <==> next.revokedAt.Some?)
    ensures LedgerOk(Ledger(events + [e], r.sessionId), next)
  {
    LedgerAppend(events, e, r.sessionId);
  }

  /*** The elementary changes ***/

  // One session, its tokens, its events and its uses have changed.
  ghost predicate Change(s: State, t: State, id: Text) {
    && id in t.store.sessions && t.store.sessions == s.store.sessions[id := t.store.sessions[id]]
    && id in t.uses && t.uses == s.uses[id := t.uses[id]]
    && (forall k | k in t.store.tokens && k !in s.store.tokens :: t.store.tokens[k].sessionId == id)
    && (forall k | k in s.store.tokens ::
          k in t.store.tokens && t.store.tokens[k].sessionId == s.store.tokens[k].sessionId
          && (t.store.tokens[k] == s.store.tokens[k] || s.store.tokens[k] == Entry(id, true)))
    && (t.store.events == s.store.events
        || exists e: Event :: t.store.events == s.store.events + [e] && e.sessionId == id)
    && s.exchanges <= t.exchanges
  }

  lemma OtherLedger(s: State, t: State, id: Text, other: Text)
    requires Change(s, t, id) && other != id
    ensures Ledger(t.store.events, other) == Ledger(s.store.events, other)
  {
    if t.store.events != s.store.events {
      var e: Event :| t.store.events == s.store.events + [e] && e.sessionId == id;
      LedgerAppend(s.store.events, e, other);
    }
  }

  lemma OtherTokens(s: State, t: State, id: Text, other: Text)
    requires Change(s, t, id) && other != id
    ensures Family(t.store.tokens, other) == Family(s.store.tokens, other)
    ensures Current(t.store.tokens, other) == Current(s.store.tokens, other)
  {
    hide Ledger;
    assert Family(t.store.tokens, other) == Family(s.store.tokens, other);
    assert Current(t.store.tokens, other) == Current(s.store.tokens, other);
  }

  lemma OtherFields(s: State, t: State, id: Text, other: Text)
    requires Change(s, t, id) && other != id
    ensures other in t.store.sessions <==> other in s.store.sessions
    ensures other in s.store.sessions ==> t.store.sessions[other] == s.store.sessions[other]
    ensures other in t.uses <==> other in s.uses
    ensures other in s.uses ==> t.uses[other] == s.uses[other]
  {
  }

  lemma OtherSession(cfg: Config, s: State, t: State, id: Text, other: Text)
    requires Change(s, t, id) && other != id && other in s.store.sessions && SessionOk(cfg, s, other)
    ensures other in t.store.sessions && SessionOk(cfg, t, other)
  {
    hide Change, Family, Current, Ledger, LedgerOk, TimesOk;
    OtherFields(s, t, id, other);
    OtherTokens(s, t, id, other);
    OtherLedger(s, t, id, other);
  }

  // Tokens, events and uses belong to sessions.
  lemma ChangeBelongs(cfg: Config, s: State, t: State, id: Text)
    requires Inv(cfg, s) && Change(s, t, id)
    ensures forall k | k in t.store.tokens :: t.store.tokens[k].sessionId in t.store.sessions
    ensures forall i | 0 <= i < |t.store.events| :: t.store.events[i].sessionId in t.store.sessions
    ensures t.uses.Keys <= t.store.sessions.Keys
  {
    hide SessionOk, ExchangesOk;
  }

  lemma OneSession(cfg: Config, s: State, t: State, id: Text)
    requires Inv(cfg, s) && Change(s, t, id) && id in t.store.sessions && SessionOk(cfg, t, id) && ExchangesOk(t)
    ensures Inv(cfg, t)
  {
    hide Change, SessionOk, ExchangesOk;
    ChangeBelongs(cfg, s, t, id);
    forall other | other in t.store.sessions ensures SessionOk(cfg, t, other) {
      if other != id {
        OtherFields(s, t, id, other);
        OtherSession(cfg, s, t, id, other);
      }
    }
  }

  lemma ChangeExtends(s: State, t: State, id: Text)
    requires Change(s, t, id)
    requires id in s.store.sessions ==> RecordGrows(s.store.sessions[id], t.store.sessions[id])
    ensures Extends(s, t)
  {
  }

  // The record stored under an identifier is that session's.
  lemma Stored(cfg: Config, s: State, id: Text)
    requires Inv(cfg, s) && id in s.store.sessions
    ensures SessionOk(cfg, s, id) && s.store.sessions[id].sessionId == id
  {
  }

  function Touched(s: State, r: Record, at: nat): State {
    State(s.store.(sessions := s.store.sessions[r.sessionId := r.(lastSeenAt := at)]),
          Used(s.uses, r.sessionId, at), s.exchanges)
  }

  // A use at a time the checks accept.
  predicate Timely(cfg: Config, r: Record, at: nat) {
    r.lastSeenAt <= at < r.expiresAt && !Idle(cfg, r, at)
  }

  lemma UsedTimes(cfg: Config, r: Record, uses: seq<nat>, at: nat)
    requires TimesOk(cfg, r, uses) && Timely(cfg, r, at)
    ensures TimesOk(cfg, r.(lastSeenAt := at), uses + [at])
  {
  }

  lemma TouchedSession(cfg: Config, s: State, r: Record, at: nat)
    requires r.sessionId in s.store.sessions && s.store.sessions[r.sessionId] == r && SessionOk(cfg, s, r.sessionId)
    requires Timely(cfg, r, at)
    ensures SessionOk(cfg, Touched(s, r, at), r.sessionId)
  {
    hide Family, Current, Ledger, TimesOk, Timely;
    UsedTimes(cfg, r, s.uses[r.sessionId], at);
  }

  lemma TouchKeeps(cfg: Config, s: State, r: Record, at: nat)
    requires Inv(cfg, s) && r.sessionId in s.store.sessions && s.store.sessions[r.sessionId] == r
    requires r.revokedAt.None? && Timely(cfg, r, at)
    ensures Inv(cfg, Touched(s, r, at)) && Extends(s, Touched(s, r, at))
  {
    hide Inv, SessionOk, Extends, Ledger, Family, Current;
    var t := Touched(s, r, at);
    Stored(cfg, s, r.sessionId);
    TouchedSession(cfg, s, r, at);
    InvExchanges(cfg, s, t);
    ChangeExtends(s, t, r.sessionId);
    OneSession(cfg, s, t, r.sessionId);
  }

  lemma InvExchanges(cfg: Config, s: State, t: State)
    requires Inv(cfg, s) && t.store.tokens == s.store.tokens && t.exchanges == s.exchanges
    ensures ExchangesOk(t)
  {
  }

  // Revoking one session, with its event.
  function RevokedState(s: State, r: Record, kind: Kind, at: nat): State {
    s.(store := s.store.(
         sessions := s.store.sessions[r.sessionId := r.(revokedAt := Some(at), revision := r.revision + 1)],
         events := s.store.events + [Event(r.sessionId, r.revision + 1, kind, at)]))
  }

  /** Revoking succeeds exactly below the largest revision, whatever events there are. */
  lemma RevokeEffect(cfg: Config, s: State, r: Record, kind: Kind, at: nat)
    requires Inv(cfg, s) && r.sessionId in s.store.sessions && s.store.sessions[r.sessionId] == r
    ensures RevokeRecord(s.store, r, kind, at)
            == if r.revision < MAX_SAFE then Ok(RevokedState(s, r, kind, at).store) else Err(StorageUnavailable)
  {
    hide Inv, Family, Current, TimesOk, EventTaken, Ledger;
    Stored(cfg, s, r.sessionId);
    if r.revision < MAX_SAFE {
      EventIsFree(s.store.events, r, Event(r.sessionId, r.revision + 1, kind, at));
    }
  }

  lemma RevokedSession(cfg: Config, s: State, r: Record, kind: Kind, at: nat)
    requires r.sessionId in s.store.sessions && s.store.sessions[r.sessionId] == r && SessionOk(cfg, s, r.sessionId)
    requires r.revokedAt.None? && r.revision < MAX_SAFE && Terminal(kind)
    ensures SessionOk(cfg, RevokedState(s, r, kind, at), r.sessionId)
  {
    hide Family, Current, Ledger, LedgerOk;
    var next := r.(revokedAt := Some(at), revision := r.revision + 1);
    LedgerGrows(s.store.events, r, next, Event(r.sessionId, r.revision + 1, kind, at));
  }

  lemma RevokeKeeps(cfg: Config, s: State, r: Record, kind: Kind, at: nat)
    requires Inv(cfg, s) && r.sessionId in s.store.sessions && s.store.sessions[r.sessionId] == r
    requires r.revokedAt.None? && r.revision < MAX_SAFE && Terminal(kind)
    ensures Inv(cfg, RevokedState(s, r, kind, at)) && Extends(s, RevokedState(s, r, kind, at))
  {
    hide Inv, Extends, Ledger, Family, Current, FamilyOk, LedgerOk, TimesOk;
    var t := RevokedState(s, r, kind, at);
    Stored(cfg, s, r.sessionId);
    RevokedSession(cfg, s, r, kind, at);
    InvExchanges(cfg, s, t);
    assert t.uses == s.uses[r.sessionId := t.uses[r.sessionId]];
    ChangeExtends(s, t, r.sessionId);
    OneSession(cfg, s, t, r.sessionId);
  }

  // Exchanging a current token for a new one.
  function Rotated(s: State, token: Text, drawn: Text, r: Record, at: nat): State {
    State(
      Store(
        s.store.sessions[r.sessionId := r.(lastSeenAt := at, revision := r.revision + 1)],
        s.store.tokens[token := Entry(r.sessionId, false)][drawn := Entry(r.sessionId, true)],
        s.store.events + [Event(r.sessionId, r.revision + 1, Refreshed, at)]),
      Used(s.uses, r.sessionId, at),
      s.exchanges + [token])
  }

  lemma RotatedFamily(tokens: map<Text, Entry>, token: Text, drawn: Text, id: Text)
    requires token in tokens && tokens[token] == Entry(id, true) && drawn !in tokens
    requires |Current(tokens, id)| == 1
    ensures var t := tokens[token := Entry(id, false)][drawn := Entry(id, true)];
            |Current(t, id)| == 1 && |Family(t, id)| == |Family(tokens, id)| + 1
  {
    var t := tokens[token := Entry(id, false)][drawn := Entry(id, true)];
    OnlyMember(Current(tokens, id), token);
    forall k ensures k in Current(t, id) <==> k == drawn {
      assert k in Current(tokens, id) ==> k == token;
    }
    assert Current(t, id) == {drawn};
    assert Family(t, id) == Family(tokens, id) + {drawn};
  }

  lemma OnlyMember(xs: set<Text>, x: Text)
    requires x in xs && |xs| == 1
    ensures xs == {x}
  {
    assert |xs - {x}| == 0;
    assert xs == {x} + (xs - {x});
  }

  lemma RotatedSession(cfg: Config, s: State, token: Text, drawn: Text, r: Record, at: nat)
    requires r.sessionId in s.store.sessions && s.store.sessions[r.sessionId] == r && SessionOk(cfg, s, r.sessionId)
    requires r.revokedAt.None? && r.revision < MAX_SAFE && Timely(cfg, r, at)
    requires token in s.store.tokens && s.store.tokens[token] == Entry(r.sessionId, true) && drawn !in s.store.tokens
    ensures SessionOk(cfg, Rotated(s, token, drawn, r, at), r.sessionId)
  {
    hide Family, Current, Ledger, LedgerOk, TimesOk, Timely;
    var id, next := r.sessionId, r.(lastSeenAt := at, revision := r.revision + 1);
    RotatedFamily(s.store.tokens, token, drawn, id);
    LedgerGrows(s.store.events, r, next, Event(id, r.revision + 1, Refreshed, at));
    UsedTimes(cfg, r, s.uses[id], at);
    RevisionUntimed(cfg, r.(lastSeenAt := at), next, s.uses[id] + [at]);
  }

  // The times of a session do not depend on its revision.
  lemma RevisionUntimed(cfg: Config, r: Record, next: Record, uses: seq<nat>)
    requires TimesOk(cfg, r, uses) && next == r.(revision := next.revision)
    ensures TimesOk(cfg, next, uses)
  {
  }

  lemma RotatedExchanges(s: State, t: State, token: Text, drawn: Text, id: Text)
    requires ExchangesOk(s) && t.exchanges == s.exchanges + [token]
    requires token in s.store.tokens && s.store.tokens[token] == Entry(id, true) && drawn !in s.store.tokens
    requires t.store.tokens == s.store.tokens[token := Entry(id, false)][drawn := Entry(id, true)]
    ensures ExchangesOk(t)
  {
    forall k: Text ensures k in t.exchanges <==> k in t.store.tokens && !t.store.tokens[k].current {
      assert k in t.exchanges <==> k in s.exchanges || k == token;
    }
  }

  lemma RotatedChange(s: State, token: Text, drawn: Text, r: Record, at: nat)
    requires token in s.store.tokens && s.store.tokens[token] == Entry(r.sessionId, true) && drawn !in s.store.tokens
    ensures Change(s, Rotated(s, token, drawn, r, at), r.sessionId)
  {
    hide Ledger, Family, Current;
  }

  lemma RotateKeeps(cfg: Config, s: State, token: Text, drawn: Text, r: Record, at: nat)
    requires Inv(cfg, s) && r.sessionId in s.store.sessions && s.store.sessions[r.sessionId] == r
    requires r.revokedAt.None? && r.revision < MAX_SAFE && Timely(cfg, r, at)
    requires token in s.store.tokens && s.store.tokens[token] == Entry(r.sessionId, true) && drawn !in s.store.tokens
    ensures Inv(cfg, Rotated(s, token, drawn, r, at)) && Extends(s, Rotated(s, token, drawn, r, at))
  {
    hide Inv, Extends, Ledger, Family, Current, SessionOk, Change, ExchangesOk;
    var t := Rotated(s, token, drawn, r, at);
    Stored(cfg, s, r.sessionId);
    ExchangesOf(cfg, s);
    RotatedExchanges(s, t, token, drawn, r.sessionId);
    RotatedSession(cfg, s, token, drawn, r, at);
    RotatedChange(s, token, drawn, r, at);
    ChangeExtends(s, t, r.sessionId);
    OneSession(cfg, s, t, r.sessionId);
  }

  lemma ExchangesOf(cfg: Config, s: State)
    requires Inv(cfg, s)
    ensures ExchangesOk(s)
  {
    hide SessionOk;
  }

  // Opening a session.
  function Opened(s: State, r: Record, token: Text): State {
    State(
      Store(s.store.sessions[r.sessionId := r], s.store.tokens[token := Entry(r.sessionId, true)],
            s.store.events + [Event(r.sessionId, 1, Created, r.createdAt)]),
      Used(s.uses, r.sessionId, r.createdAt),
      s.exchanges)
  }

  lemma OpenedFamily(tokens: map<Text, Entry>, token: Text, id: Text)
    requires token !in tokens && forall k | k in tokens :: tokens[k].sessionId != id
    ensures Current(tokens[token := Entry(id, true)], id) == {token} == Family(tokens[token := Entry(id, true)], id)
  {
  }

  // Nothing belongs to a session that does not exist.
  lemma NothingOf(cfg: Config, s: State, id: Text)
    requires Inv(cfg, s) && id !in s.store.sessions
    ensures forall k | k in s.store.tokens :: s.store.tokens[k].sessionId != id
    ensures Ledger(s.store.events, id) == [] && id !in s.uses
    ensures forall i | 0 <= i < |s.store.events| :: s.store.events[i].sessionId != id
  {
    hide SessionOk, ExchangesOk;
    LedgerEmpty(s.store.events, id);
  }

  // A record as a login makes it.
  predicate NewlyMade(cfg: Config, r: Record) {
    && r.revision == 1 && r.revokedAt.None? && r.profile.authTime <= r.createdAt == r.lastSeenAt
    && r.expiresAt == r.createdAt + cfg.absoluteTtl <= MAX_SAFE
  }

  lemma OpenedSession(cfg: Config, s: State, r: Record, token: Text)
    requires ConfigOk(cfg) && NewlyMade(cfg, r) && token !in s.store.tokens && r.sessionId !in s.uses
    requires forall k | k in s.store.tokens :: s.store.tokens[k].sessionId != r.sessionId
    requires Ledger(s.store.events, r.sessionId) == []
    ensures SessionOk(cfg, Opened(s, r, token), r.sessionId)
  {
    hide Family, Current, Ledger;
    OpenedFamily(s.store.tokens, token, r.sessionId);
    LedgerAppend(s.store.events, Event(r.sessionId, 1, Created, r.createdAt), r.sessionId);
  }

  lemma OpenedChange(s: State, r: Record, token: Text)
    requires token !in s.store.tokens
    ensures Change(s, Opened(s, r, token), r.sessionId)
  {
    hide Ledger, Family, Current;
  }

  lemma OpenedExchanges(s: State, r: Record, token: Text)
    requires ExchangesOk(s) && token !in s.store.tokens
    ensures ExchangesOk(Opened(s, r, token))
  {
    hide Ledger, Family, Current;
  }

  lemma OpenKeeps(cfg: Config, s: State, r: Record, token: Text)
    requires ConfigOk(cfg) && Inv(cfg, s) && NewlyMade(cfg, r)
    requires r.sessionId !in s.store.sessions && token !in s.store.tokens
    ensures Inv(cfg, Opened(s, r, token)) && Extends(s, Opened(s, r, token))
  {
    hide *;
    var t := Opened(s, r, token);
    NothingOf(cfg, s, r.sessionId);
    ExchangesOf(cfg, s);
    OpenedSession(cfg, s, r, token);
    OpenedChange(s, r, token);
    OpenedExchanges(s, r, token);
    OpenedId(s, r, token);
    ChangeExtends(s, t, r.sessionId);
    OneSession(cfg, s, t, r.sessionId);
  }

  lemma OpenedId(s: State, r: Record, token: Text)
    ensures r.sessionId in Opened(s, r, token).store.sessions
  {
  }
}
