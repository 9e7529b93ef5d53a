/** Token family safety, the session ledger and session lifetime, after every order of transactions. */
module SessionTheorems {
  import opened Common
  import opened CanonicalText
  import opened SessionCore
  import opened SessionLaws

  /*** What each transaction does to a state that satisfies the invariant ***/

  /** What the checks establish. */
  lemma CheckedFacts(cfg: Config, s: State, token: Text, context: Context, at: nat)
    requires Inv(cfg, s) && CheckedSession(cfg, s.store, token, context, at).Ok?
    ensures var (entry, r) := CheckedSession(cfg, s.store, token, context, at).value;
            && token in s.store.tokens && s.store.tokens[token] == entry && entry.sessionId == r.sessionId
            && r.sessionId in s.store.sessions && s.store.sessions[r.sessionId] == r
            && r.revokedAt.None? && Timely(cfg, r, at)
  {
    hide Inv, CsrfOk;
  }

  /** A login succeeds exactly when its draws are distinct and unused and the lifetime fits. */
  lemma LoginEffect(cfg: Config, s: State, at: nat, profile: Profile, context: Context, d: Draws)
    requires Inv(cfg, s)
    ensures var r := NewRecord(cfg, at, profile, context, d);
            Login(cfg, s.store, at, profile, context, d) ==
            (if Collides(context, d) then Err(CredentialCollision)
             else if at + cfg.absoluteTtl > MAX_SAFE then Err(InvalidConfig)
             else if d.sessionId in s.store.sessions || d.token in s.store.tokens then Err(CredentialCollision)
             else Ok(Opened(s, r, d.token).store))
  {
    hide Inv, Ledger;
    if d.sessionId !in s.store.sessions {
      NothingOf(cfg, s, d.sessionId);
    }
  }

  /**
   A refresh that passes the checks rotates a current token and revokes the session of a rotated one. Its event
   identifier is always free, so only colliding draws and an exhausted revision can stop it.
   */
  lemma RefreshEffect(cfg: Config, s: State, token: Text, context: Context, at: nat, drawn: Text)
    requires Inv(cfg, s) && CheckedSession(cfg, s.store, token, context, at).Ok?
    ensures var (entry, r) := CheckedSession(cfg, s.store, token, context, at).value;
            Refresh(cfg, s.store, token, context, at, drawn) ==
            (if !entry.current then
               if r.revision < MAX_SAFE then Ok(Exchange(RevokedState(s, r, Reused, at).store, true))
               else Err(StorageUnavailable)
             else if drawn == r.sessionId || drawn in s.store.tokens then
               if drawn != r.sessionId && drawn != token && r.revision >= MAX_SAFE then Err(StorageUnavailable)
               else Err(CredentialCollision)
             else if r.revision >= MAX_SAFE then Err(StorageUnavailable)
             else Ok(Exchange(Rotated(s, token, drawn, r, at).store, false)))
  {
    hide Inv, Ledger, CsrfOk, Family, Current, TimesOk, CheckedSession, RevokeRecord, EventTaken;
    CheckedFacts(cfg, s, token, context, at);
    var (entry, r) := CheckedSession(cfg, s.store, token, context, at).value;
    Stored(cfg, s, r.sessionId);
    RevokeEffect(cfg, s, r, Reused, at);
    EventIsFree(s.store.events, r, Event(r.sessionId, r.revision + 1, Refreshed, at));
  }

  lemma LogoutEffect(cfg: Config, s: State, token: Text, context: Context, at: nat)
    requires Inv(cfg, s) && Logout(cfg, s.store, token, context, at).Ok?
    ensures var (st, revoked) := Logout(cfg, s.store, token, context, at).value;
            if !revoked then st == s.store
            else
              && token in s.store.tokens && s.store.tokens[token].sessionId in s.store.sessions
              && var r := s.store.sessions[s.store.tokens[token].sessionId];
              && r.sessionId in s.store.sessions && s.store.sessions[r.sessionId] == r
              && r.revokedAt.None? && r.revision < MAX_SAFE
              && st == RevokedState(s, r, Revoked, at).store
  {
    hide Inv, SessionOk, CsrfOk, RevokeRecord;
    if token in s.store.tokens && s.store.tokens[token].sessionId in s.store.sessions {
      var id := s.store.tokens[token].sessionId;
      Stored(cfg, s, id);
      RevokeEffect(cfg, s, s.store.sessions[id], Revoked, at);
    }
  }

  /*** Revoking all sessions of an account ***/

  // The listed records that the loop has to revoke.
  predicate Due(r: Record, account: Text) {
    r.profile.account == account && r.revokedAt.None?
  }

  function DueCount(listed: seq<Record>, account: Text): nat {
    if listed == [] then 0 else (if Due(listed[0], account) then 1 else 0) + DueCount(listed[1..], account)
  }

  // Listed once and as stored.
  ghost predicate Listed(st: Store, listed: seq<Record>) {
    && (forall i | 0 <= i < |listed| ::
          listed[i].sessionId in st.sessions && st.sessions[listed[i].sessionId] == listed[i])
    && (forall i, j | 0 <= i < j < |listed| :: listed[i].sessionId != listed[j].sessionId)
  }

  ghost predicate Exhausted(listed: seq<Record>, account: Text) {
    exists i | 0 <= i < |listed| :: Due(listed[i], account) && listed[i].revision >= MAX_SAFE
  }

  // What the loop leaves of the sessions.
  ghost predicate AllRevoked(s: Store, t: Store, listed: seq<Record>, account: Text, at: nat) {
    && t.tokens == s.tokens && t.sessions.Keys == s.sessions.Keys
    && (forall i | 0 <= i < |listed| && Due(listed[i], account) ::
          listed[i].sessionId in t.sessions
          && t.sessions[listed[i].sessionId] == listed[i].(revokedAt := Some(at), revision := listed[i].revision + 1))
    && (forall id | id in s.sessions && s.sessions[id] !in listed :: t.sessions[id] == s.sessions[id])
    && (forall i | 0 <= i < |listed| && !Due(listed[i], account) ::
          listed[i].sessionId in t.sessions && t.sessions[listed[i].sessionId] == listed[i])
  }

  lemma RestListed(s: State, listed: seq<Record>, r: Record, at: nat)
    requires listed != [] && Listed(s.store, listed) && r == listed[0]
    ensures Listed(s.store, listed[1..]) && Listed(RevokedState(s, r, Revoked, at).store, listed[1..])
  {
    assert forall i | 0 <= i < |listed[1..]| :: listed[1..][i] == listed[i + 1];
  }

  lemma ExhaustedRest(listed: seq<Record>, account: Text)
    requires listed != []
    ensures Exhausted(listed, account) <==>
              (Due(listed[0], account) && listed[0].revision >= MAX_SAFE) || Exhausted(listed[1..], account)
  {
    if Exhausted(listed[1..], account) {
      var i :| 0 <= i < |listed[1..]| && Due(listed[1..][i], account) && listed[1..][i].revision >= MAX_SAFE;
      assert listed[i + 1] == listed[1..][i];
    }
    if Exhausted(listed, account) {
      var i :| 0 <= i < |listed| && Due(listed[i], account) && listed[i].revision >= MAX_SAFE;
      assert i > 0 ==> listed[1..][i - 1] == listed[i];
    }
  }

  lemma AllRevokedSkip(s: Store, t: Store, listed: seq<Record>, account: Text, at: nat)
    requires listed != [] && Listed(s, listed) && !Due(listed[0], account)
    requires AllRevoked(s, t, listed[1..], account, at)
    ensures AllRevoked(s, t, listed, account, at)
  {
    var rest := listed[1..];
    assert forall i | 1 <= i < |listed| :: rest[i - 1] == listed[i];
    assert listed[0] !in rest;
    forall id | id in s.sessions && s.sessions[id] !in listed ensures t.sessions[id] == s.sessions[id] {
      assert s.sessions[id] !in rest;
    }
  }

  lemma AllRevokedFirst(s: State, t: Store, listed: seq<Record>, account: Text, at: nat)
    requires listed != [] && Listed(s.store, listed) && Due(listed[0], account)
    requires AllRevoked(RevokedState(s, listed[0], Revoked, at).store, t, listed[1..], account, at)
    ensures AllRevoked(s.store, t, listed, account, at)
  {
    var mid, rest := RevokedState(s, listed[0], Revoked, at).store, listed[1..];
    assert forall i | 1 <= i < |listed| :: rest[i - 1] == listed[i];
    assert mid.sessions[listed[0].sessionId] !in rest;
    forall id | id in s.store.sessions && s.store.sessions[id] !in listed
      ensures t.sessions[id] == s.store.sessions[id]
    {
      assert id != listed[0].sessionId && s.store.sessions[id] !in rest;
      assert mid.sessions[id] == s.store.sessions[id];
    }
  }

  /**
   The loop revokes exactly the listed, unrevoked sessions of the account and counts them; it fails as a whole
   exactly when one of them has the largest revision.
   */
  lemma {:induction false} RevokeEachEffect(cfg: Config, s: State, account: Text, listed: seq<Record>, at: nat)
    requires Inv(cfg, s) && Listed(s.store, listed)
    ensures RevokeEach(s.store, account, listed, at).Ok? <==> !Exhausted(listed, account)
    ensures RevokeEach(s.store, account, listed, at).Ok? ==>
              var (st, n) := RevokeEach(s.store, account, listed, at).value;
              && Inv(cfg, s.(store := st)) && Extends(s, s.(store := st))
              && AllRevoked(s.store, st, listed, account, at) && n == DueCount(listed, account)
    decreases |listed|
  {
    hide Inv, Extends, AllRevoked, RevokeRecord, Exhausted;
    if listed == [] {
      NoneRevoked(s, account, at);
    } else {
      var r := listed[0];
      RestListed(s, listed, r, at);
      ExhaustedRest(listed, account);
      if !Due(r, account) {
        RevokeEachEffect(cfg, s, account, listed[1..], at);
        if RevokeEach(s.store, account, listed, at).Ok? {
          AllRevokedSkip(s.store, RevokeEach(s.store, account, listed, at).value.0, listed, account, at);
        }
      } else {
        RevokeEffect(cfg, s, r, Revoked, at);
        if r.revision < MAX_SAFE {
          var mid := RevokedState(s, r, Revoked, at);
          RevokeKeeps(cfg, s, r, Revoked, at);
          RevokeEachEffect(cfg, mid, account, listed[1..], at);
          if RevokeEach(mid.store, account, listed[1..], at).Ok? {
            var st := RevokeEach(mid.store, account, listed[1..], at).value.0;
            AllRevokedFirst(s, st, listed, account, at);
            RevokedRest(s, r, at, st);
            ExtendsTransitive(s, mid, mid.(store := st));
          }
        }
      }
    }
  }

  lemma RevokedRest(s: State, r: Record, at: nat, st: Store)
    ensures RevokedState(s, r, Revoked, at).(store := st) == s.(store := st)
  {
  }

  lemma NoneRevoked(s: State, account: Text, at: nat)
    ensures s.(store := s.store) == s && Extends(s, s) && AllRevoked(s.store, s.store, [], account, at)
    ensures !Exhausted([], account)
  {
  }

  /*** Every step ***/

  lemma LoginKeeps(cfg: Config, s: State, step: Step)
    requires ConfigOk(cfg) && Inv(cfg, s) && step.DoLogin?
    ensures Inv(cfg, Apply(cfg, s, step)) && Extends(s, Apply(cfg, s, step))
  {
    hide Inv, Extends, Login, Collides;
    NoneRevoked(s, [], 0);
    var DoLogin(at, profile, context, d, _) := step;
    LoginEffect(cfg, s, at, profile, context, d);
    if Login(cfg, s.store, at, profile, context, d).Ok? && profile.authTime <= at {
      OpenKeeps(cfg, s, NewRecord(cfg, at, profile, context, d), d.token);
    }
  }

  lemma AuthenticateKeeps(cfg: Config, s: State, step: Step)
    requires Inv(cfg, s) && step.DoAuthenticate?
    ensures Inv(cfg, Apply(cfg, s, step)) && Extends(s, Apply(cfg, s, step))
  {
    hide Inv, Extends, CheckedSession;
    NoneRevoked(s, [], 0);
    var DoAuthenticate(token, context, at, _) := step;
    if CheckedSession(cfg, s.store, token, context, at).Ok? {
      CheckedFacts(cfg, s, token, context, at);
      var r := CheckedSession(cfg, s.store, token, context, at).value.1;
      TouchKeeps(cfg, s, r, at);
      if at == r.lastSeenAt {
        assert r.(lastSeenAt := at) == r;
        assert s.store.sessions[r.sessionId := r] == s.store.sessions;
      }
    }
  }

  lemma RefreshKeeps(cfg: Config, s: State, step: Step)
    requires Inv(cfg, s) && step.DoRefresh?
    ensures Inv(cfg, Apply(cfg, s, step)) && Extends(s, Apply(cfg, s, step))
  {
    hide Inv, Extends, CheckedSession, Refresh;
    NoneRevoked(s, [], 0);
    var DoRefresh(token, context, at, drawn, _) := step;
    RefusedRefresh(cfg, s.store, token, context, at, drawn);
    if CheckedSession(cfg, s.store, token, context, at).Ok? {
      CheckedFacts(cfg, s, token, context, at);
      RefreshEffect(cfg, s, token, context, at, drawn);
      var r := CheckedSession(cfg, s.store, token, context, at).value.1;
      if Refresh(cfg, s.store, token, context, at, drawn).Ok? {
        if s.store.tokens[token].current {
          RotateKeeps(cfg, s, token, drawn, r, at);
        } else {
          RevokeKeeps(cfg, s, r, Reused, at);
        }
      }
    }
  }

  lemma RefusedRefresh(cfg: Config, st: Store, token: Text, context: Context, at: nat, drawn: Text)
    ensures CheckedSession(cfg, st, token, context, at).Err? ==>
              Refresh(cfg, st, token, context, at, drawn) == Err(CheckedSession(cfg, st, token, context, at).error)
  {
    hide CheckedSession;
  }

  lemma LogoutKeeps(cfg: Config, s: State, step: Step)
    requires Inv(cfg, s) && step.DoLogout?
    ensures Inv(cfg, Apply(cfg, s, step)) && Extends(s, Apply(cfg, s, step))
  {
    hide Inv, Extends, Logout;
    NoneRevoked(s, [], 0);
    var DoLogout(token, context, at, _) := step;
    var result := Logout(cfg, s.store, token, context, at);
    if result.Ok? {
      LogoutEffect(cfg, s, token, context, at);
      if result.value.1 {
        RevokeKeeps(cfg, s, s.store.sessions[s.store.tokens[token].sessionId], Revoked, at);
      }
    }
  }

  lemma RevokeAllKeeps(cfg: Config, s: State, step: Step)
    requires Inv(cfg, s) && step.DoRevokeAll?
    ensures Inv(cfg, Apply(cfg, s, step)) && Extends(s, Apply(cfg, s, step))
  {
    hide Inv, Extends, RevokeEach, AllRevoked;
    NoneRevoked(s, [], 0);
    var DoRevokeAll(account, listed, at, _) := step;
    if Listing(s.store, account, listed) {
      RevokeEachEffect(cfg, s, account, listed, at);
    }
  }

  lemma StepKeeps(cfg: Config, s: State, step: Step)
    requires ConfigOk(cfg) && Inv(cfg, s)
    ensures Inv(cfg, Apply(cfg, s, step)) && Extends(s, Apply(cfg, s, step))
  {
    hide Inv, Extends, Apply;
    match step
    case DoLogin(_, _, _, _, _) => LoginKeeps(cfg, s, step);
    case DoAuthenticate(_, _, _, _) => AuthenticateKeeps(cfg, s, step);
    case DoRefresh(_, _, _, _, _) => RefreshKeeps(cfg, s, step);
    case DoLogout(_, _, _, _) => LogoutKeeps(cfg, s, step);
    case DoRevokeAll(_, _, _, _) => RevokeAllKeeps(cfg, s, step);
  }

  lemma {:induction false} RunKeeps(cfg: Config, s: State, steps: seq<Step>)
    requires ConfigOk(cfg) && Inv(cfg, s)
    ensures Inv(cfg, Run(cfg, s, steps)) && Extends(s, Run(cfg, s, steps))
    decreases |steps|
  {
    hide Inv, Extends, Apply;
    if steps == [] {
      NoneRevoked(s, [], 0);
    } else {
      var t := Apply(cfg, s, steps[0]);
      StepKeeps(cfg, s, steps[0]);
      RunKeeps(cfg, t, steps[1..]);
      ExtendsTransitive(s, t, Run(cfg, t, steps[1..]));
    }
  }

  lemma Reachable(cfg: Config, before: seq<Step>, after: seq<Step>)
    requires ConfigOk(cfg)
    ensures var s := Run(cfg, INITIAL, before);
            Inv(cfg, s) && Inv(cfg, Run(cfg, s, after)) && Extends(s, Run(cfg, s, after))
  {
    hide *;
    InitialInv(cfg);
    RunKeeps(cfg, INITIAL, before);
    RunKeeps(cfg, Run(cfg, INITIAL, before), after);
  }

  lemma InitialInv(cfg: Config)
    ensures Inv(cfg, INITIAL)
  {
  }

  /*** Theorems ***/

  /** Every session always has exactly one current token, and a token for its login and every refresh. */
  lemma TokenFamilies(cfg: Config, steps: seq<Step>, id: Text)
    requires ConfigOk(cfg) && id in Run(cfg, INITIAL, steps).store.sessions
    ensures var st := Run(cfg, INITIAL, steps).store;
            && |Current(st.tokens, id)| == 1
            && |Family(st.tokens, id)| == st.sessions[id].revision - (if st.sessions[id].revokedAt.Some? then 1 else 0)
  {
    hide Run, Inv, Extends, LedgerOk, TimesOk, Family, Current;
    Reachable(cfg, steps, []);
    Stored(cfg, Run(cfg, INITIAL, steps), id);
  }

  /** Every session's events carry the revisions 1 to n: creation first, refreshes, and one revocation at most, last. */
  lemma SessionLedger(cfg: Config, steps: seq<Step>, id: Text)
    requires ConfigOk(cfg) && id in Run(cfg, INITIAL, steps).store.sessions
    ensures var st := Run(cfg, INITIAL, steps).store;
            LedgerOk(Ledger(st.events, id), st.sessions[id])
  {
    hide Run, Inv, Extends, LedgerOk, FamilyOk, TimesOk, Ledger;
    Reachable(cfg, steps, []);
    Stored(cfg, Run(cfg, INITIAL, steps), id);
  }

  /**
   A session lives for its absolute lifetime, refreshes included; its accepted uses never go back in time, lie
   within that lifetime, and successive ones are less than the idle limit apart.
   */
  lemma SessionLifetime(cfg: Config, steps: seq<Step>, id: Text)
    requires ConfigOk(cfg) && id in Run(cfg, INITIAL, steps).store.sessions
    ensures var s := Run(cfg, INITIAL, steps);
            id in s.uses && TimesOk(cfg, s.store.sessions[id], s.uses[id])
  {
    hide Run, Inv, Extends, LedgerOk, FamilyOk, TimesOk, Ledger;
    Reachable(cfg, steps, []);
    Stored(cfg, Run(cfg, INITIAL, steps), id);
  }

  /** What never changes in a session record, and how the rest may change. */
  lemma RecordsOnlyGrow(cfg: Config, before: seq<Step>, after: seq<Step>, id: Text)
    requires ConfigOk(cfg) && id in Run(cfg, INITIAL, before).store.sessions
    ensures var s := Run(cfg, INITIAL, before);
            var t := Run(cfg, s, after);
            id in t.store.sessions && RecordGrows(s.store.sessions[id], t.store.sessions[id])
  {
    hide Run, Inv, RecordGrows;
    Reachable(cfg, before, after);
  }

  /** No token is exchanged twice, and exactly the rotated tokens have been exchanged. */
  lemma ExchangedOnce(cfg: Config, steps: seq<Step>, i: nat, j: nat)
    requires ConfigOk(cfg) && i < j < |Run(cfg, INITIAL, steps).exchanges|
    ensures var s := Run(cfg, INITIAL, steps);
            && s.exchanges[i] != s.exchanges[j]
            && s.exchanges[i] in s.store.tokens && !s.store.tokens[s.exchanges[i]].current
  {
    hide Run, Inv, Extends;
    Reachable(cfg, steps, []);
    ExchangesOf(cfg, Run(cfg, INITIAL, steps));
  }

  /**
   Once a token has been exchanged, any later presentation of it that passes the checks revokes the session, and
   the caller is told of the reuse; only at the largest revision does it fail without a trace.
   */
  lemma ReuseRevokes(cfg: Config, before: seq<Step>, after: seq<Step>, token: Text, context: Context, at: nat,
                     drawn: Text)
    requires ConfigOk(cfg) && token in Run(cfg, INITIAL, before).exchanges
    requires CheckedSession(cfg, Run(cfg, Run(cfg, INITIAL, before), after).store, token, context, at).Ok?
    ensures var t := Run(cfg, Run(cfg, INITIAL, before), after);
            var r := CheckedSession(cfg, t.store, token, context, at).value.1;
            var u := Refresh(cfg, t.store, token, context, at, drawn);
            && (u.Ok? <==> r.revision < MAX_SAFE)
            && (u.Err? ==> u.error == StorageUnavailable)
            && (u.Ok? ==> u.value.reused && r.sessionId in u.value.store.sessions
                          && u.value.store.sessions[r.sessionId].revokedAt == Some(at))
  {
    hide Run, Inv, CheckedSession, Refresh;
    Reachable(cfg, before, after);
    var s := Run(cfg, INITIAL, before);
    var t := Run(cfg, s, after);
    assert token in t.exchanges;
    ExchangesOf(cfg, t);
    CheckedFacts(cfg, t, token, context, at);
    RefreshEffect(cfg, t, token, context, at, drawn);
  }

  /** No token of a revoked family is ever accepted again, and nothing revokes the session a second time. */
  lemma RevokedForever(cfg: Config, before: seq<Step>, after: seq<Step>, token: Text, context: Context, at: nat,
                       drawn: Text)
    requires var s := Run(cfg, INITIAL, before);
             && ConfigOk(cfg) && token in s.store.tokens && s.store.tokens[token].sessionId in s.store.sessions
             && s.store.sessions[s.store.tokens[token].sessionId].revokedAt.Some?
    ensures var t := Run(cfg, Run(cfg, INITIAL, before), after);
            && Authenticate(cfg, t.store, token, context, at) == Err(SessionDenied)
            && Refresh(cfg, t.store, token, context, at, drawn) == Err(SessionDenied)
            && (Logout(cfg, t.store, token, context, at).Ok? ==>
                  Logout(cfg, t.store, token, context, at).value == (t.store, false))
  {
    hide Run, Inv;
    Reachable(cfg, before, after);
    var s := Run(cfg, INITIAL, before);
    var t := Run(cfg, s, after);
    var id := s.store.tokens[token].sessionId;
    assert t.store.tokens[token].sessionId == id;
    assert RecordGrows(s.store.sessions[id], t.store.sessions[id]);
    assert CheckedSession(cfg, t.store, token, context, at) == Err(SessionDenied);
  }

  /** A complete listing leaves no session of the account unrevoked, and the count is that of the revoked ones. */
  lemma RevokeAllRevokesAll(cfg: Config, steps: seq<Step>, account: Text, listed: seq<Record>, at: nat, id: Text)
    requires ConfigOk(cfg) && Listing(Run(cfg, INITIAL, steps).store, account, listed)
    ensures var s := Run(cfg, INITIAL, steps);
            var r := RevokeEach(s.store, account, listed, at);
            && (r.Ok? <==> !Exhausted(listed, account))
            && (r.Ok? ==>
                  && r.value.1 == DueCount(listed, account)
                  && (id in s.store.sessions ==>
                        && id in r.value.0.sessions
                        && (s.store.sessions[id].profile.account == account ==>
                              r.value.0.sessions[id].revokedAt.Some?)
                        && (s.store.sessions[id].profile.account != account ==>
                              r.value.0.sessions[id] == s.store.sessions[id])))
  {
    hide Run, Inv, Extends, RevokeEach, Exhausted;
    Reachable(cfg, steps, []);
    var s := Run(cfg, INITIAL, steps);
    RevokeEachEffect(cfg, s, account, listed, at);
    if RevokeEach(s.store, account, listed, at).Ok? && id in s.store.sessions {
      Stored(cfg, s, id);
      var r := s.store.sessions[id];
      if r in listed {
        var i :| 0 <= i < |listed| && listed[i] == r;
      }
    }
  }

  /*** What an issued token is good for ***/

  // A secret that a request may carry: a nonempty text of at most 4096 bytes in UTF-8.
  predicate Carries(context: Context, csrf: Text) {
    context.csrf == Some(csrf) && 1 <= |csrf| && Utf8(csrf) <= 4096
  }

  // A request that the session's secrets and transport allow: cookies need the secret unless the method is safe.
  predicate Permits(r: Record, context: Context) {
    && r.transport == context.transport
    && (context.transport == Cookie && !context.safe ==> r.csrf.Some? && Carries(context, r.csrf.value))
  }

  lemma PermitsChecks(r: Record, context: Context)
    ensures Permits(r, context) <==> r.transport == context.transport && CsrfOk(context, r)
  {
    hide Utf8;
  }

  lemma AuthenticatesIff(cfg: Config, st: Store, token: Text, context: Context, at: nat)
    requires token in st.tokens && st.tokens[token].current && st.tokens[token].sessionId in st.sessions
    requires var r := st.sessions[st.tokens[token].sessionId];
             && r.sessionId == st.tokens[token].sessionId && r.revokedAt.None?
             && r.profile.authTime <= r.createdAt <= r.lastSeenAt
    ensures var r := st.sessions[st.tokens[token].sessionId];
            && (Authenticate(cfg, st, token, context, at).Ok? <==>
                  Permits(r, context) && r.lastSeenAt <= at < r.expiresAt && at < r.lastSeenAt + cfg.idleTtl)
            && (Authenticate(cfg, st, token, context, at).Ok? ==>
                  CheckedSession(cfg, st, token, context, at).value.1 == r)
  {
    PermitsChecks(st.sessions[st.tokens[token].sessionId], context);
    hide CsrfOk, Permits;
  }

  // A stored record with which a request may use a token of its session at the time.
  predicate Usable(cfg: Config, st: Store, token: Text, context: Context, at: nat) {
    && token in st.tokens && st.tokens[token].current && st.tokens[token].sessionId in st.sessions
    && var r := st.sessions[st.tokens[token].sessionId];
    && r.revokedAt.None? && Permits(r, context)
    && r.lastSeenAt <= at < r.expiresAt && at < r.lastSeenAt + cfg.idleTtl
  }

  lemma UsableChecks(cfg: Config, s: State, token: Text, context: Context, at: nat)
    requires Inv(cfg, s)
    ensures var checked := CheckedSession(cfg, s.store, token, context, at);
            && (Usable(cfg, s.store, token, context, at) <==> checked.Ok? && checked.value.0.current)
            && (Usable(cfg, s.store, token, context, at) ==>
                  checked.value == (s.store.tokens[token], s.store.sessions[s.store.tokens[token].sessionId]))
  {
    hide Inv, CsrfOk, Permits;
    if token in s.store.tokens && s.store.tokens[token].sessionId in s.store.sessions {
      var r := s.store.sessions[s.store.tokens[token].sessionId];
      OwnId(cfg, s, s.store.tokens[token].sessionId);
      CreatedBefore(cfg, s, r);
      PermitsChecks(r, context);
    }
  }

  // The session of a token, if the request comes over its transport and it is not revoked.
  predicate Reaches(st: Store, token: Text, context: Context) {
    && token in st.tokens && st.tokens[token].sessionId in st.sessions
    && var r := st.sessions[st.tokens[token].sessionId]; r.transport == context.transport && r.revokedAt == None
  }

  predicate InTime(cfg: Config, r: Record, at: nat) {
    r.lastSeenAt <= at < r.expiresAt && at < r.lastSeenAt + cfg.idleTtl
  }

  /**
   In every reachable state a refused token is expired exactly when its live session has run out of time, lacks its
   secret exactly when it has not, and is denied otherwise, also when it is no longer the current one.
   */
  lemma RefusalsTellWhy(cfg: Config, steps: seq<Step>, token: Text, context: Context, at: nat)
    requires ConfigOk(cfg)
    ensures var st := Run(cfg, INITIAL, steps).store;
            var out := Authenticate(cfg, st, token, context, at);
            && (out == Err(SessionExpired) <==>
                  Reaches(st, token, context) && !InTime(cfg, st.sessions[st.tokens[token].sessionId], at))
            && (out == Err(CsrfDenied) <==>
                  && Reaches(st, token, context) && InTime(cfg, st.sessions[st.tokens[token].sessionId], at)
                  && !Permits(st.sessions[st.tokens[token].sessionId], context))
            && (out == Err(SessionDenied) <==>
                  || !Reaches(st, token, context)
                  || (&& InTime(cfg, st.sessions[st.tokens[token].sessionId], at)
                      && Permits(st.sessions[st.tokens[token].sessionId], context) && !st.tokens[token].current))
  {
    hide Run, Inv, Extends, CsrfOk, Permits;
    Reachable(cfg, steps, []);
    var s := Run(cfg, INITIAL, steps);
    if token in s.store.tokens && s.store.tokens[token].sessionId in s.store.sessions {
      var r := s.store.sessions[s.store.tokens[token].sessionId];
      OwnId(cfg, s, s.store.tokens[token].sessionId);
      CreatedBefore(cfg, s, r);
      PermitsChecks(r, context);
    }
  }

  /**
   In every reachable state a token authenticates exactly while it is current, its session unrevoked, unexpired and
   not idle, and the request permitted; the use is remembered, and nothing else changes.
   */
  lemma AuthenticatesExactly(cfg: Config, steps: seq<Step>, token: Text, context: Context, at: nat)
    requires ConfigOk(cfg)
    ensures var st := Run(cfg, INITIAL, steps).store;
            var out := Authenticate(cfg, st, token, context, at);
            && (out.Ok? <==> Usable(cfg, st, token, context, at))
            && (out.Ok? ==>
                  var id := st.tokens[token].sessionId;
                  out.value == st.(sessions := st.sessions[id := st.sessions[id].(lastSeenAt := at)]))
  {
    hide Run, Inv, Extends, CheckedSession, Permits;
    Reachable(cfg, steps, []);
    var s := Run(cfg, INITIAL, steps);
    UsableChecks(cfg, s, token, context, at);
    if Usable(cfg, s.store, token, context, at) {
      var id := s.store.tokens[token].sessionId;
      OwnId(cfg, s, id);
      assert s.store.sessions == s.store.sessions[id := s.store.sessions[id]];
    }
  }

  /**
   In every reachable state a refresh rotates exactly a usable token below the largest revision to an unused draw
   that is not the session's id; the old token stays as rotated, and the session keeps its expiry.
   */
  lemma RefreshRotatesIff(cfg: Config, steps: seq<Step>, token: Text, context: Context, at: nat, drawn: Text)
    requires ConfigOk(cfg)
    ensures var st := Run(cfg, INITIAL, steps).store;
            var out := Refresh(cfg, st, token, context, at, drawn);
            && (out.Ok? && !out.value.reused <==>
                  && Usable(cfg, st, token, context, at)
                  && st.sessions[st.tokens[token].sessionId].revision < MAX_SAFE
                  && drawn !in st.tokens && drawn != st.tokens[token].sessionId)
            && (out.Ok? && !out.value.reused ==>
                  var id := st.tokens[token].sessionId;
                  var r := st.sessions[id];
                  out.value.store
                  == Store(st.sessions[id := r.(lastSeenAt := at, revision := r.revision + 1)],
                           st.tokens[token := Entry(id, false)][drawn := Entry(id, true)],
                           st.events + [Event(id, r.revision + 1, Refreshed, at)]))
  {
    hide Run, Inv, Extends, CheckedSession, Permits, Refresh, Usable;
    Reachable(cfg, steps, []);
    var s := Run(cfg, INITIAL, steps);
    UsableChecks(cfg, s, token, context, at);
    var checked := CheckedSession(cfg, s.store, token, context, at);
    if checked.Ok? {
      CheckedFacts(cfg, s, token, context, at);
      RefreshEffect(cfg, s, token, context, at, drawn);
    } else {
      RefusedWhenUnchecked(cfg, s.store, token, context, at, drawn);
    }
    UsableStored(cfg, s.store, token, context, at);
  }

  lemma RefusedWhenUnchecked(cfg: Config, st: Store, token: Text, context: Context, at: nat, drawn: Text)
    requires CheckedSession(cfg, st, token, context, at).Err?
    ensures Refresh(cfg, st, token, context, at, drawn).Err?
  {
    hide CheckedSession;
  }

  lemma UsableStored(cfg: Config, st: Store, token: Text, context: Context, at: nat)
    ensures Usable(cfg, st, token, context, at) ==>
              token in st.tokens && st.tokens[token].current && st.tokens[token].sessionId in st.sessions
  {
  }

  /**
   In every reachable state a login succeeds exactly when its draws are distinct and unused and the lifetime fits.
   It stores the identity with its transport, times and secret, one current token and the event of its creation.
   */
  lemma LoginSucceedsIff(cfg: Config, steps: seq<Step>, at: nat, profile: Profile, context: Context, d: Draws)
    requires ConfigOk(cfg)
    ensures var st := Run(cfg, INITIAL, steps).store;
            var out := Login(cfg, st, at, profile, context, d);
            && (out.Ok? <==>
                  && d.sessionId != d.token
                  && (context.transport == Cookie ==> d.csrf != d.sessionId && d.csrf != d.token)
                  && d.sessionId !in st.sessions && d.token !in st.tokens
                  && at + cfg.absoluteTtl <= MAX_SAFE)
            && (out.Ok? ==>
                  out.value
                  == Store(st.sessions[d.sessionId :=
                             Record(d.sessionId, profile, context.transport, at, at, at + cfg.absoluteTtl,
                                    if context.transport == Cookie then Some(d.csrf) else None, None, 1)],
                           st.tokens[d.token := Entry(d.sessionId, true)],
                           st.events + [Event(d.sessionId, 1, Created, at)]))
  {
    hide Run, Inv, Extends, Login;
    Reachable(cfg, steps, []);
    LoginEffect(cfg, Run(cfg, INITIAL, steps), at, profile, context, d);
  }

  /**
   The token of a login authenticates exactly the requests over its transport, with its CSRF secret where one is
   needed, until the idle limit has passed; they get the identity that logged in.
   */
  lemma LoginThenAuthenticate(cfg: Config, steps: seq<Step>, at: nat, profile: Profile, context: Context, d: Draws,
                              later: Context, now: nat)
    requires ConfigOk(cfg) && profile.authTime <= at
    requires Login(cfg, Run(cfg, INITIAL, steps).store, at, profile, context, d).Ok?
    ensures var st := Login(cfg, Run(cfg, INITIAL, steps).store, at, profile, context, d).value;
            && (Authenticate(cfg, st, d.token, later, now).Ok? <==>
                  && later.transport == context.transport
                  && (later.transport == Cookie && !later.safe ==>
                        later.csrf == Some(d.csrf) && 1 <= |d.csrf| && Utf8(d.csrf) <= 4096)
                  && at <= now < at + cfg.idleTtl)
            && (Authenticate(cfg, st, d.token, later, now).Ok? ==>
                  CheckedSession(cfg, st, d.token, later, now).value.1.profile == profile)
  {
    hide Run, Inv, Extends, Login, Authenticate, CheckedSession, Utf8;
    Reachable(cfg, steps, []);
    LoginEffect(cfg, Run(cfg, INITIAL, steps), at, profile, context, d);
    var st := Login(cfg, Run(cfg, INITIAL, steps).store, at, profile, context, d).value;
    AuthenticatesIff(cfg, st, d.token, later, now);
  }

  /** After a refresh the new token authenticates under the old expiry, and the old token never does. */
  lemma RefreshThenAuthenticate(cfg: Config, steps: seq<Step>, token: Text, context: Context, at: nat, drawn: Text,
                                later: Context, now: nat)
    requires ConfigOk(cfg)
    requires Refresh(cfg, Run(cfg, INITIAL, steps).store, token, context, at, drawn).Ok?
    requires !Refresh(cfg, Run(cfg, INITIAL, steps).store, token, context, at, drawn).value.reused
    ensures var s := Run(cfg, INITIAL, steps);
            var st := Refresh(cfg, s.store, token, context, at, drawn).value.store;
            && CheckedSession(cfg, s.store, token, context, at).Ok?
            && var r := CheckedSession(cfg, s.store, token, context, at).value.1;
            && (Authenticate(cfg, st, drawn, later, now).Ok? <==>
                  Permits(r, later) && at <= now < r.expiresAt && now < at + cfg.idleTtl)
            && Authenticate(cfg, st, token, later, now).Err?
  {
    hide Run, Inv, Extends, Refresh, Authenticate, CheckedSession, Permits;
    Reachable(cfg, steps, []);
    var s := Run(cfg, INITIAL, steps);
    RefusedRefresh(cfg, s.store, token, context, at, drawn);
    CheckedFacts(cfg, s, token, context, at);
    RefreshEffect(cfg, s, token, context, at, drawn);
    var r := CheckedSession(cfg, s.store, token, context, at).value.1;
    CreatedBefore(cfg, s, r);
    var st := Refresh(cfg, s.store, token, context, at, drawn).value.store;
    AuthenticatesIff(cfg, st, drawn, later, now);
    SamePermits(r, st.sessions[r.sessionId], later);
    RotatedIsRefused(cfg, st, token, later, now);
  }

  lemma CreatedBefore(cfg: Config, s: State, r: Record)
    requires Inv(cfg, s) && r.sessionId in s.store.sessions && s.store.sessions[r.sessionId] == r
    ensures r.profile.authTime <= r.createdAt <= r.lastSeenAt
  {
    hide Inv, FamilyOk, LedgerOk;
    Stored(cfg, s, r.sessionId);
  }

  lemma SamePermits(r: Record, s: Record, context: Context)
    requires s == r.(lastSeenAt := s.lastSeenAt, revision := s.revision)
    ensures Permits(r, context) == Permits(s, context)
  {
  }

  lemma RotatedIsRefused(cfg: Config, st: Store, token: Text, context: Context, at: nat)
    requires token in st.tokens && !st.tokens[token].current
    ensures Authenticate(cfg, st, token, context, at).Err?
  {
  }

  /** A logout revokes exactly the unrevoked session of a current token, on a permitted and timely request. */
  lemma LogoutRevokesIff(cfg: Config, steps: seq<Step>, token: Text, context: Context, at: nat)
    requires ConfigOk(cfg)
    ensures var st := Run(cfg, INITIAL, steps).store;
            var out := Logout(cfg, st, token, context, at);
            (out.Ok? && out.value.1) <==>
              && token in st.tokens && st.tokens[token].current && st.tokens[token].sessionId in st.sessions
              && var r := st.sessions[st.tokens[token].sessionId];
              && r.revokedAt.None? && r.revision < MAX_SAFE && Permits(r, context)
              && r.lastSeenAt <= at < r.expiresAt && at < r.lastSeenAt + cfg.idleTtl
  {
    hide Run, Inv, Extends, CsrfOk, RevokeRecord;
    Reachable(cfg, steps, []);
    var s := Run(cfg, INITIAL, steps);
    if token in s.store.tokens && s.store.tokens[token].sessionId in s.store.sessions {
      var r := s.store.sessions[s.store.tokens[token].sessionId];
      PermitsChecks(r, context);
      hide Permits;
      OwnId(cfg, s, s.store.tokens[token].sessionId);
      CreatedBefore(cfg, s, r);
      RevokeEffect(cfg, s, r, Revoked, at);
    }
  }

  /**
   A logout that changes nothing still succeeds exactly for an unknown token and for a permitted request on a session
   that is already revoked.
   */
  lemma LogoutIdleIff(cfg: Config, steps: seq<Step>, token: Text, context: Context, at: nat)
    requires ConfigOk(cfg)
    ensures var st := Run(cfg, INITIAL, steps).store;
            var out := Logout(cfg, st, token, context, at);
            && (out.Ok? && !out.value.1 <==>
                  || token !in st.tokens
                  || (&& st.tokens[token].sessionId in st.sessions
                      && var r := st.sessions[st.tokens[token].sessionId]; r.revokedAt.Some? && Permits(r, context)))
            && (out.Ok? && !out.value.1 ==> out.value.0 == st)
  {
    hide Run, Inv, Extends, CsrfOk, RevokeRecord, Permits;
    var st := Run(cfg, INITIAL, steps).store;
    if token in st.tokens && st.tokens[token].sessionId in st.sessions {
      PermitsChecks(st.sessions[st.tokens[token].sessionId], context);
    }
  }

  /** What a refused logout is told. */
  lemma LogoutTellsWhy(cfg: Config, steps: seq<Step>, token: Text, context: Context, at: nat)
    requires ConfigOk(cfg)
    requires token in Run(cfg, INITIAL, steps).store.tokens
    ensures var st := Run(cfg, INITIAL, steps).store;
            && st.tokens[token].sessionId in st.sessions
            && var out, r := Logout(cfg, st, token, context, at), st.sessions[st.tokens[token].sessionId];
            && (out == Err(CsrfDenied) <==> r.transport == context.transport && !Permits(r, context))
            && (out == Err(SessionExpired) <==> Permits(r, context) && r.revokedAt == None && !InTime(cfg, r, at))
            && (out == Err(SessionDenied) <==>
                  || r.transport != context.transport
                  || (Permits(r, context) && r.revokedAt == None && InTime(cfg, r, at) && !st.tokens[token].current))
            && (out == Err(StorageUnavailable) <==>
                  && Permits(r, context) && r.revokedAt == None && InTime(cfg, r, at) && st.tokens[token].current
                  && r.revision >= MAX_SAFE)
  {
    hide Run, Inv, Extends, CsrfOk, RevokeRecord, Permits;
    Reachable(cfg, steps, []);
    var s := Run(cfg, INITIAL, steps);
    OwnToken(cfg, s, token);
    var r := s.store.sessions[s.store.tokens[token].sessionId];
    PermitsChecks(r, context);
    CreatedBefore(cfg, s, r);
    RevokeEffect(cfg, s, r, Revoked, at);
  }

  lemma OwnId(cfg: Config, s: State, id: Text)
    requires Inv(cfg, s) && id in s.store.sessions
    ensures s.store.sessions[id].sessionId == id
  {
    hide Inv, SessionOk;
    Stored(cfg, s, id);
  }

  lemma OwnToken(cfg: Config, s: State, token: Text)
    requires Inv(cfg, s) && token in s.store.tokens
    ensures s.store.tokens[token].sessionId in s.store.sessions
    ensures s.store.sessions[s.store.tokens[token].sessionId].sessionId == s.store.tokens[token].sessionId
  {
    hide SessionOk;
    OwnId(cfg, s, s.store.tokens[token].sessionId);
  }
}
