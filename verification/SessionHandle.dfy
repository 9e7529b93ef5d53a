/** The session core over tables that its transactions update in place and roll back when they fail. */
module SessionHandle {
  import opened Common
  import opened CanonicalText
  import opened SessionCore

  class AuthCore {
    const cfg: Config
    var sessions: map<Text, Record>
    var tokens: map<Text, Entry>
    var events: seq<Event>

    function Contents(): Store
      reads this
    {
      Store(sessions, tokens, events)
    }

    constructor (cfg: Config)
      ensures this.cfg == cfg && Contents() == Store(map[], map[], [])
    {
      this.cfg := cfg;
      sessions, tokens, events := map[], map[], [];
    }

    method Restore(st: Store)
      modifies this
      ensures Contents() == st
    {
      sessions, tokens, events := st.sessions, st.tokens, st.events;
    }

    method WriteEvent(r: Record, kind: Kind, at: nat) returns (ok: bool)
      modifies this`events
      ensures ok == PutEvent(old(Contents()), r, kind, at).Ok?
      ensures Contents() == if ok then PutEvent(old(Contents()), r, kind, at).value else old(Contents())
    {
      var e := Event(r.sessionId, r.revision, kind, at);
      ok := !EventTaken(events, e);
      if ok {
        events := events + [e];
      }
    }

    /** The inserts of a login, which refuse taken ids and colliding draws and undo each other on a failure. */
    method OpenSession(at: nat, profile: Profile, context: Context, d: Draws) returns (failure: Option<Code>)
      modifies this
      ensures failure == Some(CredentialCollision) <==>
                || d.sessionId == d.token
                || (context.transport == Cookie && d.csrf in [d.sessionId, d.token])
                || (at + cfg.absoluteTtl <= MAX_SAFE && (d.sessionId in old(sessions) || d.token in old(tokens)))
      ensures failure.None? ==>
                && sessions == old(sessions)[d.sessionId :=
                     Record(d.sessionId, profile, context.transport, at, at, at + cfg.absoluteTtl,
                            if context.transport == Cookie then Some(d.csrf) else None, None, 1)]
                && tokens == old(tokens)[d.token := Entry(d.sessionId, true)]
                && events == old(events) + [Event(d.sessionId, 1, Created, at)]
      ensures var result := Login(cfg, old(Contents()), at, profile, context, d);
              && (result.Ok? ==> failure.None? && Contents() == result.value)
              && (result.Err? ==> failure == Some(result.error) && Contents() == old(Contents()))
    {
      if Collides(context, d) {
        return Some(CredentialCollision);
      }
      if at + cfg.absoluteTtl > MAX_SAFE {
        return Some(InvalidConfig);
      }
      var before := Contents();
      var r := NewRecord(cfg, at, profile, context, d);
      if d.sessionId in sessions {
        return Some(CredentialCollision);
      }
      sessions := sessions[d.sessionId := r];
      if d.token in tokens {
        Restore(before);
        return Some(CredentialCollision);
      }
      tokens := tokens[d.token := Entry(d.sessionId, true)];
      var ok := WriteEvent(r, Created, at);
      if !ok {
        Restore(before);
        return Some(StorageUnavailable);
      }
      return None;
    }

    method UseSession(token: Text, context: Context, at: nat) returns (result: Result<Profile, Code>)
      modifies this`sessions
      ensures var used := Authenticate(cfg, old(Contents()), token, context, at);
              && (used.Ok? ==>
                    && Contents() == used.value && result.Ok?
                    && result.value == CheckedSession(cfg, old(Contents()), token, context, at).value.1.profile)
              && (used.Err? ==> result == Err(used.error) && Contents() == old(Contents()))
    {
      var checked := CheckedSession(cfg, Contents(), token, context, at);
      if checked.Err? {
        return Err(checked.error);
      }
      var (entry, r) := checked.value;
      if !entry.current {
        return Err(SessionDenied);
      }
      if at > r.lastSeenAt {
        sessions := sessions[r.sessionId := r.(lastSeenAt := at)];
      }
      return Ok(r.profile);
    }

    method Revoke(r: Record, kind: Kind, at: nat) returns (ok: bool)
      modifies this
      ensures ok == RevokeRecord(old(Contents()), r, kind, at).Ok?
      ensures RevokeRecord(old(Contents()), r, kind, at).Err? ==>
                RevokeRecord(old(Contents()), r, kind, at).error == StorageUnavailable
      ensures Contents() == if ok then RevokeRecord(old(Contents()), r, kind, at).value else old(Contents())
    {
      if r.revision == 0 || r.revision >= MAX_SAFE {
        return false;
      }
      var before := Contents();
      var next := r.(revokedAt := Some(at), revision := r.revision + 1);
      sessions := sessions[r.sessionId := next];
      ok := WriteEvent(next, kind, at);
      if !ok {
        Restore(before);
      }
    }

    /** The transaction of a refresh; a reuse commits the revocation and only then fails for the caller. */
    method RefreshSession(token: Text, context: Context, at: nat, drawn: Text) returns (failure: Option<Code>)
      modifies this
      ensures var result := Refresh(cfg, old(Contents()), token, context, at, drawn);
              && (result.Ok? ==> Contents() == result.value.store
                                 && failure == (if result.value.reused then Some(SessionReused) else None))
              && (result.Err? ==> failure == Some(result.error) && Contents() == old(Contents()))
    {
      var checked := CheckedSession(cfg, Contents(), token, context, at);
      if checked.Err? {
        return Some(checked.error);
      }
      var (entry, r) := checked.value;
      if !entry.current {
        var revoked := Revoke(r, Reused, at);
        return Some(if revoked then SessionReused else StorageUnavailable);
      }
      if drawn == token || drawn == r.sessionId {
        return Some(CredentialCollision);
      }
      if r.revision == 0 || r.revision >= MAX_SAFE {
        return Some(StorageUnavailable);
      }
      var before := Contents();
      var next := r.(lastSeenAt := at, revision := r.revision + 1);
      tokens := tokens[token := entry.(current := false)];
      if drawn in tokens {
        Restore(before);
        return Some(CredentialCollision);
      }
      tokens := tokens[drawn := Entry(r.sessionId, true)];
      sessions := sessions[r.sessionId := next];
      var ok := WriteEvent(next, Refreshed, at);
      if !ok {
        Restore(before);
        return Some(StorageUnavailable);
      }
      return None;
    }

    method CloseSession(token: Text, context: Context, at: nat) returns (result: Result<bool, Code>)
      modifies this
      ensures var closed := Logout(cfg, old(Contents()), token, context, at);
              && (closed.Ok? ==> Contents() == closed.value.0 && result == Ok(closed.value.1))
              && (closed.Err? ==> result == Err(closed.error) && Contents() == old(Contents()))
    {
      if token !in tokens {
        return Ok(false);
      }
      var entry := tokens[token];
      if entry.sessionId !in sessions || sessions[entry.sessionId].transport != context.transport {
        return Err(SessionDenied);
      }
      var r := sessions[entry.sessionId];
      if !CsrfOk(context, r) {
        return Err(CsrfDenied);
      }
      if r.revokedAt.Some? {
        return Ok(false);
      }
      if at < r.createdAt || at < r.lastSeenAt || at >= r.expiresAt || Idle(cfg, r, at) {
        return Err(SessionExpired);
      }
      if !entry.current {
        return Err(SessionDenied);
      }
      var revoked := Revoke(r, Revoked, at);
      return if revoked then Ok(true) else Err(StorageUnavailable);
    }

    /** Revokes every listed session of the account and counts them, or nothing at all. */
    method RevokeAll(account: Text, listed: seq<Record>, at: nat) returns (result: Result<nat, Code>)
      modifies this
      ensures var all := RevokeEach(old(Contents()), account, listed, at);
              && (all.Ok? ==> Contents() == all.value.0 && result == Ok(all.value.1))
              && (all.Err? ==> result == Err(all.error) && Contents() == old(Contents()))
    {
      var before := Contents();
      var revoked := 0;
      var i := 0;
      while i < |listed|
        invariant 0 <= i <= |listed|
        invariant var all, rest := RevokeEach(before, account, listed, at),
                                   RevokeEach(Contents(), account, listed[i..], at);
                  && (all.Ok? <==> rest.Ok?)
                  && (all.Ok? ==> all.value == (rest.value.0, revoked + rest.value.1))
                  && (all.Err? ==> all.error == rest.error)
      {
        var r := listed[i];
        assert listed[i..][0] == r && listed[i..][1..] == listed[i + 1..];
        i := i + 1;
        if r.profile.account != account || r.revokedAt.Some? {
          continue;
        }
        var ok := Revoke(r, Revoked, at);
        if !ok {
          Restore(before);
          return Err(StorageUnavailable);
        }
        revoked := revoked + 1;
      }
      return Ok(revoked);
    }
  }
}
