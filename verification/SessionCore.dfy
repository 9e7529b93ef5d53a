/** The transactions of the session core: token families with rotation, reuse detection and revocation. */
module SessionCore {
  import opened Common
  import opened CanonicalText

  datatype Code =
    | InvalidConfig
    | SessionDenied
    | SessionExpired
    | SessionReused
    | CsrfDenied
    | CredentialCollision
    | StorageUnavailable

  datatype Config = Config(absoluteTtl: nat, idleTtl: nat)

  predicate ConfigOk(cfg: Config) {
    0 < cfg.idleTtl <= cfg.absoluteTtl <= MAX_SAFE
  }

  datatype Transport = Cookie | Bearer

  // safe: the method is GET, HEAD or OPTIONS.
  datatype Context = Context(transport: Transport, safe: bool, csrf: Option<Text>)

  datatype Profile = Profile(
    account: Text,
    issuer: Text,
    subject: Text,
    provider: Text,
    authTime: nat,
    methods: seq<Text>
  )

  // SHA-256 is taken to be injective, so a secret stands for its hash.
  datatype Record = Record(
    sessionId: Text,
    profile: Profile,
    transport: Transport,
    createdAt: nat,
    lastSeenAt: nat,
    expiresAt: nat,
    csrf: Option<Text>,
    revokedAt: Option<nat>,
    revision: nat
  )

  datatype Entry = Entry(sessionId: Text, current: bool)

  datatype Kind = Created | Refreshed | Revoked | Reused

  datatype Event = Event(sessionId: Text, revision: nat, kind: Kind, at: nat)

  datatype Store = Store(sessions: map<Text, Record>, tokens: map<Text, Entry>, events: seq<Event>)

  /*** Parts of the transactions ***/

  // The event id digests session, revision and kind.
  predicate SameEventId(a: Event, b: Event) {
    a.sessionId == b.sessionId && a.revision == b.revision && a.kind == b.kind
  }

  predicate EventTaken(events: seq<Event>, e: Event) {
    exists i | 0 <= i < |events| :: SameEventId(events[i], e)
  }

  function PutEvent(st: Store, r: Record, kind: Kind, at: nat): Result<Store, Code> {
    var e := Event(r.sessionId, r.revision, kind, at);
    if EventTaken(st.events, e) then Err(StorageUnavailable) else Ok(st.(events := st.events + [e]))
  }

  function NextRevision(n: nat): Result<nat, Code> {
    if n == 0 || n >= MAX_SAFE then Err(StorageUnavailable) else Ok(n + 1)
  }

  predicate CsrfText(t: Option<Text>) {
    t.Some? && t.value != [] && Utf8(t.value) <= 4096
  }

  predicate CsrfOk(context: Context, r: Record) {
    context.transport.Cookie? && !context.safe ==> CsrfText(context.csrf) && r.csrf == context.csrf
  }

  predicate Idle(cfg: Config, r: Record, at: nat) {
    at >= r.lastSeenAt + cfg.idleTtl
  }

  function CheckedSession(cfg: Config, st: Store, token: Text, context: Context, at: nat)
    : Result<(Entry, Record), Code>
  {
    if token !in st.tokens then Err(SessionDenied)
    else
      var entry := st.tokens[token];
      if entry.sessionId !in st.sessions then Err(SessionDenied)
      else
        var r := st.sessions[entry.sessionId];
        if r.sessionId != entry.sessionId || r.transport != context.transport || r.revokedAt.Some?
        then Err(SessionDenied)
        else if at < r.createdAt || at < r.lastSeenAt || at < r.profile.authTime || at >= r.expiresAt
                || Idle(cfg, r, at)
        then Err(SessionExpired)
        else if !CsrfOk(context, r) then Err(CsrfDenied)
        else Ok((entry, r))
  }

  /*** The transactions ***/

  datatype Draws = Draws(sessionId: Text, token: Text, csrf: Text)

  predicate Collides(context: Context, d: Draws) {
    d.sessionId == d.token || (context.transport.Cookie? && (d.sessionId == d.csrf || d.token == d.csrf))
  }

  function NewRecord(cfg: Config, at: nat, profile: Profile, context: Context, d: Draws): Record {
    Record(d.sessionId, profile, context.transport, at, at, at + cfg.absoluteTtl,
           if context.transport.Cookie? then Some(d.csrf) else None, None, 1)
  }

  function Login(cfg: Config, st: Store, at: nat, profile: Profile, context: Context, d: Draws): Result<Store, Code> {
    if Collides(context, d) then Err(CredentialCollision)
    else if at + cfg.absoluteTtl > MAX_SAFE then Err(InvalidConfig)
    else if d.sessionId in st.sessions || d.token in st.tokens then Err(CredentialCollision)
    else
      var r := NewRecord(cfg, at, profile, context, d);
      PutEvent(st.(sessions := st.sessions[d.sessionId := r], tokens := st.tokens[d.token := Entry(d.sessionId, true)]),
               r, Created, at)
  }

  function Authenticate(cfg: Config, st: Store, token: Text, context: Context, at: nat): Result<Store, Code> {
    var (entry, r) :- CheckedSession(cfg, st, token, context, at);
    if !entry.current then Err(SessionDenied)
    else if at > r.lastSeenAt then Ok(st.(sessions := st.sessions[r.sessionId := r.(lastSeenAt := at)]))
    else Ok(st)
  }

  function RevokeRecord(st: Store, r: Record, kind: Kind, at: nat): Result<Store, Code> {
    var revision :- NextRevision(r.revision);
    var next := r.(revokedAt := Some(at), revision := revision);
    PutEvent(st.(sessions := st.sessions[r.sessionId := next]), next, kind, at)
  }

  // What a refresh transaction commits; a reused token is revoked and reported after the commit.
  datatype Exchange = Exchange(store: Store, reused: bool)

  function Refresh(cfg: Config, st: Store, token: Text, context: Context, at: nat, drawn: Text)
    : Result<Exchange, Code>
  {
    var (entry, r) :- CheckedSession(cfg, st, token, context, at);
    if !entry.current then
      var revoked :- RevokeRecord(st, r, Reused, at);
      Ok(Exchange(revoked, true))
    else if drawn == token || drawn == r.sessionId then Err(CredentialCollision)
    else
      var revision :- NextRevision(r.revision);
      var next := r.(lastSeenAt := at, revision := revision);
      var rotated := st.tokens[token := entry.(current := false)];
      if drawn in rotated then Err(CredentialCollision)
      else
        var put :- PutEvent(st.(sessions := st.sessions[r.sessionId := next],
                                tokens := rotated[drawn := Entry(r.sessionId, true)]),
                            next, Refreshed, at);
        Ok(Exchange(put, false))
  }

  /** The new store and whether this call revoked the session. */
  function Logout(cfg: Config, st: Store, token: Text, context: Context, at: nat): Result<(Store, bool), Code> {
    if token !in st.tokens then Ok((st, false))
    else
      var entry := st.tokens[token];
      if entry.sessionId !in st.sessions then Err(SessionDenied)
      else
        var r := st.sessions[entry.sessionId];
        if r.transport != context.transport then Err(SessionDenied)
        else if !CsrfOk(context, r) then Err(CsrfDenied)
        else if r.revokedAt.Some? then Ok((st, false))
        else if at < r.createdAt || at < r.lastSeenAt || at >= r.expiresAt || Idle(cfg, r, at) then Err(SessionExpired)
        else if !entry.current then Err(SessionDenied)
        else
          var revoked :- RevokeRecord(st, r, Revoked, at);
          Ok((revoked, true))
  }

  /** Revoking the listed records of an account that are not revoked yet; the records are those of the listing. */
  function RevokeEach(st: Store, account: Text, listed: seq<Record>, at: nat): Result<(Store, nat), Code>
    decreases |listed|
  {
    if listed == [] then Ok((st, 0))
    else if listed[0].profile.account != account || listed[0].revokedAt.Some?
    then RevokeEach(st, account, listed[1..], at)
    else
      var first :- RevokeRecord(st, listed[0], Revoked, at);
      var rest :- RevokeEach(first, account, listed[1..], at);
      Ok((rest.0, rest.1 + 1))
  }

  // A truthful listing: stored records, each once, and all of the account.
  ghost predicate Listing(st: Store, account: Text, listed: seq<Record>) {
    && (forall i | 0 <= i < |listed| ::
          listed[i].sessionId in st.sessions && st.sessions[listed[i].sessionId] == listed[i])
    && (forall i, j | 0 <= i < j < |listed| :: listed[i].sessionId != listed[j].sessionId)
    && (forall id | id in st.sessions && st.sessions[id].profile.account == account :: st.sessions[id] in listed)
  }
}
