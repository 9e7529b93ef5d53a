/** Rows of the identity directory, their canonical JSON form and the validators every read applies. */
module DirectoryRows {
  import opened Common
  import opened CanonicalText

  datatype Code =
    | InvalidInput
    | AuthenticationDenied
    | AuthorizationDenied
    | ProviderDisabled
    | ConsentDenied
    | IdentityConflict
    | CommandConflict
    | CommandExpired
    | LastMethod
    | CapacityExceeded
    | StorageUnavailable
    | CommitUnknown

  datatype Action = Provision | Link | Unlink

  datatype Config = Config(
    namespace: Text,
    maxLinksPerAccount: nat,
    maxReceiptsPerAccount: nat,
    maxPendingEvents: nat,
    maxRecordBytes: nat,
    maxConcurrentCommands: nat,
    replayWindow: nat,
    maxRows: nat
  )

  // SHA-256 is taken to be injective, so the digested text stands for its digest.
  datatype Digest = Digest(text: Text)

  datatype IdentityRow = IdentityRow(
    namespace: Text,
    issuer: Text,
    subject: Text,
    provider: Text,
    account: Text,
    linkId: Text,
    active: bool,
    generation: nat,
    linkedAt: nat,
    unlinkedAt: Option<nat>
  )

  datatype CommandResult = CommandResult(
    action: Action,
    account: Text,
    linkId: Text,
    revision: nat,
    replay: bool
  )

  datatype CommandRow = CommandRow(
    namespace: Text,
    commandId: Text,
    account: Text,
    action: Action,
    digest: Digest,
    result: CommandResult,
    reservationId: Text,
    eventId: Text,
    expiresAt: nat
  )

  datatype ConsentRow = ConsentRow(namespace: Text, consentId: Text, commandId: Text, expiresAt: nat)

  datatype EventRow = EventRow(
    eventId: Text,
    namespace: Text,
    action: Action,
    account: Text,
    linkId: Text,
    provider: Text,
    revision: nat,
    at: nat,
    commandId: Text,
    pending: bool
  )

  /*** JSON forms ***/

  function Decimal(n: nat): (t: Literal) {
    if n < 10 then [48 + n]
    else
      var front, digit: Text := Decimal(n / 10), [48 + n % 10];
      front + digit
  }

  function DecimalValue(t: Text): int {
    if t == [] then 0 else DecimalValue(t[..|t| - 1]) * 10 + t[|t| - 1] as int - 48
  }

  lemma {:induction false} DecimalRoundTrip(n: nat)
    ensures DecimalValue(Decimal(n)) == n
  {
    if n >= 10 {
      DecimalRoundTrip(n / 10);
      assert Decimal(n)[..|Decimal(n)| - 1] == Decimal(n / 10);
    } else {
      assert Decimal(n)[..0] == [];
    }
  }

  function Field(name: string, value: Json, rest: Members): Members {
    Member(Ascii(name), value, rest)
  }

  function Number(n: nat): Json {
    Num(Decimal(n))
  }

  function Name(a: Action): Json {
    Str(Ascii(match a case Provision => "provision" case Link => "link" case Unlink => "unlink"))
  }

  function Participle(a: Action): Json {
    Str(Ascii(match a case Provision => "provisioned" case Link => "linked" case Unlink => "unlinked"))
  }

  function EventKind(a: Action): Json {
    Str(Ascii(match a
              case Provision => "identity_provisioned"
              case Link => "identity_linked"
              case Unlink => "identity_unlinked"))
  }

  function IdentityMembers(r: IdentityRow): Members {
    Field("namespace", Str(r.namespace),
    Field("issuer", Str(r.issuer),
    Field("subject", Str(r.subject),
    Field("providerId", Str(r.provider),
    Field("accountId", Str(r.account),
    Field("linkId", Str(r.linkId),
    Field("status", Str(Ascii(if r.active then "active" else "unlinked")),
    Field("generation", Number(r.generation),
    Field("linkedAt", Number(r.linkedAt),
    Field("unlinkedAt", if r.unlinkedAt.Some? then Number(r.unlinkedAt.value) else Null,
    Done))))))))))
  }

  function IdentityJson(r: IdentityRow): Json {
    Obj(IdentityMembers(r))
  }

  // A directory lookup result as the protocol compares it: a row or null.
  function TargetJson(r: Option<IdentityRow>): Json {
    if r.Some? then IdentityJson(r.value) else Null
  }

  function ResultJson(r: CommandResult): Json {
    Obj(
      Field("status", Participle(r.action),
      Field("accountId", Str(r.account),
      Field("linkId", Str(r.linkId),
      Field("revision", Number(r.revision),
      Field("replay", Bool(r.replay),
      Done))))))
  }

  // Every digest prints as 64 hexadecimal units, so one of them gives the size of all.
  function HexDigest(): Text {
    seq(64, i => 48)
  }

  // The members of a receipt from the reservation id on.
  function ReceiptTail(r: CommandRow): Members {
    Field("reservationId", Str(r.reservationId),
    Field("eventId", Str(r.eventId),
    Field("expiresAt", Number(r.expiresAt),
    Done)))
  }

  function ReceiptMiddle(r: CommandRow, tail: Members): Members {
    Field("action", Name(r.action),
    Field("intentDigest", Str(HexDigest()),
    Field("result", ResultJson(r.result),
    tail)))
  }

  function CommandJson(r: CommandRow): Json {
    Obj(
      Field("namespace", Str(r.namespace),
      Field("commandId", Str(r.commandId),
      Field("accountId", Str(r.account),
      ReceiptMiddle(r, ReceiptTail(r))))))
  }

  function ConsentJson(r: ConsentRow): Json {
    Obj(
      Field("namespace", Str(r.namespace),
      Field("consentId", Str(r.consentId),
      Field("commandId", Str(r.commandId),
      Field("expiresAt", Number(r.expiresAt),
      Done)))))
  }

  function RevisionJson(namespace: Text, account: Text, revision: nat): Json {
    Obj(
      Field("namespace", Str(namespace),
      Field("accountId", Str(account),
      Field("revision", Number(revision),
      Done))))
  }

  function EventJson(r: EventRow): Json {
    Obj(
      Field("eventId", Str(r.eventId),
      Field("namespace", Str(r.namespace),
      Field("kind", EventKind(r.action),
      Field("accountId", Str(r.account),
      Field("linkId", Str(r.linkId),
      Field("providerId", Str(r.provider),
      Field("revision", Number(r.revision),
      Field("at", Number(r.at),
      Field("commandId", Str(r.commandId),
      Field("delivery", Str(Ascii(if r.pending then "pending" else "acknowledged")),
      Done)))))))))))
  }

  predicate Fits(cfg: Config, v: Json) {
    Utf8(Canonical(v)) <= cfg.maxRecordBytes
  }

  /*** Equal texts mean equal rows ***/

  // Two objects whose members have the same names in the same order.
  predicate Aligned(x: Members, y: Members) {
    match (x, y)
    case (Done, Done) => true
    case (Member(j, _, s), Member(k, _, t)) => j == k && Aligned(s, t)
    case (_, _) => false
  }

  predicate AlignedSame(x: Members, y: Members)
    requires Aligned(x, y)
  {
    x.Member? ==> Same(x.value, y.value) && AlignedSame(x.rest, y.rest)
  }

  lemma AlignedStep(x: Members, y: Members)
    requires x.Member? && Aligned(x, y) && AlignedSame(x, y)
    ensures y.Member? && Same(x.value, y.value) && Aligned(x.rest, y.rest) && AlignedSame(x.rest, y.rest)
  {
  }

  lemma {:induction false} SameMembersDrop(x: Members, y: Members)
    requires y.Member? && y.key !in Keys(x) && SameMembers(x, y)
    ensures SameMembers(x, y.rest)
  {
    if x.Member? {
      SameMembersDrop(x.rest, y);
    }
  }

  lemma {:induction false} SameWhenAligned(x: Members, y: Members)
    requires PlainMembers(x) && Aligned(x, y) && SameMembers(x, y)
    ensures AlignedSame(x, y)
  {
    if x.Member? {
      SameMembersDrop(x.rest, y);
      SameWhenAligned(x.rest, y.rest);
    }
  }

  // Names that differ in length or in their first character.
  predicate Apart(s: string, t: string) {
    |s| != |t| || (|s| > 0 && s[0] != t[0] && s[0] < 128 as char && t[0] < 128 as char)
  }

  lemma ApartNames(s: string, t: string)
    requires Apart(s, t)
    ensures Ascii(s) != Ascii(t)
  {
    if |s| == |t| {
      assert Ascii(s)[0] == s[0] as int && Ascii(t)[0] == t[0] as int;
    }
  }

  lemma IdentityNamesApart()
    ensures Ascii("namespace") != Ascii("accountId")
    ensures Ascii("issuer") != Ascii("linkId") && Ascii("issuer") != Ascii("status")
    ensures Ascii("linkId") != Ascii("status")
    ensures Ascii("providerId") != Ascii("generation") && Ascii("providerId") != Ascii("unlinkedAt")
    ensures Ascii("generation") != Ascii("unlinkedAt")
  {
    ApartNames("namespace", "accountId");
    ApartNames("issuer", "linkId");
    ApartNames("issuer", "status");
    ApartNames("linkId", "status");
    ApartNames("providerId", "generation");
    ApartNames("providerId", "unlinkedAt");
    ApartNames("generation", "unlinkedAt");
  }

  lemma PlainField(name: string, v: Json, rest: Members)
    requires Plain(v) && PlainMembers(rest) && Ascii(name) !in Keys(rest)
    ensures PlainMembers(Field(name, v, rest))
    ensures Keys(Field(name, v, rest)) == {Ascii(name)} + Keys(rest)
  {
  }

  lemma IdentityJsonPlain(r: IdentityRow)
    ensures Plain(IdentityJson(r))
  {
    IdentityNamesApart();
    var m0 := IdentityMembers(r);
    var m1 := m0.rest;
    var m2 := m1.rest;
    var m3 := m2.rest;
    var m4 := m3.rest;
    var m5 := m4.rest;
    var m6 := m5.rest;
    var m7 := m6.rest;
    var m8 := m7.rest;
    var m9 := m8.rest;
    PlainField("unlinkedAt", m9.value, Done);
    PlainField("linkedAt", m8.value, m9);
    PlainField("generation", m7.value, m8);
    PlainField("status", m6.value, m7);
    PlainField("linkId", m5.value, m6);
    PlainField("accountId", m4.value, m5);
    PlainField("providerId", m3.value, m4);
    PlainField("subject", m2.value, m3);
    PlainField("issuer", m1.value, m2);
    PlainField("namespace", m0.value, m1);
  }

  lemma IdentityJsonInjective(a: IdentityRow, b: IdentityRow)
    requires Same(IdentityJson(a), IdentityJson(b))
    ensures a == b
  {
    IdentityJsonPlain(a);
    var x, y := IdentityMembers(a), IdentityMembers(b);
    IdentitiesAligned(a, b);
    SameWhenAligned(x, y);
    AlignedStep(x, y);
    var x1, y1 := x.rest, y.rest;
    AlignedStep(x1, y1);
    var x2, y2 := x1.rest, y1.rest;
    AlignedStep(x2, y2);
    var x3, y3 := x2.rest, y2.rest;
    AlignedStep(x3, y3);
    var x4, y4 := x3.rest, y3.rest;
    AlignedStep(x4, y4);
    var x5, y5 := x4.rest, y4.rest;
    AlignedStep(x5, y5);
    var x6, y6 := x5.rest, y5.rest;
    AlignedStep(x6, y6);
    var x7, y7 := x6.rest, y6.rest;
    AlignedStep(x7, y7);
    var x8, y8 := x7.rest, y7.rest;
    AlignedStep(x8, y8);
    AlignedStep(x8.rest, y8.rest);
    DecimalRoundTrip(a.generation);
    DecimalRoundTrip(b.generation);
    DecimalRoundTrip(a.linkedAt);
    DecimalRoundTrip(b.linkedAt);
    if a.unlinkedAt.Some? && b.unlinkedAt.Some? {
      DecimalRoundTrip(a.unlinkedAt.value);
      DecimalRoundTrip(b.unlinkedAt.value);
    }
    assert |Ascii("active")| != |Ascii("unlinked")|;
  }

  lemma IdentitiesAligned(a: IdentityRow, b: IdentityRow)
    ensures Aligned(IdentityMembers(a), IdentityMembers(b))
  {
    var x, y := IdentityMembers(a), IdentityMembers(b);
    var x4, y4 := x.rest.rest.rest.rest, y.rest.rest.rest.rest;
    var x8, y8 := x4.rest.rest.rest.rest, y4.rest.rest.rest.rest;
    assert Aligned(x8, y8);
    assert Aligned(x4.rest.rest, y4.rest.rest);
    assert Aligned(x4, y4);
    assert Aligned(x.rest.rest, y.rest.rest);
  }

  /** Comparing canonical texts of lookup results compares the lookup results. */
  lemma TargetTextDecides(a: Option<IdentityRow>, b: Option<IdentityRow>)
    ensures Canonical(TargetJson(a)) == Canonical(TargetJson(b)) <==> a == b
  {
    if a.Some? {
      IdentityJsonPlain(a.value);
    }
    if b.Some? {
      IdentityJsonPlain(b.value);
    }
    CanonicalDecidesEquality(TargetJson(a), TargetJson(b));
    if a.Some? && b.Some? && Same(TargetJson(a), TargetJson(b)) {
      IdentityJsonInjective(a.value, b.value);
    }
  }

  /*** Validators ***/

  predicate TextOk(t: Text, max: nat) {
    t != [] && Utf8(t) <= max
  }

  predicate PortableUnit(u: CodeUnit) {
    65 <= u <= 90 || 97 <= u <= 122 || 48 <= u <= 57 || u == 95 || u == 46 || u == 45
  }

  predicate Portable(t: Text, max: nat) {
    TextOk(t, max) && forall i | 0 <= i < |t| :: PortableUnit(t[i])
  }

  predicate AccountOk(t: Text) {
    1 <= |t| <= 512
  }

  /** 43 base64url units that encode 32 bytes: the last one carries two zero bits. */
  predicate IdOk(t: Text) {
    && |t| == 43
    && (forall i | 0 <= i < 43 :: PortableUnit(t[i]) && t[i] != 46)
    && t[42] in Ascii("AEIMQUYcgkosw048")
  }

  // The six bits a base64url unit stands for, section 5 of RFC 4648; -1 for any other unit.
  function SixBits(u: CodeUnit): int {
    if 65 <= u <= 90 then u - 65
    else if 97 <= u <= 122 then u - 97 + 26
    else if 48 <= u <= 57 then u - 48 + 52
    else if u == 45 then 62
    else if u == 95 then 63
    else -1
  }

  /** An id is 43 base64url units of which the last two bits are zero: 256 bits without padding. */
  lemma IdEncodes32Bytes(t: Text)
    ensures IdOk(t) <==>
              |t| == 43 && (forall i | 0 <= i < 43 :: SixBits(t[i]) >= 0) && SixBits(t[42]) % 4 == 0
  {
    if |t| == 43 {
      LastUnit(t[42]);
      forall i | 0 <= i < 43 ensures SixBits(t[i]) >= 0 <==> PortableUnit(t[i]) && t[i] != 46 {
      }
      hide SixBits, PortableUnit, Ascii;
    }
  }

  lemma LastUnit(u: CodeUnit)
    ensures u in Ascii("AEIMQUYcgkosw048") <==> SixBits(u) >= 0 && SixBits(u) % 4 == 0
  {
    assert Ascii("AEIMQUYcgkosw048") == [65, 69, 73, 77, 81, 85, 89, 99, 103, 107, 111, 115, 119, 48, 52, 56];
    hide Ascii;
  }

  predicate IdentityRowOk(cfg: Config, r: IdentityRow) {
    && r.namespace == cfg.namespace
    && TextOk(r.issuer, 2048) && TextOk(r.subject, 512)
    && Portable(r.provider, 80) && AccountOk(r.account) && IdOk(r.linkId)
    && 1 <= r.generation <= MAX_SAFE && r.linkedAt <= MAX_SAFE
    && (if r.active then r.unlinkedAt.None? else r.unlinkedAt.Some? && r.linkedAt <= r.unlinkedAt.value <= MAX_SAFE)
    && Fits(cfg, IdentityJson(r))
  }

  predicate CommandRowOk(cfg: Config, r: CommandRow) {
    && r.namespace == cfg.namespace
    && TextOk(r.commandId, 60) && AccountOk(r.account)
    && AccountOk(r.result.account) && IdOk(r.result.linkId) && 1 <= r.result.revision <= MAX_SAFE
    && Portable(r.reservationId, 128) && IdOk(r.eventId) && r.expiresAt <= MAX_SAFE
    && r.account == r.result.account && !r.result.replay && r.result.action == r.action
    && Fits(cfg, CommandJson(r))
  }

  predicate ConsentRowOk(cfg: Config, r: ConsentRow) {
    && r.namespace == cfg.namespace
    && Portable(r.consentId, 128) && TextOk(r.commandId, 60) && r.expiresAt <= MAX_SAFE
    && Fits(cfg, ConsentJson(r))
  }

  /*** The placeholder reservation id bounds the size of the final receipt ***/

  lemma {:induction false} PortableEscape(t: Text)
    requires forall i | 0 <= i < |t| :: PortableUnit(t[i])
    ensures Escape(t) == t
  {
    if t != [] {
      assert PortableUnit(t[0]) && EscapeUnit(t[0]) == [t[0]];
      PortableEscape(t[1..]);
      assert t == [t[0]] + t[1..];
    }
  }

  lemma PortableSize(t: Text)
    requires forall i | 0 <= i < |t| :: PortableUnit(t[i])
    ensures Utf8(t) == |t| && Utf8(Escape(t)) == |t| && Escape(t) == t
  {
    hide Utf8, Escape;
    PortableEscape(t);
    AsciiSize(t);
  }

  /** A portable text is one of base64url units and full stops, as long in bytes as in units. */
  lemma PortableIs(t: Text, max: nat)
    ensures Portable(t, max) <==>
              1 <= |t| <= max && forall i | 0 <= i < |t| :: SixBits(t[i]) >= 0 || t[i] == 46
  {
    hide Utf8;
    assert forall u: CodeUnit :: PortableUnit(u) <==> SixBits(u) >= 0 || u == 46;
    if forall i | 0 <= i < |t| :: PortableUnit(t[i]) {
      PortableSize(t);
    }
  }

  function Placeholder(): Text {
    seq(128, i => 120)
  }

  lemma FieldWeight(name: string, v: Json, s: Members, t: Members)
    requires s.Member? && t.Member? && WeightMembers(s) <= WeightMembers(t)
    ensures WeightMembers(Field(name, v, s)) <= WeightMembers(Field(name, v, t))
  {
  }

  lemma TailWeight(r: CommandRow, s: CommandRow)
    requires s == r.(reservationId := s.reservationId)
    requires Weight(Str(r.reservationId)) <= Weight(Str(s.reservationId))
    ensures WeightMembers(ReceiptTail(r)) <= WeightMembers(ReceiptTail(s))
  {
    assert ReceiptTail(r).rest == ReceiptTail(s).rest;
  }

  lemma MiddleWeight(r: CommandRow, s: Members, t: Members)
    requires s.Member? && t.Member? && WeightMembers(s) <= WeightMembers(t)
    ensures WeightMembers(ReceiptMiddle(r, s)) <= WeightMembers(ReceiptMiddle(r, t))
  {
    var s1, t1 := Field("result", ResultJson(r.result), s), Field("result", ResultJson(r.result), t);
    FieldWeight("result", ResultJson(r.result), s, t);
    FieldWeight("intentDigest", Str(HexDigest()), s1, t1);
    FieldWeight("action", Name(r.action), Field("intentDigest", Str(HexDigest()), s1),
                Field("intentDigest", Str(HexDigest()), t1));
  }

  lemma ReceiptWeight(r: CommandRow, s: CommandRow)
    requires s == r.(reservationId := s.reservationId)
    requires Weight(Str(r.reservationId)) <= Weight(Str(s.reservationId))
    ensures Weight(CommandJson(r)) <= Weight(CommandJson(s))
  {
    TailWeight(r, s);
    MiddleWeight(r, ReceiptTail(r), ReceiptTail(s));
    var x, y := ReceiptMiddle(r, ReceiptTail(r)), ReceiptMiddle(s, ReceiptTail(s));
    FieldWeight("accountId", Str(r.account), x, y);
    var x1, y1 := Field("accountId", Str(r.account), x), Field("accountId", Str(r.account), y);
    FieldWeight("commandId", Str(r.commandId), x1, y1);
    FieldWeight("namespace", Str(r.namespace), Field("commandId", Str(r.commandId), x1),
                Field("commandId", Str(r.commandId), y1));
  }

  lemma PlaceholderWeight(id: Text)
    requires Portable(id, 128)
    ensures Weight(Str(id)) <= Weight(Str(Placeholder()))
  {
    PortableSize(id);
    PortableSize(Placeholder());
  }

  /** A receipt sized with the placeholder fits with every real reservation id. */
  lemma PlaceholderDominates(cfg: Config, r: CommandRow, id: Text)
    requires Portable(id, 128)
    requires Fits(cfg, CommandJson(r.(reservationId := Placeholder())))
    ensures Fits(cfg, CommandJson(r.(reservationId := id)))
  {
    PlaceholderWeight(id);
    ReceiptWeight(r.(reservationId := id), r.(reservationId := Placeholder()));
    WeighedFits(cfg, CommandJson(r.(reservationId := id)), CommandJson(r.(reservationId := Placeholder())));
  }

  lemma WeighedFits(cfg: Config, v: Json, w: Json)
    requires Weight(v) <= Weight(w) && Fits(cfg, w)
    ensures Fits(cfg, v)
  {
    CanonicalSize(v);
    CanonicalSize(w);
  }

  /*** Command identifiers and their horizon ***/

  datatype Horizon = Horizon(commandId: Text, issuedAt: nat, deadline: nat)

  predicate Digits(t: Text) {
    |t| > 0 && (forall i | 0 <= i < |t| :: 48 <= t[i] <= 57) && (|t| == 1 || t[0] != 48)
  }

  /** `<issuedAt>.<nonce>` with a canonical decimal and 32 random bytes; expired identifiers are refused. */
  function ParseHorizon(raw: Text, now: nat, window: nat): Result<Horizon, Code> {
    if !TextOk(raw, 60) || |raw| < 45 || raw[|raw| - 44] != 46 then Err(InvalidInput)
    else
      var stamp, nonce := raw[..|raw| - 44], raw[|raw| - 43..];
      if !Digits(stamp) || !IdOk(nonce) then Err(InvalidInput)
      else
        var issuedAt := DecimalValue(stamp);
        if !(0 <= issuedAt <= MAX_SAFE && issuedAt <= now) then Err(InvalidInput)
        else if issuedAt + window > MAX_SAFE then Err(InvalidInput)
        else if now >= issuedAt + window then Err(CommandExpired)
        else Ok(Horizon(raw, issuedAt, issuedAt + window))
  }

  lemma {:induction false} DigitsAreCanonical(t: Text)
    requires Digits(t)
    ensures DecimalValue(t) >= 0 && Decimal(DecimalValue(t)) == t
    ensures t[0] != 48 ==> DecimalValue(t) > 0
  {
    if |t| == 1 {
      assert t[..0] == [];
      assert DecimalValue(t) == t[0] - 48;
    } else {
      var front := t[..|t| - 1];
      DigitsAreCanonical(front);
      assert DecimalValue(t) == DecimalValue(front) * 10 + (t[|t| - 1] - 48);
      assert t == front + [t[|t| - 1]];
    }
  }

  /** An accepted identifier is exactly the canonical text of its issue time and a nonce, within its window. */
  lemma HorizonIsCanonical(raw: Text, now: nat, window: nat)
    requires ParseHorizon(raw, now, window).Ok?
    ensures var h := ParseHorizon(raw, now, window).value;
            && raw == Decimal(h.issuedAt) + [46] + raw[|raw| - 43..]
            && h.issuedAt <= now < h.deadline == h.issuedAt + window
  {
    DigitsAreCanonical(raw[..|raw| - 44]);
    assert raw == raw[..|raw| - 44] + [raw[|raw| - 44]] + raw[|raw| - 43..];
  }

  lemma {:induction false} DecimalDigits(n: nat)
    ensures Digits(Decimal(n)) && (n > 0 ==> Decimal(n)[0] != 48)
  {
    if n >= 10 {
      DecimalDigits(n / 10);
    }
  }

  /**
   Every identifier made from an issue time and a nonce is accepted within its window, with just that time, told
   expired after it, and refused as invalid before its issue or when its window does not fit.
   */
  lemma HorizonParses(issuedAt: nat, nonce: Text, now: nat, window: nat)
    requires IdOk(nonce) && TextOk(Decimal(issuedAt) + [46] + nonce, 60)
    ensures var raw := Decimal(issuedAt) + [46] + nonce;
            ParseHorizon(raw, now, window)
            == if issuedAt > now || issuedAt + window > MAX_SAFE then Err(InvalidInput)
               else if now < issuedAt + window then Ok(Horizon(raw, issuedAt, issuedAt + window))
               else Err(CommandExpired)
  {
    hide TextOk, IdOk, Digits, Decimal, DecimalValue;
    var stamp := Decimal(issuedAt);
    var raw := stamp + [46] + nonce;
    DecimalDigits(issuedAt);
    DecimalRoundTrip(issuedAt);
    DigitsNonempty(stamp);
    NonceLength(nonce);
    assert raw[..|raw| - 44] == stamp && raw[|raw| - 44] == 46 && raw[|raw| - 43..] == nonce;
  }

  lemma DigitsNonempty(t: Text)
    requires Digits(t)
    ensures |t| > 0
  {
  }

  lemma NonceLength(t: Text)
    requires IdOk(t)
    ensures |t| == 43
  {
  }
}
