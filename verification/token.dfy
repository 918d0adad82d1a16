/** pkg/token: token payloads with an expiry time (payload.go) and the JWT
    maker that signs and verifies them (jwt_maker.go).
    Clock readings, UUID generation and the golang-jwt library are inputs:
    the library appears as the three functions of `Jws`, and its parser as
    `ParseWithClaims` below. */
module Token {
  import opened Wrappers
  import opened ErrorChain
  import Text

  /** Wall-clock instants and durations, in nanoseconds. */
  type Time = int
  type Duration = int
  type Uuid = nat

  const ErrInvalidToken := Sentinel("token is invalid")
  const ErrExpiredToken := Sentinel("token has expired")
  /** golang-jwt's `ErrSignatureInvalid`. */
  const ErrSignatureInvalid := Sentinel("signature is invalid")

  const MinSecretKeySize: nat := 32
  const ErrInvalidKeySize := Sentinel("invalid key size: must be at least 32 characters")

  // ---------------------------------------------------------------- payload.go

  datatype Payload = Payload(id: Uuid, username: string, issuedAt: Time, expiredAt: Time)

  /** `NewPayload`: `newId` is the outcome of `uuid.NewRandom`; `first` and
      `second` are the two successive `time.Now()` readings. */
  function NewPayload(username: string, duration: Duration, newId: Result<Uuid, Error>,
                      first: Time, second: Time): (r: Result<Payload, Error>)
    ensures newId.Err? ==> r.Err? && Is(r.error, newId.error)
    ensures newId.Ok? ==> r.Ok? && r.value.id == newId.value && r.value.username == username
    ensures newId.Ok? ==> r.value.issuedAt == first && r.value.expiredAt - second == duration
  {
    match newId
    case Err(e) => Err(Wrapped("failed to create token id", e))
    case Ok(id) => Ok(Payload(id, username, first, second + duration))
  }

  /** `Valid` at clock reading `now`: a payload expires strictly after `expiredAt`. */
  function Valid(p: Payload, now: Time): (r: Option<Error>)
    ensures r.Some? <==> now > p.expiredAt
    ensures r.Some? ==> r.value == ErrExpiredToken
  {
    if now > p.expiredAt then Some(ErrExpiredToken) else None
  }

  /** With a clock that does not run backwards, a payload lives at least `duration`. */
  lemma PayloadLifetime(username: string, duration: Duration, id: Uuid, first: Time, second: Time)
    requires first <= second
    ensures var p := NewPayload(username, duration, Ok(id), first, second).value;
      p.expiredAt >= p.issuedAt + duration
      && Valid(p, first + duration).None?
  {
  }

  /** Once expired, a payload stays expired. */
  lemma ExpiryIsPermanent(p: Payload, t: Time, later: Time)
    requires Valid(p, t).Some? && t <= later
    ensures Valid(p, later) == Some(ErrExpiredToken)
  {
  }

  /** A payload made with a negative duration is expired from the second clock reading on. */
  lemma NegativeDurationExpired(username: string, duration: Duration, id: Uuid, first: Time, second: Time, now: Time)
    requires duration < 0 && first <= second <= now
    ensures Valid(NewPayload(username, duration, Ok(id), first, second).value, now) == Some(ErrExpiredToken)
  {
  }

  // ---------------------------------------------------------------- jwt_maker.go

  /** Go's `len` of a string counts its UTF-8 bytes. */
  function Utf8Length(s: string): (n: nat)
    ensures |s| <= n <= 4 * |s|
  {
    if s == [] then 0
    else
      var c := s[0] as int;
      (if c < 0x80 then 1 else if c < 0x800 then 2 else if c < 0x10000 then 3 else 4) + Utf8Length(s[1..])
  }

  datatype JwtMaker = JwtMaker(secretKey: string)

  /** `NewJWTMaker`: keys shorter than 32 bytes are refused; others are kept as given. */
  function NewJwtMaker(secretKey: string): (r: Result<JwtMaker, Error>)
    ensures r.Err? <==> Utf8Length(secretKey) < MinSecretKeySize
    ensures r.Err? ==> r.error == ErrInvalidKeySize
    ensures r.Ok? ==> r.value.secretKey == secretKey
  {
    if Utf8Length(secretKey) < MinSecretKeySize then Err(ErrInvalidKeySize) else Ok(JwtMaker(secretKey))
  }

  /** Any key of 32 characters or more is accepted; any key of fewer than 8 is refused. */
  lemma KeySizeByCharacters(secretKey: string)
    ensures |secretKey| >= 32 ==> NewJwtMaker(secretKey).Ok?
    ensures |secretKey| < 8 ==> NewJwtMaker(secretKey).Err?
  {
  }

  /** The signing-method families of golang-jwt; `HMAC(256)` is HS256. */
  datatype SigningMethod = HMAC(bits: nat) | RSA(bits: nat) | RSAPSS(bits: nat) | ECDSA(bits: nat) | EdDSA | NoSigning

  const HS256 := HMAC(256)

  /** A compact-serialised token after decoding: its header's method, its
      claims, the signed text (header and claims segments) and the signature segment. */
  datatype Decoded = Decoded(alg: SigningMethod, claims: Payload, signingInput: string, signature: string)

  /** The golang-jwt operations the maker relies on. */
  datatype Jws = Jws(
    signingString: (SigningMethod, Payload) -> string, // base64url(header) "." base64url(claims)
    sign: (SigningMethod, string, string) -> string,   // signature segment of (alg, signed text, key)
    decode: string -> Option<Decoded>)                 // None when malformed or the method is unknown

  /** `jwt.NewWithClaims(alg, claims).SignedString(key)`. */
  function SignedString(jws: Jws, alg: SigningMethod, claims: Payload, key: string): string
  {
    var input := jws.signingString(alg, claims);
    input + "." + jws.sign(alg, input, key)
  }

  /** What the round trip needs of the library: a token it produced decodes to
      what was signed, and tokens are non-empty and contain no whitespace. */
  ghost predicate WellBehaved(jws: Jws)
  {
    && (forall m, c, k :: jws.decode(SignedString(jws, m, c, k))
          == Some(Decoded(m, c, jws.signingString(m, c), jws.sign(m, jws.signingString(m, c), k))))
    && (forall m, c :: Text.NoSpace(jws.signingString(m, c)))
    && (forall m, i, k :: Text.NoSpace(jws.sign(m, i, k)))
  }

  /** `CreateToken`: a fresh payload signed with HS256 and the maker's key. */
  function CreateToken(maker: JwtMaker, jws: Jws, username: string, duration: Duration,
                       newId: Result<Uuid, Error>, first: Time, second: Time): (r: Result<string, Error>)
    ensures newId.Err? ==> r.Err? && Is(r.error, newId.error)
    ensures newId.Ok? ==> r.Ok?
  {
    match NewPayload(username, duration, newId, first, second)
    case Err(e) => Err(Wrapped("failed to create payload", e))
    case Ok(payload) => Ok(SignedString(jws, HS256, payload, maker.secretKey))
  }

  /** The key function `VerifyToken` hands the parser: the secret for every
      HMAC method, `ErrInvalidToken` for any other method. */
  function KeyFor(maker: JwtMaker, alg: SigningMethod): (r: Result<string, Error>)
    ensures r.Ok? <==> alg.HMAC?
    ensures r.Ok? ==> r.value == maker.secretKey
    ensures r.Err? ==> r.error == ErrInvalidToken
  {
    if alg.HMAC? then Ok(maker.secretKey) else Err(ErrInvalidToken)
  }

  /** `*jwt.ValidationError`; `inner` is its `Inner` cause (nil for a malformed token). */
  datatype ValidationError = ValidationError(inner: Option<Error>)

  /** golang-jwt v4 `ParseWithClaims` with `VerifyToken`'s key function at clock
      reading `now`: decode, look up the key, validate the claims, then check
      the signature, whose failure replaces any claims error as the cause. */
  function ParseWithClaims(jws: Jws, maker: JwtMaker, token: string, now: Time): (r: Result<Payload, ValidationError>)
    ensures jws.decode(token).None? ==> r == Err(ValidationError(None))
    ensures jws.decode(token).Some? && !jws.decode(token).value.alg.HMAC? ==>
      r == Err(ValidationError(Some(ErrInvalidToken)))
    ensures jws.decode(token).Some? && jws.decode(token).value.alg.HMAC? ==>
      var d := jws.decode(token).value;
      jws.sign(d.alg, d.signingInput, maker.secretKey) != d.signature ==>
        r == Err(ValidationError(Some(ErrSignatureInvalid)))
    ensures r.Ok? <==>
      && jws.decode(token).Some?
      && var d := jws.decode(token).value;
      && d.alg.HMAC?
      && jws.sign(d.alg, d.signingInput, maker.secretKey) == d.signature
      && now <= d.claims.expiredAt
    ensures r.Ok? ==> r.value == jws.decode(token).value.claims
    ensures r.Err? && r.error.inner.Some? ==>
      r.error.inner.value in {ErrInvalidToken, ErrSignatureInvalid, ErrExpiredToken}
  {
    match jws.decode(token)
    case None => Err(ValidationError(None))
    case Some(d) =>
      match KeyFor(maker, d.alg)
      case Err(e) => Err(ValidationError(Some(e)))
      case Ok(key) =>
        var claimsError := Valid(d.claims, now);
        if jws.sign(d.alg, d.signingInput, key) != d.signature then Err(ValidationError(Some(ErrSignatureInvalid)))
        else if claimsError.Some? then Err(ValidationError(claimsError))
        else Ok(d.claims)
  }

  /** The classification at the end of `VerifyToken`: only a parse failure
      caused by expiry becomes `ErrExpiredToken`; every other failure becomes
      `ErrInvalidToken`; success hands back the parsed claims. */
  function Classify(parsed: Result<Payload, ValidationError>): (r: Result<Payload, Error>)
    ensures r.Err? ==> r.error == ErrExpiredToken || r.error == ErrInvalidToken
    ensures r == Err(ErrExpiredToken) <==>
      parsed.Err? && parsed.error.inner.Some? && Is(parsed.error.inner.value, ErrExpiredToken)
    ensures r.Ok? <==> parsed.Ok?
    ensures r.Ok? ==> r.value == parsed.value
  {
    match parsed
    case Err(ValidationError(inner)) =>
      if inner.Some? && Is(inner.value, ErrExpiredToken) then Err(ErrExpiredToken) else Err(ErrInvalidToken)
    case Ok(claims) => Ok(claims)
  }

  /** `VerifyToken` at clock reading `now`. */
  function VerifyToken(maker: JwtMaker, jws: Jws, token: string, now: Time): (r: Result<Payload, Error>)
    ensures r.Err? ==> r.error == ErrExpiredToken || r.error == ErrInvalidToken
    ensures r.Ok? ==> jws.decode(token).Some? && r.value == jws.decode(token).value.claims
    ensures r.Ok? ==> now <= r.value.expiredAt
  {
    Classify(ParseWithClaims(jws, maker, token, now))
  }

  /** A token whose header names a method outside the HMAC family (`none`
      included) is invalid, whatever its claims and signature. */
  lemma NonHmacRejected(maker: JwtMaker, jws: Jws, token: string, now: Time)
    requires jws.decode(token).Some? && !jws.decode(token).value.alg.HMAC?
    ensures VerifyToken(maker, jws, token, now) == Err(ErrInvalidToken)
  {
  }

  /** A token whose signature does not match is invalid, even when it has also expired. */
  lemma BadSignatureRejected(maker: JwtMaker, jws: Jws, token: string, now: Time)
    requires jws.decode(token).Some?
    requires var d := jws.decode(token).value;
      jws.sign(d.alg, d.signingInput, maker.secretKey) != d.signature
    ensures VerifyToken(maker, jws, token, now) == Err(ErrInvalidToken)
  {
  }

  /** `ErrExpiredToken` is reported only for an authentic HMAC token whose
      expiry has passed; every other outcome is success or `ErrInvalidToken`. */
  lemma ExpiredMeansAuthentic(maker: JwtMaker, jws: Jws, token: string, now: Time)
    ensures VerifyToken(maker, jws, token, now) == Err(ErrExpiredToken) <==>
      && jws.decode(token).Some?
      && var d := jws.decode(token).value;
      && d.alg.HMAC?
      && jws.sign(d.alg, d.signingInput, maker.secretKey) == d.signature
      && now > d.claims.expiredAt
    ensures VerifyToken(maker, jws, token, now).Ok? <==>
      && jws.decode(token).Some?
      && var d := jws.decode(token).value;
      && d.alg.HMAC?
      && jws.sign(d.alg, d.signingInput, maker.secretKey) == d.signature
      && now <= d.claims.expiredAt
  {
  }

  /** Round trip: a token this maker created verifies, before it expires, to
      the payload it was created from. */
  lemma CreateThenVerify(maker: JwtMaker, jws: Jws, username: string, duration: Duration,
                         id: Uuid, first: Time, second: Time, now: Time)
    requires WellBehaved(jws)
    requires now <= second + duration
    ensures CreateToken(maker, jws, username, duration, Ok(id), first, second).Ok?
    ensures VerifyToken(maker, jws, CreateToken(maker, jws, username, duration, Ok(id), first, second).value, now)
         == Ok(Payload(id, username, first, second + duration))
  {
    var p := Payload(id, username, first, second + duration);
    assert jws.decode(SignedString(jws, HS256, p, maker.secretKey))
        == Some(Decoded(HS256, p, jws.signingString(HS256, p), jws.sign(HS256, jws.signingString(HS256, p), maker.secretKey)));
  }

  /** A token created with a negative duration verifies to `ErrExpiredToken`
      (never `ErrInvalidToken`) from the second clock reading on. */
  lemma NegativeDurationTokenExpired(maker: JwtMaker, jws: Jws, username: string, duration: Duration,
                                     id: Uuid, first: Time, second: Time, now: Time)
    requires WellBehaved(jws)
    requires duration < 0 && second <= now
    ensures CreateToken(maker, jws, username, duration, Ok(id), first, second).Ok?
    ensures VerifyToken(maker, jws, CreateToken(maker, jws, username, duration, Ok(id), first, second).value, now)
         == Err(ErrExpiredToken)
  {
    var p := Payload(id, username, first, second + duration);
    assert jws.decode(SignedString(jws, HS256, p, maker.secretKey))
        == Some(Decoded(HS256, p, jws.signingString(HS256, p), jws.sign(HS256, jws.signingString(HS256, p), maker.secretKey)));
  }

  /** Created tokens can travel in a header: they are non-empty and whitespace-free. */
  lemma CreatedTokenHasNoSpace(maker: JwtMaker, jws: Jws, username: string, duration: Duration,
                               id: Uuid, first: Time, second: Time)
    requires WellBehaved(jws)
    ensures CreateToken(maker, jws, username, duration, Ok(id), first, second).Ok?
    ensures var t := CreateToken(maker, jws, username, duration, Ok(id), first, second).value;
      t != [] && Text.NoSpace(t)
  {
    var p := Payload(id, username, first, second + duration);
    var input := jws.signingString(HS256, p);
    var sig := jws.sign(HS256, input, maker.secretKey);
    assert Text.NoSpace(input) && Text.NoSpace(sig);
    var t := input + "." + sig;
    assert forall i :: 0 <= i < |t| ==> t[i] == '.' || (i < |input| && t[i] == input[i]) || (i > |input| && t[i] == sig[i - |input| - 1]);
  }
}
