/** internal/controller/http/middleware/auth.go: the mandatory authentication
    gate. It reads the `Authorization` header, checks its shape and scheme,
    delegates to a token verifier, and records the outcome in the request. */
module Auth {
  import opened Wrappers
  import opened ErrorChain
  import Text
  import Token
  import Gin
  import HttpErr

  const ErrAuthHeaderNotProvided := Sentinel("authorization header is not provided")
  const ErrInvalidAuthHeaderFormat := Sentinel("invalid authorization header format")
  const ErrPayloadNotFound := Sentinel("payload not found")

  /** The `tokenMaker` dependency's `VerifyToken`. */
  type Verifier = string -> Result<Token.Payload, Error>

  datatype Auth = Auth(headerKey: string, authorizationType: string, payloadKey: string, tokenKey: string)

  /** `NewAuth`: the fixed header, scheme and store keys. */
  function NewAuth(): (a: Auth)
    ensures a.headerKey == "Authorization" && a.authorizationType == "token"
    ensures a.payloadKey != a.tokenKey
  {
    Auth("Authorization", "token", "authorization_payload", "authorization_token")
  }

  datatype AuthError = AuthError(err: Error, slug: string)

  /** The outcome of `parseAuthHeader` together with the tokens handed to the verifier. */
  datatype Parsed = Parsed(result: Result<(Token.Payload, string), AuthError>, verified: seq<string>)

  /** `parseAuthHeader`, applied to the header's value ("" when it is absent). */
  function ParseAuthHeader(a: Auth, verify: Verifier, header: string): (r: Parsed)
    ensures |r.verified| <= 1
    ensures r.result.Ok? <==> |r.verified| == 1 && verify(r.verified[0]).Ok?
    ensures header == "" ==>
      r == Parsed(Err(AuthError(ErrAuthHeaderNotProvided, "empty-token")), [])
    ensures header != "" && |Text.Fields(header)| < 2 ==>
      r == Parsed(Err(AuthError(ErrInvalidAuthHeaderFormat, "invalid-token")), [])
    ensures header != "" && |Text.Fields(header)| >= 2 && Text.Lower(Text.Fields(header)[0]) != a.authorizationType ==>
      r == Parsed(Err(AuthError(Opaque("unsupported authorization type " + Text.Lower(Text.Fields(header)[0])),
                                "unsupported-token")), [])
    ensures header != "" && |Text.Fields(header)| >= 2 && Text.Lower(Text.Fields(header)[0]) == a.authorizationType ==>
      r.verified == [Text.Fields(header)[1]]
    ensures r.result.Ok? ==> r.result.value == (verify(r.verified[0]).value, r.verified[0])
    ensures |r.verified| == 1 && r.result.Err? ==>
      r.result.error == AuthError(verify(r.verified[0]).error, "unable-to-verify-jwt")
  {
    if header == "" then
      Parsed(Err(AuthError(ErrAuthHeaderNotProvided, "empty-token")), [])
    else
      var fields := Text.Fields(header);
      if |fields| < 2 then
        Parsed(Err(AuthError(ErrInvalidAuthHeaderFormat, "invalid-token")), [])
      else
        var scheme := Text.Lower(fields[0]);
        if scheme != a.authorizationType then
          Parsed(Err(AuthError(Opaque("unsupported authorization type " + scheme), "unsupported-token")), [])
        else
          var accessToken := fields[1];
          match verify(accessToken)
          case Err(e) => Parsed(Err(AuthError(e, "unable-to-verify-jwt")), [accessToken])
          case Ok(payload) => Parsed(Ok((payload, accessToken)), [accessToken])
  }

  /** `Handle`: on failure abort with 401 and the failure's slug, storing
      nothing; on success store the token and the payload, then continue. */
  function Handle(a: Auth, verify: Verifier, c: Gin.Context): (r: Gin.Context)
    ensures var p := ParseAuthHeader(a, verify, Gin.GetHeader(c, a.headerKey));
      && (p.result.Err? ==>
           && r.aborted == Some(Gin.Response(HttpErr.StatusUnauthorized,
                                             Gin.ErrorResponse(Gin.Errors([p.result.error.slug]))))
           && r.keys == c.keys && r.proceeded == c.proceeded)
      && (p.result.Ok? ==>
           && r.keys == c.keys[a.tokenKey := Gin.TextValue(p.result.value.1)]
                              [a.payloadKey := Gin.PayloadValue(p.result.value.0)]
           && r.aborted == c.aborted && r.proceeded)
  {
    match ParseAuthHeader(a, verify, Gin.GetHeader(c, a.headerKey)).result
    case Err(authErr) => HttpErr.Unauthorised(c, authErr.slug, authErr.err)
    case Ok((payload, accessToken)) =>
      var c1 := Gin.Set(c, a.tokenKey, Gin.TextValue(accessToken));
      Gin.Next(Gin.Set(c1, a.payloadKey, Gin.PayloadValue(payload)))
  }

  /** `GetPayload`: the stored payload, or nil after responding 401 "not-found-payload". */
  function GetPayload(a: Auth, c: Gin.Context): (r: (Option<Token.Payload>, Gin.Context))
    ensures r.0.Some? <==> a.payloadKey in c.keys && c.keys[a.payloadKey].PayloadValue?
    ensures r.0.Some? ==> r.0.value == c.keys[a.payloadKey].payload && r.1 == c
    ensures r.0.None? ==>
      r.1 == c.(aborted := Some(Gin.Response(HttpErr.StatusUnauthorized, Gin.ErrorResponse(Gin.Errors(["not-found-payload"])))))
  {
    if a.payloadKey in c.keys && c.keys[a.payloadKey].PayloadValue? then
      (Some(c.keys[a.payloadKey].payload), c)
    else
      (None, HttpErr.Unauthorised(c, "not-found-payload", ErrPayloadNotFound))
  }

  /** `GetToken`: the stored token string, or "". */
  function GetToken(a: Auth, c: Gin.Context): (r: string)
    ensures a.tokenKey in c.keys && c.keys[a.tokenKey].TextValue? ==> r == c.keys[a.tokenKey].text
    ensures !(a.tokenKey in c.keys && c.keys[a.tokenKey].TextValue?) ==> r == ""
  {
    if a.tokenKey in c.keys && c.keys[a.tokenKey].TextValue? then c.keys[a.tokenKey].text else ""
  }

  // ---------------------------------------------------------------- properties

  /** A header of only whitespace is malformed, never missing, and the verifier is not called. */
  lemma WhitespaceHeaderMalformed(a: Auth, verify: Verifier, header: string)
    requires header != [] && Text.AllSpace(header)
    ensures ParseAuthHeader(a, verify, header) == Parsed(Err(AuthError(ErrInvalidAuthHeaderFormat, "invalid-token")), [])
  {
    Text.FieldsEmptyIffAllSpace(header);
  }

  /** The scheme matches in any mix of upper and lower case: a header
      `scheme sep token ...` whose scheme spells "token" hands exactly `token`
      to the verifier, whatever follows it. */
  lemma SchemeAnyCase(verify: Verifier, scheme: string, sep: string, token: string, trailing: string)
    requires |scheme| == 5
    requires forall i :: 0 <= i < 5 ==> scheme[i] == "token"[i] || scheme[i] as int == "token"[i] as int - 32
    requires token != [] && Text.NoSpace(token)
    requires sep != [] && Text.AllSpace(sep)
    requires trailing == [] || Text.IsSpace(trailing[0])
    ensures ParseAuthHeader(NewAuth(), verify, scheme + sep + token + trailing).verified == [token]
    ensures ParseAuthHeader(NewAuth(), verify, scheme + sep + token + trailing).result
         == (if verify(token).Ok? then Ok((verify(token).value, token))
             else Err(AuthError(verify(token).error, "unable-to-verify-jwt")))
  {
    assert Text.NoSpace(scheme) by {
      forall i | 0 <= i < 5 ensures !Text.IsSpace(scheme[i]) {
        assert scheme[i] as int >= 'A' as int;
      }
    }
    Text.TwoFields(scheme, sep, token, trailing);
    Text.LowerMatches(Text.Fields(scheme + sep + token + trailing)[0], "token");
  }

  /** Any other scheme is refused before the verifier runs, and the refusal
      names the scheme in lower case. */
  lemma OtherSchemeRefused(verify: Verifier, scheme: string, sep: string, token: string)
    requires scheme != [] && Text.NoSpace(scheme) && Text.Lower(scheme) != "token"
    requires token != [] && Text.NoSpace(token)
    requires sep != [] && Text.AllSpace(sep)
    ensures ParseAuthHeader(NewAuth(), verify, scheme + sep + token)
         == Parsed(Err(AuthError(Opaque("unsupported authorization type " + Text.Lower(scheme)), "unsupported-token")), [])
  {
    Text.TwoFields(scheme, sep, token, []);
    assert scheme + sep + token + [] == scheme + sep + token;
  }

  /** Whatever made verification fail (an expired token included), the slug is the same. */
  lemma VerifierFailureUniform(a: Auth, verify: Verifier, header: string)
    requires |ParseAuthHeader(a, verify, header).verified| == 1
    requires verify(ParseAuthHeader(a, verify, header).verified[0]).Err?
    ensures ParseAuthHeader(a, verify, header).result.Err?
    ensures ParseAuthHeader(a, verify, header).result.error.slug == "unable-to-verify-jwt"
  {
  }

  /** After a successful `Handle`, `GetPayload` and `GetToken` return what was verified. */
  lemma HandleThenRead(verify: Verifier, c: Gin.Context)
    requires ParseAuthHeader(NewAuth(), verify, Gin.GetHeader(c, NewAuth().headerKey)).result.Ok?
    ensures var v := ParseAuthHeader(NewAuth(), verify, Gin.GetHeader(c, NewAuth().headerKey)).result.value;
      var c' := Handle(NewAuth(), verify, c);
      && GetPayload(NewAuth(), c') == (Some(v.0), c')
      && GetToken(NewAuth(), c') == v.1
      && c'.proceeded && c'.aborted == c.aborted
  {
  }

  /** After a failed `Handle`, the request is aborted with 401 and nothing was stored. */
  lemma HandleFailureStoresNothing(verify: Verifier, c: Gin.Context)
    requires ParseAuthHeader(NewAuth(), verify, Gin.GetHeader(c, NewAuth().headerKey)).result.Err?
    ensures Handle(NewAuth(), verify, c).keys == c.keys
    ensures Handle(NewAuth(), verify, c).aborted.Some?
    ensures Handle(NewAuth(), verify, c).aborted.value.status == 401
  {
  }

  /** End to end: a request carrying `Token <t>` for a token `t` the maker
      created is let through with the payload the token was created from. */
  lemma CreatedTokenPassesGate(maker: Token.JwtMaker, jws: Token.Jws, username: string, duration: Token.Duration,
                               id: Token.Uuid, first: Token.Time, second: Token.Time, now: Token.Time)
    requires Token.WellBehaved(jws)
    requires now <= second + duration
    ensures Token.CreateToken(maker, jws, username, duration, Ok(id), first, second).Ok?
    ensures var t := Token.CreateToken(maker, jws, username, duration, Ok(id), first, second).value;
      var verify: Verifier := tok => Token.VerifyToken(maker, jws, tok, now);
      ParseAuthHeader(NewAuth(), verify, "Token " + t).result
        == Ok((Token.Payload(id, username, first, second + duration), t))
  {
    var t := Token.CreateToken(maker, jws, username, duration, Ok(id), first, second).value;
    Token.CreatedTokenHasNoSpace(maker, jws, username, duration, id, first, second);
    Token.CreateThenVerify(maker, jws, username, duration, id, first, second, now);
    var verify: Verifier := tok => Token.VerifyToken(maker, jws, tok, now);
    SchemeAnyCase(verify, "Token", " ", t, []);
    assert "Token" + " " + t + [] == "Token " + t;
  }
}
