# conduit core in Dafny

A Dafny model of the core of conduit, a Go backend for the RealWorld
("Medium clone") API. The model covers:

- **Password hashing** (`pkg/hash`): argon2id hashes in the
  `$argon2id$v=V$m=M,t=T,p=P$salt$key` layout, and checking a password
  against such a string.
- **Tokens** (`pkg/token`): the JWT maker with its payload, expiry and
  HS256 verification.
- **Auth middleware**: it reads `Authorization: Token <jwt>`, stores the
  verified payload and token in the request context, and answers 401 with a
  slug.
- **HTTP error mapping** (`httperr`, `pkg/errors`): a slug error's category
  chooses the status 401, 400 or 500.
- **User and profile domain services**, over repositories and a hasher given
  as functions.
- **Current-user handlers**: validation of the update request and the choice
  of the token to echo back.
- **Small packages**: the filter tree for squirrel conditions, pagination,
  log levels, the Postgres DSN, and the pool and HTTP-server options.

Go's error values are modelled by `ErrorChain.Error`, a chain of wrappers
ending in a sentinel, an opaque error or a slug error. `Is` and
`AsSlugError` stand for `errors.Is` and `errors.As`. Go's `(T, error)`
returns are `Result` values. `nil`-able pointers and errors are `Option`
values.

Foreign code is passed in as function-valued parameters:

- argon2 `IDKey` and base64 (`Argon2.Primitives`);
- golang-jwt's signing and decoding (`Token.Jws`);
- repositories, services and the token verifier;
- `crypto/rand`, `uuid.NewRandom` and `time.Now()`, whose outcomes are
  plain inputs.

What the round-trip lemmas assume of these primitives is stated once, as a
ghost predicate `WellBehaved`:

- base64 decoding inverts encoding;
- the KDF returns the requested length;
- a signed token decodes to what was signed.

The lemmas take `WellBehaved` as a precondition.

The parts of the Go standard library the core depends on are modelled in
`Text` and `Fmt`, which have no counterpart in the repository:

- `strings.Split`, `strings.Fields`, `unicode.IsSpace` and
  `strings.ToLower`;
- `fmt.Sscanf` with `%d`, and decimal formatting.

Behaviours worth knowing, each proved below:

- `Check` reads its costs from the stored hash. It never uses the settings
  of the hasher that performs the check, so a hash verifies under any hasher.
- The middleware accepts the scheme in any letter case. When the scheme is
  wrong, the refusal message carries the lower-cased scheme.
- `GetWithFollow` answers with the *viewer's own* profile when the viewer
  does not follow the requested user. The repository's tests expect exactly
  this.
- An update request that carries only a token is refused with 500
  `internal-server-error`. The refusal is a plain error, not a slug error.
- `NewList` compares the length with `limit+1` in uint64 arithmetic.
- `WithMaxHeaderBytes` multiplies in 64-bit `int` arithmetic, so any count
  of 2^43 MiB or more, or below -2^43 MiB, wraps.
- The DSN is spliced without escaping, so an `@` in the password can make
  two configurations share one DSN.

Where the source is internally inconsistent, the model follows the code that
runs:

- The handlers read `payload.Email`, but `pkg/token/payload.go` declares
  `Username`. The model has one subject field, `username`, and the handlers
  look users up by it.
- The profile service reads `profile.ID`, but
  `internal/domain/profile/entity.go` declares no such field. The model's
  `Profile` has an `id`.
- The declaration of `profile.ErrNotFound` is not part of this model, so its
  text is a placeholder.

## Model

| member | source | states |
|---|---|---|
| SlugErrors.NewSlugError | pkg/errors/errors.go:40-47 | the error keeps its message and slug and has the unknown category |
| SlugErrors.NewAuthorizationError | pkg/errors/errors.go:49-56 | the error keeps its message and slug and has the authorization category |
| SlugErrors.NewIncorrectInputError | pkg/errors/errors.go:58-65 | the error keeps its message and slug and has the incorrect-input category |
| SlugErrors.CategoriesDistinct | pkg/errors/errors.go:9-16 | the three categories are pairwise different, so each constructor's errors are told apart |
| ErrorChain.AsSlugError | internal/controller/http/httperr/httperr.go:31-32 | finds a slug error exactly when one is on the wrap chain, and the one it finds is on the chain |
| Text.Split | pkg/hash/argon2.go:116 | splitting gives at least one piece, no piece holds the separator, and joining the pieces gives back the input |
| Text.SplitAlone | pkg/hash/argon2.go:116 | a separator-free string splits into itself alone |
| Text.SplitWord | pkg/hash/argon2.go:116 | a separator-free word followed by the separator splits off as exactly one piece |
| Text.SplitJoin | pkg/hash/argon2.go:116 | joining separator-free pieces and splitting again gives back the pieces |
| Text.Fields | internal/controller/http/middleware/auth.go:106 | every field is non-empty and contains no white space |
| Text.FieldsEmptyIffAllSpace | internal/controller/http/middleware/auth.go:102-109 | a string has no fields exactly when it is all white space |
| Text.FieldsSkipSpace | internal/controller/http/middleware/auth.go:106 | leading white space does not change the fields |
| Text.FieldsWord | internal/controller/http/middleware/auth.go:106 | a word followed by white space becomes the first field, ahead of the rest's fields |
| Text.TwoFields | internal/controller/http/middleware/auth.go:106-119 | for `scheme`, white space and `token`, followed by nothing or by white space and any text, the first two fields are `scheme` and `token` |
| Text.WordLength | internal/controller/http/middleware/auth.go:106 | the length of the leading run of non-space characters, which is all non-space |
| Text.WordLengthOf | internal/controller/http/middleware/auth.go:106 | a space-free word followed by space or end has exactly its own length as leading word |
| Text.Lower | internal/controller/http/middleware/auth.go:111 | lower-casing keeps the length and maps each character on its own |
| Text.LowerCharMatches | internal/controller/http/middleware/auth.go:111-112 | a character lower-cases to a lower-case letter exactly when it is that letter in either case |
| Text.LowerMatches | internal/controller/http/middleware/auth.go:111-112 | a string lower-cases to a lower-case word exactly when it spells that word in any mix of cases |
| Fmt.DigitChar | pkg/hash/argon2.go:103-108 | the character is a digit whose value is the given digit |
| Fmt.Decimal | pkg/hash/argon2.go:103-108 | `%d` output is non-empty, all digits, and has no leading zero |
| Fmt.DecimalValue | pkg/hash/argon2.go:103-118 | reading the digits of `%d` back gives the number written |
| Fmt.DigitRun | pkg/hash/argon2.go:118 | the length of the longest leading run of digits |
| Fmt.DigitRunOf | pkg/hash/argon2.go:118 | digits followed by a non-digit or end form a run of exactly their length |
| Fmt.SkipSpace | pkg/hash/argon2.go:118 | skipping stops at the first non-space and fails exactly when a newline comes before it |
| Fmt.SkipSpaceNone | pkg/hash/argon2.go:118 | spaces followed by a newline are the one way skipping fails |
| Fmt.ScanUint | pkg/hash/argon2.go:118 | the input read is blanks without a newline, then the whole leading run of digits; the number is that run's decimal value (leading zeros allowed) and is below the width limit; the unread rest is what follows the digits |
| Fmt.ScanLiteral | pkg/hash/argon2.go:118 | a format literal matches exactly when the input starts with it, and the rest follows it |
| Fmt.ScanLiteralOf | pkg/hash/argon2.go:118 | a literal followed by any text is matched and leaves that text |
| Fmt.ScanDecimal | pkg/hash/argon2.go:103-118 | scanning `%d` output back yields the number and leaves the text after it, when it fits the width |
| Argon2.Apply | pkg/hash/argon2.go:40-73 | each option sets its own parameter and leaves the others unchanged |
| Argon2.ApplyAllSnoc | pkg/hash/argon2.go:87-89 | applying options one more at the end is applying that option to the previous result |
| Argon2.ApplyAllLastWins | pkg/hash/argon2.go:87-89 | after a list of options, each parameter holds the last value given for it, or its start value |
| Argon2.NewArgon2Hasher | pkg/hash/argon2.go:76-92 | each parameter is the last option given for it, else the default 1 / 65536 / 4 / 32 / 32, and the version is 19 |
| Argon2.Hash | pkg/hash/argon2.go:95-112 | a failed random read fails with that error wrapped; otherwise the result starts `$argon2id$v=` |
| Argon2.ReadStored | pkg/hash/argon2.go:115-131 | reading fails exactly when the cost segment, the salt or the key does not decode, and its errors are wrapped, never the wrong-password error |
| Argon2.Check | pkg/hash/argon2.go:115-140 | nil exactly when the stored hash decodes and the recomputed key equals it; the wrong-password error exactly when it decodes and the keys differ |
| Argon2.DigitsHaveNoDollar | pkg/hash/argon2.go:103-108 | decimal numbers contain no `$` |
| Argon2.SplitTail | pkg/hash/argon2.go:103-116 | costs, salt and key joined by `$` split back into those three parts |
| Argon2.EncodedSplit | pkg/hash/argon2.go:103-116 | splitting an encoded hash on `$` gives its six parts, the first one empty |
| Argon2.ScanStep | pkg/hash/argon2.go:118 | a `lit%d` step fails when the input does not start with the literal, and a number it reads fits the target width |
| Argon2.ScanParams | pkg/hash/argon2.go:118-121 | the cost segment reads only if it starts with `m=`; memory, time and threads are the numbers after `m=`, `,t=` and `,p=`, each within its width |
| Argon2.ScanField | pkg/hash/argon2.go:103-118 | a literal followed by a printed number that fits reads back that number and leaves the text after it |
| Argon2.ScanParamsSegment | pkg/hash/argon2.go:103-118 | scanning the written cost segment gives back memory, time and threads |
| Argon2.HashLayout | pkg/hash/argon2.go:95-112 | a hash has six parts: empty, `argon2id`, the version, the costs, the encoded salt, and the encoded key |
| Argon2.ReadBackHash | pkg/hash/argon2.go:95-131 | what `Check` reads from a fresh hash is the salt, costs and key that built it |
| Argon2.HashThenCheck | pkg/hash/argon2.go:95-140 | a password passes `Check` against its own hash, whatever the checking hasher's settings |
| Argon2.CheckOtherPassword | pkg/hash/argon2.go:133-139 | a password deriving a different key is refused with the wrong-password error |
| Argon2.DifferentSaltsDifferentHashes | pkg/hash/argon2.go:96-111 | hashes made with different salts are different strings |
| Argon2.CheckIgnoresHeader | pkg/hash/argon2.go:116-133 | `Check` depends only on parts 3 to 5 of the hash |
| Token.NewPayload | pkg/token/payload.go:29-43 | a failed id draw fails with that error wrapped; otherwise the id and name are kept, issue time is the first clock reading, expiry is the second plus the duration |
| Token.Valid | pkg/token/payload.go:46-52 | the payload is expired exactly when the clock is strictly past its expiry, and then the error is the expired one |
| Token.PayloadLifetime | pkg/token/payload.go:35-40 | with a clock that does not run backwards, a fresh payload is still valid a full duration after issue |
| Token.ExpiryIsPermanent | pkg/token/payload.go:46-52 | once expired, a payload stays expired at every later time |
| Token.NegativeDurationExpired | pkg/token/payload.go:39-47 | a payload made with a negative duration is expired from the second reading on |
| Token.Utf8Length | pkg/token/jwt_maker.go:23 | the UTF-8 length lies between the character count and four times it |
| Token.NewJwtMaker | pkg/token/jwt_maker.go:22-28 | a key is refused, with the key-size error, exactly when it is shorter than 32 bytes; otherwise it is kept |
| Token.KeySizeByCharacters | pkg/token/jwt_maker.go:23 | 32 characters always suffice; fewer than 8 never do |
| Token.CreateToken | pkg/token/jwt_maker.go:31-45 | token creation fails only when drawing the payload id fails, with that error wrapped |
| Token.KeyFor | pkg/token/jwt_maker.go:49-56 | the key function answers the secret exactly for HMAC methods, and the invalid-token error otherwise |
| Token.ParseWithClaims | pkg/token/jwt_maker.go:49-58 | a malformed token fails with no cause; a non-HMAC method fails with the invalid error; a signature mismatch fails with the signature error; it succeeds exactly for authentic HMAC tokens not past expiry, with the decoded claims |
| Token.Classify | pkg/token/jwt_maker.go:58-73 | a parse failure is the expired error exactly when the expired error is its cause, and otherwise the invalid error; success passes the claims through |
| Token.VerifyToken | pkg/token/jwt_maker.go:48-74 | every failure is the expired or the invalid error; success gives the decoded claims, which are not past expiry |
| Token.NonHmacRejected | pkg/token/jwt_maker.go:49-66 | a token signed with a non-HMAC method, `none` included, is invalid |
| Token.BadSignatureRejected | pkg/token/jwt_maker.go:58-66 | a token whose signature does not match is invalid, even when it is also expired |
| Token.ExpiredMeansAuthentic | pkg/token/jwt_maker.go:48-73 | "expired" is reported exactly for authentic HMAC tokens past expiry; success exactly for authentic HMAC tokens not past it |
| Token.CreateThenVerify | pkg/token/jwt_maker.go:31-73 | a created token verifies, until it expires, to the payload it was made from |
| Token.NegativeDurationTokenExpired | pkg/token/jwt_maker.go:31-66 | a token created with a negative duration verifies to the expired error, never to the invalid one |
| Token.CreatedTokenHasNoSpace | pkg/token/jwt_maker.go:37-39 | a created token is non-empty and has no white space, so it fits in one header field |
| HttpErr.RespondWithError | internal/controller/http/httperr/httperr.go:58-65 | the request is aborted with the status and a body holding just the slug; stored keys are untouched |
| HttpErr.InternalError | internal/controller/http/httperr/httperr.go:14-17 | aborts with 500 and the given slug; stored keys are untouched |
| HttpErr.Unauthorised | internal/controller/http/httperr/httperr.go:19-22 | aborts with 401 and the given slug; stored keys are untouched |
| HttpErr.BadRequest | internal/controller/http/httperr/httperr.go:24-27 | aborts with 400 and the given slug; stored keys are untouched |
| HttpErr.Classify | internal/controller/http/httperr/httperr.go:30-46 | 401 exactly for authorization slug errors, 400 exactly for incorrect-input ones, 500 otherwise; a non-slug error gets slug `internal-server-error` |
| HttpErr.RespondWithSlugError | internal/controller/http/httperr/httperr.go:30-46 | the response carries the status and slug of the first slug error on the chain |
| HttpErr.ConstructorStatuses | internal/controller/http/httperr/httperr.go:30-46 | authorization errors give 401, incorrect-input ones 400 and plain slug errors 500, each with its own slug; a wrapped authorization error still gives 401 |
| Auth.NewAuth | internal/controller/http/middleware/auth.go:35-43 | header `Authorization`, scheme `token`, keys `authorization_payload` and `authorization_token` |
| Auth.ParseAuthHeader | internal/controller/http/middleware/auth.go:98-127 | empty header gives `empty-token`; fewer than two fields give `invalid-token`; another scheme gives `unsupported-token`; otherwise the second field is verified once, and its failure gives `unable-to-verify-jwt` |
| Auth.Handle | internal/controller/http/middleware/auth.go:58-68 | on failure: 401 with the slug, nothing stored, not continued; on success: token and payload stored, then continued |
| Auth.GetPayload | internal/controller/http/middleware/auth.go:71-83 | answers the stored payload exactly when one is stored; otherwise answers nil after a 401 `not-found-payload` |
| Auth.GetToken | internal/controller/http/middleware/auth.go:86-96 | the stored token string, or "" when none is stored |
| Auth.WhitespaceHeaderMalformed | internal/controller/http/middleware/auth.go:101-109 | a header of only white space is malformed (`invalid-token`), not missing, and nothing is verified |
| Auth.SchemeAnyCase | internal/controller/http/middleware/auth.go:106-121 | any mix of cases in `Token` is accepted, and exactly the token that follows is verified |
| Auth.OtherSchemeRefused | internal/controller/http/middleware/auth.go:111-117 | another scheme is refused naming the lower-cased scheme, and nothing is verified |
| Auth.VerifierFailureUniform | internal/controller/http/middleware/auth.go:121-124 | every verifier failure gives the same slug, whatever the error |
| Auth.HandleThenRead | internal/controller/http/middleware/auth.go:58-96 | after a successful pass, reading the payload and token returns what was verified |
| Auth.HandleFailureStoresNothing | internal/controller/http/middleware/auth.go:58-63 | after a failed pass, nothing is stored and the request is answered 401 |
| Auth.CreatedTokenPassesGate | internal/controller/http/middleware/auth.go:98-127 | a header `Token <t>` with a token the maker created passes with the original payload |
| Filter.New | pkg/filter/filter.go:62-71 | keeps column, type and value, with operator And and no children |
| Filter.SetOperator | pkg/filter/filter.go:73-78 | changes the operator and nothing else |
| Filter.WithFilters | pkg/filter/filter.go:80-85 | the new children follow the old ones in order, and nothing else changes |
| Filter.ComparisonOfTypes | pkg/filter/filter.go:87-112 | the ten types map one-to-one onto the ten comparisons, and any other type falls back to Eq |
| Filter.Condition | pkg/filter/filter.go:87-112 | one comparison on the filter's own column and value, chosen by its type |
| Filter.GetConditions | pkg/filter/filter.go:114-132 | a childless filter is its own comparison; with children it is Or exactly when the operator is Or and And otherwise, over its own comparison followed by the children's conditions |
| Filter.ChildConditions | pkg/filter/filter.go:121-125 | one condition per child, the i-th being the i-th child's own conditions |
| Filter.LeavesMatchNodes | pkg/filter/filter.go:114-132 | the condition tree holds exactly one comparison per filter node |
| Filter.LeavesMatchNodesAll | pkg/filter/filter.go:121-125 | the children's conditions hold one comparison per node of the children |
| Filter.BuiltTree | pkg/filter/filter.go:114-132 | with children, the condition is Or of the own comparison and the children's conditions exactly when the operator is Or, and And otherwise |
| Filter.UseSelectBuilder | pkg/filter/filter.go:134-137 | adds one WHERE clause, after the existing ones, holding one comparison per filter node |
| Filter.AndOf | pkg/filter/filter.go:139-147 | the conjunction holds the conditions in their order |
| Filter.OrOf | pkg/filter/filter.go:149-157 | the disjunction holds the conditions in their order |
| Pagination.NewList | pkg/pagination/pagination.go:24-36 | more pages exist exactly when the length equals `limit+1` modulo 2^64; the result is a prefix, one shorter when there are more |
| Pagination.NewListPages | pkg/pagination/pagination.go:24-36 | below the largest limit: more pages exactly when limit+1 rows came, and then the last row is dropped; at most limit+1 rows give at most limit |
| Pagination.LimitsNotEnforced | pkg/pagination/pagination.go:4-9 | a limit above the maximum is applied as given |
| Profile.GetBio | internal/domain/profile/entity.go:16-23 | the bio, or "" when it is missing |
| Profile.GetImage | internal/domain/profile/entity.go:25-32 | the image, or "" when it is missing |
| Profile.GetByUsername | internal/domain/profile/service.go:35-42 | one lookup; its result is passed through, and a failure stays recognisable through the wrapping |
| Profile.GetByEmail | internal/domain/profile/service.go:45-52 | one lookup by email; its result is passed through, and a failure stays recognisable through the wrapping |
| Profile.GetWithFollow | internal/domain/profile/service.go:55-71 | the followee comes first, and its lookup failure stays recognisable through the wrapping; then the follow check; a not-found check falls back to a lookup by email; other failures wrap the cause |
| Profile.Participants | internal/domain/profile/service.go:75-83 | the followee is looked up by name, then the follower by email, stopping at the first failure |
| Profile.Follow | internal/domain/profile/service.go:74-92 | succeeds exactly when both lookups and the follow succeed, with the follower marked as following; no follow call without both profiles |
| Profile.Unfollow | internal/domain/profile/service.go:95-113 | succeeds exactly when both lookups and the unfollow succeed, with the follower marked as not following; no unfollow call without both profiles |
| Profile.NotFollowingAnswersViewer | internal/domain/profile/service.go:61-66 | a viewer who does not follow the user gets back their own profile |
| Profile.FollowUnfollowAgree | internal/domain/profile/service.go:74-113 | follow and unfollow answer the same follower profile, differing only in `following` |
| User.GetBio | internal/domain/user/entity.go:26-32 | the bio, or "" when it is missing |
| User.GetImage | internal/domain/user/entity.go:34-40 | the image, or "" when it is missing |
| User.NewRecord | internal/domain/user/service.go:43-49 | the stored record keeps email and username, holds the hash instead of the password, and has equal timestamps |
| User.CreateUser | internal/domain/user/service.go:36-57 | a hashing failure makes no repository call; otherwise exactly one create call with the new record, whose outcome is returned (failures wrapped) |
| User.GetByEmail | internal/domain/user/service.go:60-67 | one lookup, succeeding exactly when the repository's does, with failures wrapped |
| User.RegisteredPasswordChecks | internal/domain/user/service.go:36-57 | with the argon2 hasher, the stored password hash accepts the password that was registered |
| UserHandler.Validate | internal/controller/http/handler/user.go:209-227 | accepted exactly when username, email, bio or image is present; otherwise the at-least-one-field error |
| UserHandler.EmptyFieldCounts | internal/controller/http/handler/user.go:210-224 | an empty value counts as provided |
| UserHandler.UpdateDtoOf | internal/controller/http/handler/user.go:248-253 | the four fields pass to the service unchanged |
| UserHandler.EchoedToken | internal/controller/http/handler/user.go:259-262 | the request's token if it sent one, else the token the middleware stored |
| UserHandler.ResponseOf | internal/controller/http/handler/user.go:264-272 | the response shows the user's email, name, bio and image (missing ones as "") and the chosen token |
| UserHandler.GetCurrentUser | internal/controller/http/handler/user.go:168-189 | stops at once without a payload; otherwise one lookup of the subject, answered 200 with the stored token, or the service error mapped |
| UserHandler.UpdateCurrentUser | internal/controller/http/handler/user.go:229-273 | stops without a payload; a bind failure gives 400 `invalid-request`; an invalid request makes no service call; otherwise one update, answered 200 with the chosen token |
| UserHandler.TokenOnlyRequestRefused | internal/controller/http/handler/user.go:241-246 | a request with only a token makes no service call and is answered 500 `internal-server-error` |
| UserHandler.AuthenticatedLookup | internal/controller/http/handler/user.go:168-188 | behind a successful middleware pass, the verified subject is looked up and the header's token is echoed |
| Logger.NewLevel | pkg/logger/level.go:14-16 | the name is stored unchanged |
| Logger.ZapLevel | pkg/logger/level.go:19-38 | an accepted name gives a zap level between debug (-1) and fatal (5) |
| Logger.ZapLevelNames | pkg/logger/level.go:19-38 | a name gives a level exactly when it is that level's name, so the seven names give seven distinct levels |
| Logger.ZapLevelDefined | pkg/logger/level.go:19-38 | a name is accepted exactly when it is one of the seven level names; any other one is the panic case |
| Logger.CapitalisedRejected | pkg/logger/level.go:20-36 | matching is case-sensitive: `Info` is not accepted |
| Logger.Apply | pkg/logger/level.go:44-48 | the option replaces the level name |
| Logger.LastLevelWins | pkg/logger/level.go:40-48 | after a list of options the level is the last one given, or unchanged when none is given |
| Postgres.NewConnectionConfig | pkg/postgres/config.go:19-28 | the six settings are stored unchanged |
| Postgres.GetDsn | pkg/postgres/config.go:30-40 | the DSN starts with `postgres://`, ends with `?sslmode=` and the mode, and has exactly the fields' length plus the fixed text |
| Postgres.CutAt | pkg/postgres/config.go:30-40 | cutting at the first separator gives a separator-free part before it and the rest after it |
| Postgres.CutAtOf | pkg/postgres/config.go:30-40 | a separator-free prefix followed by the separator is cut off exactly |
| Postgres.DsnRoundTrip | pkg/postgres/config.go:30-40 | when no field holds the separator that ends it, the settings can be read back from the DSN |
| Postgres.DsnAmbiguous | pkg/postgres/config.go:31-39 | fields are not escaped: two different settings with `@` in the password or the host give the same DSN |
| Postgres.Apply | pkg/postgres/config.go:45-64 | each pool option sets its own field only |
| Postgres.Configure | pkg/postgres/postgres.go:35-43 | with no options, the pool settings are the defaults 1, 10 and one second |
| Postgres.OptionsCommute | pkg/postgres/config.go:45-64 | options for different fields commute; for the same field the later one wins |
| HttpServer.Wrap | pkg/httpserver/options.go:23-28 | the wrapped value is in 64-bit range and congruent to the exact one modulo 2^64 |
| HttpServer.Apply | pkg/httpserver/options.go:9-50 | each option sets only its own field; the header limit is the MiB count times 1048576 wrapped to 64 bits, which equals the exact product exactly when the count lies in -2^43 .. 2^43-1 |
| HttpServer.ApplyIdempotent | pkg/httpserver/options.go:9-50 | applying an option twice is applying it once |
| HttpServer.OptionsCommute | pkg/httpserver/options.go:9-50 | options for different fields commute; for the same field the later one wins |
| HttpServer.MaxHeaderBytesRange | pkg/httpserver/options.go:23-28 | 2^43-1 MiB converts exactly; 2^43 MiB wraps to the most negative `int` |

## Left out

- Logging (zap calls in the handlers, the middleware and httperr) has no effect on results and is not modelled.
- Request binding: gin's JSON binding and its `binding:` tags (email, alphanum, url, max=1024) are the `bind` input of `UserHandler.UpdateCurrentUser`.
- `createUser` and `loginUser` in internal/controller/http/handler/user.go, and the route wiring, are not modelled. `Login` and `UpdateByEmail` are not defined in internal/domain/user/service.go.
- `OptionalHandle` is referenced by the profile routes but not defined in the middleware, so it is not part of this model.
- Token.CreateToken: the signing failure branch is not modelled. HMAC signing with a byte-slice key cannot fail, so the result is `Ok` whenever the payload is.
- Token.ParseWithClaims: the order "decode, key lookup, claims validation, then the signature, whose failure replaces the claims error" follows golang-jwt v4. That library is not part of this model, and base64/JSON decoding of the token is the `decode` function.
- Token.VerifyToken: the `Claims.(*Payload)` assertion cannot fail for claims parsed into a `*Payload`, so that branch is left out.
- Argon2.Check: a stored hash with fewer than six `$`-separated parts makes the Go code index out of range (a panic). The model requires six parts.
- Argon2.Hash: the argon2 library panics for time or threads below 1, and for a key length of 0 (blake2b refuses an empty digest). The KDF is an input function here, so these panics are not modelled.
- Argon2.Check: a stored hash whose costs have `t=0` or `p=0`, or whose key part is empty, makes `argon2.IDKey` panic in Go. The model answers instead; for an empty key part it recomputes an empty key, so every password is accepted.
- Argon2.Hash: the salt's length is the hasher's `saltLen` whenever reading the random source succeeds; a short read is not modelled because `rand.Read` returns an error for it.
- Text.Lower, Text.LowerCharMatches, Text.LowerMatches, Auth.ParseAuthHeader, Auth.OtherSchemeRefused: letters are lowered in the ASCII range only. Go's Unicode lower-casing of other letters (for example the Kelvin sign to `k`) is not modelled, so a few non-ASCII spellings of the scheme accepted by Go are refused here.
- Filter.WithFilters: Go's value receiver appends to a slice that may share its backing array with the original filter, so two appends to the same filter with spare capacity overwrite each other's children. The model treats filters as values, and its "nothing else changes" holds only without that aliasing.
- Pagination.NewList: the one input that panics in Go (the largest uint64 limit with an empty list) is excluded by its precondition.
- Postgres.Configure: states only the defaults; the effect of the options is stated by `Postgres.Apply` and `Postgres.OptionsCommute`.
- The Postgres connection loop (retries with `time.Sleep`, pool creation), the SQL repositories and the squirrel builder are I/O and not modelled; `Filter.UseSelectBuilder` keeps only the WHERE clauses.
- The default values of the HTTP server (its constructor is not part of this model) and the server lifecycle are left out.
- `Gin.GetHeader` is an exact lookup of one value per header name; net/http's canonicalisation of header names and its choice of the first of repeated values are not modelled.
- `ErrorChain.Sentinel` errors are identified by their text, while Go compares the pointers of `errors.New` values; no two sentinels in the model share a text.
- `time.Time` is an integer instant and `time.Duration` an integer; overflow of `time.Now().Add(duration)` is not modelled.
- Zero values returned beside an error (`User{}`, `Profile{}`, `""`) are not modelled: an `Err` result carries no value.
