/** internal/controller/http/handler/user.go: the two current-user handlers
    behind the auth middleware. Request binding is the `bind` input (gin's
    JSON binding and its validation tags are not modelled); the user service
    is a record of functions, and each reply lists the service calls made. */
module UserHandler {
  import opened Wrappers
  import opened ErrorChain
  import Gin
  import HttpErr
  import Auth
  import User

  const ErrAtLeastOneFieldRequired := Sentinel("at least one field in update current user request must be provided")

  const StatusOK := 200

  /** The `user` object of `updateCurrentUserRequest`; `None` is a field absent from the JSON. */
  datatype UpdateRequest = UpdateRequest(
    username: Option<string>, email: Option<string>, token: Option<string>,
    bio: Option<string>, image: Option<string>)

  /** The `user` object every current-user response carries. */
  datatype UserResponse = UserResponse(email: string, username: string, bio: string, image: string, token: string)

  /** The handler's `UserService`, as far as these handlers use it. */
  datatype UserService = UserService(
    getByEmail: string -> Result<User.User, Error>,
    updateByEmail: (string, User.UpdateDto) -> Result<User.User, Error>)

  datatype ServiceCall = GetByEmailCall(email: string) | UpdateByEmailCall(email: string, dto: User.UpdateDto)

  /** The context after the handler (holding any error response), the
      successful JSON body if one was written, and the service calls made. */
  datatype Reply = Reply(context: Gin.Context, ok: Option<(int, UserResponse)>, calls: seq<ServiceCall>)

  /** `validate`: accepted when any of username, email, bio or image is
      present, whatever its value; the token alone does not count. */
  function Validate(req: UpdateRequest): (r: Option<Error>)
    ensures r.None? <==> req.username.Some? || req.email.Some? || req.bio.Some? || req.image.Some?
    ensures r.Some? ==> r.value == ErrAtLeastOneFieldRequired
  {
    if req.username.Some? then None
    else if req.email.Some? then None
    else if req.bio.Some? then None
    else if req.image.Some? then None
    else Some(ErrAtLeastOneFieldRequired)
  }

  /** The update handed to the service: the four fields as requested, and a zero timestamp. */
  function UpdateDtoOf(req: UpdateRequest): (d: User.UpdateDto)
    ensures d.username == req.username && d.email == req.email
    ensures d.bio == req.bio && d.image == req.image && d.updatedAt == 0
  {
    User.UpdateDto(req.username, req.email, req.bio, req.image, 0)
  }

  /** The token echoed by `updateCurrentUser`: the request's own, if it sent
      one, else the one the middleware stored. */
  function EchoedToken(a: Auth.Auth, c: Gin.Context, req: UpdateRequest): (t: string)
    ensures req.token.Some? ==> t == req.token.value
    ensures req.token.None? ==> t == Auth.GetToken(a, c)
  {
    match req.token
    case Some(t) => t
    case None => Auth.GetToken(a, c)
  }

  function ResponseOf(u: User.User, token: string): (r: UserResponse)
    ensures r.email == u.email && r.username == u.username && r.token == token
    ensures r.bio == User.GetBio(u) && r.image == User.GetImage(u)
  {
    UserResponse(u.email, u.username, User.GetBio(u), User.GetImage(u), token)
  }

  /** `getCurrentUser`: without a stored payload it stops after `GetPayload`'s
      401; otherwise one lookup of the token's subject, answered 200 with the
      stored token, or the service error through `RespondWithSlugError`. */
  function GetCurrentUser(a: Auth.Auth, svc: UserService, c: Gin.Context): (r: Reply)
    ensures Auth.GetPayload(a, c).0.None? ==> r == Reply(Auth.GetPayload(a, c).1, None, [])
    ensures Auth.GetPayload(a, c).0.Some? ==>
      var subject := Auth.GetPayload(a, c).0.value.username;
      && r.calls == [GetByEmailCall(subject)]
      && (svc.getByEmail(subject).Ok? ==>
            r == Reply(c, Some((StatusOK, ResponseOf(svc.getByEmail(subject).value, Auth.GetToken(a, c)))), r.calls))
      && (svc.getByEmail(subject).Err? ==>
            r.ok.None? && r.context == HttpErr.RespondWithSlugError(c, svc.getByEmail(subject).error))
  {
    var (payload, c1) := Auth.GetPayload(a, c);
    match payload
    case None => Reply(c1, None, [])
    case Some(p) =>
      var calls := [GetByEmailCall(p.username)];
      match svc.getByEmail(p.username)
      case Err(e) => Reply(HttpErr.RespondWithSlugError(c1, e), None, calls)
      case Ok(u) => Reply(c1, Some((StatusOK, ResponseOf(u, Auth.GetToken(a, c1)))), calls)
  }

  /** `updateCurrentUser`: stops without a payload; answers 400
      "invalid-request" when the body does not bind; refuses a request that
      fails `Validate` before any service call; otherwise one update of the
      token's subject, echoing `EchoedToken`. */
  function UpdateCurrentUser(a: Auth.Auth, svc: UserService, c: Gin.Context, bind: Result<UpdateRequest, Error>): (r: Reply)
    ensures Auth.GetPayload(a, c).0.None? ==> r == Reply(Auth.GetPayload(a, c).1, None, [])
    ensures Auth.GetPayload(a, c).0.Some? && bind.Err? ==>
      r == Reply(HttpErr.BadRequest(c, "invalid-request", bind.error), None, [])
    ensures Auth.GetPayload(a, c).0.Some? && bind.Ok? && Validate(bind.value).Some? ==>
      r == Reply(HttpErr.RespondWithSlugError(c, ErrAtLeastOneFieldRequired), None, [])
    ensures Auth.GetPayload(a, c).0.Some? && bind.Ok? && Validate(bind.value).None? ==>
      var subject := Auth.GetPayload(a, c).0.value.username;
      var result := svc.updateByEmail(subject, UpdateDtoOf(bind.value));
      && r.calls == [UpdateByEmailCall(subject, UpdateDtoOf(bind.value))]
      && (result.Ok? ==> r == Reply(c, Some((StatusOK, ResponseOf(result.value, EchoedToken(a, c, bind.value)))), r.calls))
      && (result.Err? ==> r.ok.None? && r.context == HttpErr.RespondWithSlugError(c, result.error))
  {
    var (payload, c1) := Auth.GetPayload(a, c);
    match payload
    case None => Reply(c1, None, [])
    case Some(p) =>
      match bind
      case Err(e) => Reply(HttpErr.BadRequest(c1, "invalid-request", e), None, [])
      case Ok(req) =>
        match Validate(req)
        case Some(e) => Reply(HttpErr.RespondWithSlugError(c1, e), None, [])
        case None =>
          var dto := UpdateDtoOf(req);
          var calls := [UpdateByEmailCall(p.username, dto)];
          match svc.updateByEmail(p.username, dto)
          case Err(e) => Reply(HttpErr.RespondWithSlugError(c1, e), None, calls)
          case Ok(u) => Reply(c1, Some((StatusOK, ResponseOf(u, EchoedToken(a, c1, req)))), calls)
  }

  /** A request carrying only a token is refused without reaching the
      service; the refusal is not a slug error, so it goes out as 500
      "internal-server-error". */
  lemma TokenOnlyRequestRefused(a: Auth.Auth, svc: UserService, c: Gin.Context, token: Option<string>)
    requires Auth.GetPayload(a, c).0.Some?
    ensures var r := UpdateCurrentUser(a, svc, c, Ok(UpdateRequest(None, None, token, None, None)));
      && r.calls == [] && r.ok.None?
      && r.context.aborted == Some(Gin.Response(HttpErr.StatusInternalServerError,
                                                Gin.ErrorResponse(Gin.Errors(["internal-server-error"]))))
  {
  }

  /** Only presence counts: an empty value is a provided field. */
  lemma EmptyFieldCounts(req: UpdateRequest)
    requires req.username == Some("")
    ensures Validate(req).None?
  {
  }

  /** Behind a successful middleware pass, `getCurrentUser` looks up exactly
      the verified subject and echoes the token the header carried. */
  lemma AuthenticatedLookup(verify: Auth.Verifier, svc: UserService, c: Gin.Context)
    requires Auth.ParseAuthHeader(Auth.NewAuth(), verify, Gin.GetHeader(c, Auth.NewAuth().headerKey)).result.Ok?
    ensures var v := Auth.ParseAuthHeader(Auth.NewAuth(), verify, Gin.GetHeader(c, Auth.NewAuth().headerKey)).result.value;
      var r := GetCurrentUser(Auth.NewAuth(), svc, Auth.Handle(Auth.NewAuth(), verify, c));
      && r.calls == [GetByEmailCall(v.0.username)]
      && (svc.getByEmail(v.0.username).Ok? ==> r.ok.Some? && r.ok.value.1.token == v.1)
  {
    Auth.HandleThenRead(verify, c);
  }
}
