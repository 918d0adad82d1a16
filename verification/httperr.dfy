/** internal/controller/http/httperr: every failure becomes an aborted request
    with a status code and the JSON envelope holding a single slug. */
module HttpErr {
  import opened Wrappers
  import opened ErrorChain
  import opened SlugErrors
  import Gin

  const StatusBadRequest := 400
  const StatusUnauthorized := 401
  const StatusInternalServerError := 500

  /** `httpRespondWithError`: abort with `status` and `{"errors": {"body": [slug]}}`.
      The log line it writes is not modelled. */
  function RespondWithError(c: Gin.Context, err: Error, slug: string, status: int): (r: Gin.Context)
    ensures r.aborted == Some(Gin.Response(status, Gin.ErrorResponse(Gin.Errors([slug]))))
    ensures r.keys == c.keys && r.headers == c.headers && r.proceeded == c.proceeded
  {
    Gin.AbortWithStatusJson(c, status, Gin.ErrorResponse(Gin.Errors([slug])))
  }

  /** The three status helpers: 500, 401 and 400 with the given slug. */
  function InternalError(c: Gin.Context, slug: string, err: Error): (r: Gin.Context)
    ensures r.aborted.Some? && r.aborted.value.status == StatusInternalServerError
    ensures r.aborted.value.json.errors.body == [slug]
    ensures r.keys == c.keys && r.proceeded == c.proceeded
  {
    RespondWithError(c, err, slug, StatusInternalServerError)
  }

  function Unauthorised(c: Gin.Context, slug: string, err: Error): (r: Gin.Context)
    ensures r.aborted.Some? && r.aborted.value.status == StatusUnauthorized
    ensures r.aborted.value.json.errors.body == [slug]
    ensures r.keys == c.keys && r.proceeded == c.proceeded
  {
    RespondWithError(c, err, slug, StatusUnauthorized)
  }

  function BadRequest(c: Gin.Context, slug: string, err: Error): (r: Gin.Context)
    ensures r.aborted.Some? && r.aborted.value.status == StatusBadRequest
    ensures r.aborted.value.json.errors.body == [slug]
    ensures r.keys == c.keys && r.proceeded == c.proceeded
  {
    RespondWithError(c, err, slug, StatusBadRequest)
  }

  /** The status and slug `RespondWithSlugError` reports for `err`. */
  function Classify(err: Error): (r: (int, string))
    ensures AsSlugError(err).None? ==> r == (StatusInternalServerError, "internal-server-error")
    ensures AsSlugError(err).Some? ==> r.1 == AsSlugError(err).value.slug
    ensures AsSlugError(err).Some? ==>
      (r.0 == StatusUnauthorized <==> AsSlugError(err).value.errorType == AuthorizationType)
    ensures AsSlugError(err).Some? ==>
      (r.0 == StatusBadRequest <==> AsSlugError(err).value.errorType == IncorrectInputType)
    ensures r.0 in {StatusBadRequest, StatusUnauthorized, StatusInternalServerError}
  {
    match AsSlugError(err)
    case None => (StatusInternalServerError, "internal-server-error")
    case Some(s) =>
      if s.errorType == AuthorizationType then (StatusUnauthorized, s.slug)
      else if s.errorType == IncorrectInputType then (StatusBadRequest, s.slug)
      else (StatusInternalServerError, s.slug)
  }

  /** `RespondWithSlugError`. */
  function RespondWithSlugError(c: Gin.Context, err: Error): (r: Gin.Context)
    ensures r.aborted.Some? && r.aborted.value.json.errors.body == [Classify(err).1]
    ensures r.aborted.value.status == Classify(err).0
    ensures r.keys == c.keys && r.proceeded == c.proceeded
  {
    match AsSlugError(err)
    case None => InternalError(c, "internal-server-error", err)
    case Some(s) =>
      if s.errorType == AuthorizationType then Unauthorised(c, s.slug, Slug(s))
      else if s.errorType == IncorrectInputType then BadRequest(c, s.slug, Slug(s))
      else InternalError(c, s.slug, Slug(s))
  }

  /** Each constructor of pkg/errors reaches its own status, with its own slug,
      even after being wrapped. */
  lemma ConstructorStatuses(c: Gin.Context, context: string, msg: string, slug: string)
    ensures RespondWithSlugError(c, Slug(NewAuthorizationError(msg, slug))).aborted
         == Some(Gin.Response(StatusUnauthorized, Gin.ErrorResponse(Gin.Errors([slug]))))
    ensures RespondWithSlugError(c, Slug(NewIncorrectInputError(msg, slug))).aborted
         == Some(Gin.Response(StatusBadRequest, Gin.ErrorResponse(Gin.Errors([slug]))))
    ensures RespondWithSlugError(c, Slug(NewSlugError(msg, slug))).aborted
         == Some(Gin.Response(StatusInternalServerError, Gin.ErrorResponse(Gin.Errors([slug]))))
    ensures RespondWithSlugError(c, Wrapped(context, Slug(NewAuthorizationError(msg, slug)))).aborted
         == Some(Gin.Response(StatusUnauthorized, Gin.ErrorResponse(Gin.Errors([slug]))))
  {
    CategoriesDistinct(msg, slug);
  }
}
