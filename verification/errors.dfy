/** pkg/errors: errors that carry a message, a machine-readable slug and a category.
    The `slugerr` package the HTTP layer imports has the same shape and is
    modelled by this module as well. */
module SlugErrors {

  /** The category of a slug error. Its only field is unexported in Go, so the
      three constants below and the zero value `ErrorType("")` are the only
      values that can exist. */
  datatype ErrorType = ErrorType(t: string)

  const UnknownType := ErrorType("unknown")
  const AuthorizationType := ErrorType("authorization")
  const IncorrectInputType := ErrorType("incorrect-input")

  /** A slug error; `err` is what `Error()` returns and `slug` what `Slug()` returns. */
  datatype SlugError = SlugError(err: string, slug: string, errorType: ErrorType)

  function NewSlugError(err: string, slug: string): (e: SlugError)
    ensures e.err == err && e.slug == slug
    ensures e.errorType == UnknownType
  {
    SlugError(err, slug, UnknownType)
  }

  function NewAuthorizationError(err: string, slug: string): (e: SlugError)
    ensures e.err == err && e.slug == slug
    ensures e.errorType == AuthorizationType
  {
    SlugError(err, slug, AuthorizationType)
  }

  function NewIncorrectInputError(err: string, slug: string): (e: SlugError)
    ensures e.err == err && e.slug == slug
    ensures e.errorType == IncorrectInputType
  {
    SlugError(err, slug, IncorrectInputType)
  }

  /** The three categories are pairwise distinct, so a constructor's category
      is recoverable from the value it builds. */
  lemma CategoriesDistinct(err: string, slug: string)
    ensures UnknownType != AuthorizationType
    ensures UnknownType != IncorrectInputType
    ensures AuthorizationType != IncorrectInputType
    ensures NewSlugError(err, slug) != NewAuthorizationError(err, slug)
    ensures NewSlugError(err, slug) != NewIncorrectInputError(err, slug)
    ensures NewAuthorizationError(err, slug) != NewIncorrectInputError(err, slug)
  {
    assert UnknownType.t[0] == 'u' && AuthorizationType.t[0] == 'a' && IncorrectInputType.t[0] == 'i';
  }
}

/** Go `error` values as the model needs them: package-level sentinels compared
    by identity, `%w` wrapping, and slug errors found through the wrap chain. */
module ErrorChain {
  import opened Wrappers
  import opened SlugErrors

  datatype Error =
    | Sentinel(text: string)               // a package-level `errors.New(text)` value, identified by its text
    | Wrapped(context: string, inner: Error) // `fmt.Errorf("context: %w", inner)`
    | Opaque(text: string)                 // an error with nothing to unwrap
    | Slug(slugError: SlugError)           // a slug error used as an `error`

  /** `errors.Is(e, target)`: `target` occurs somewhere on `e`'s wrap chain. */
  predicate Is(e: Error, target: Error)
  {
    e == target || (e.Wrapped? && Is(e.inner, target))
  }

  /** `errors.As(e, &slugError)`: the first slug error on `e`'s wrap chain. */
  function AsSlugError(e: Error): (r: Option<SlugError>)
    ensures r.Some? ==> Is(e, Slug(r.value))
    ensures r.None? ==> forall s: SlugError :: !Is(e, Slug(s))
  {
    match e
    case Slug(s) => Some(s)
    case Wrapped(_, inner) => AsSlugError(inner)
    case _ => None
  }
}
