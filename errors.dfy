/**
 * Go's error values as the modelled code uses them: sentinel values compared with
 * `errors.Is`, error types inspected with `errors.As`, wrapping with `fmt.Errorf("%w")`
 * and combination with `errors.Join`. A nil error is `None` of `Option<Error>`.
 */
module Errors {
  import opened Wrappers

  /** The error values and error types of the modelled packages. */
  datatype Kind =
    // shared/postgresql/errors.go
    | NoMatches | AddedDuplicateOfUnique | PoolInitRequired
    // pgx.ErrNoRows
    | NoRows
    // context.Canceled, context.DeadlineExceeded
    | ContextCanceled | DeadlineExceeded
    // http.ErrNoCookie
    | NoCookie
    // shared/rwjson
    | WritingFailed
    // shared/httpmux
    | HttpTimeout | HttpCanceled | HttpUnauthorized | InvalidMethod | MethodNotAllowed
    | UrlMaking(host: string, endpoint: string)
    // shared/servicechecker.IsUnavailableError
    | Unavailable(service: string)
    // id/tkn
    | TknUnauthorized | TknForbidden
    // id/authservice
    | WrongLoginData | AlreadyRegistered | MissingEmailAddress | MissingUserDevice
    // id/pw
    | WrongPassword | InsecurePassword(reason: string)
    // id/usr
    | UserNotFound | InvalidEmail | MissingConfirmToken | ValidationRefused
    | PasswordResetRefused | NotConfirmedOrChangedEmail | EmailAlreadyConfirmed
    | InvalidToken(reason: string)
    // id/api/request
    | IdInvalidBody | IdMissingRequiredField | MustConfirmEmail | MissingSessionOnLogout
    | SendingError
    // id/usr/oauth
    | WrongTypeCasting | NoUserProfileData
    // id/mailing/mailbuilder
    | MissingDefaultLocale | FailedExecuteTemplate
    // reminder/api/request: the InputError values
    | MissingParam | InvalidUuidInBody | InvalidTimeFormat | InvalidQuery | OptionNotExists
    | InvalidBody | MissingRequiredField | NewUuidNotUnique
    // reminder/queryerr, reminder/item, reminder/storage
    | StorageNotExists | ItemNotExists | StorageNameNotUnique | DeletingNotAllowed
    // shared/uuidformat
    | InvalidUuid
    // any other error created with errors.New or fmt.Errorf without %w
    | Message(text: string)

  /** An error value: a leaf, a `%w` wrapping with extra text, or an `errors.Join` of two. */
  datatype Error =
    | Leaf(kind: Kind)
    | Wrapped(context: string, inner: Error)
    | Joined(first: Error, second: Error)

  /** `errors.Is(e, k)`: some error in the tree of `e` equals the value `k`. */
  predicate Is(e: Error, k: Kind) {
    match e
    case Leaf(k') => k' == k
    case Wrapped(_, inner) => Is(inner, k)
    case Joined(a, b) => Is(a, k) || Is(b, k)
  }

  /** `errors.Is` on a possibly nil error: nil is never any sentinel. */
  predicate IsOpt(e: Option<Error>, k: Kind) {
    e.Some? && Is(e.value, k)
  }

  /** `errors.As(e, &InvalidTokenError{})`: some error in the tree has that type. */
  predicate AsInvalidToken(e: Error) {
    match e
    case Leaf(k) => k.InvalidToken?
    case Wrapped(_, inner) => AsInvalidToken(inner)
    case Joined(a, b) => AsInvalidToken(a) || AsInvalidToken(b)
  }

  /** `errors.As(e, &InsecurePasswordError{})`. */
  predicate AsInsecurePassword(e: Error) {
    match e
    case Leaf(k) => k.InsecurePassword?
    case Wrapped(_, inner) => AsInsecurePassword(inner)
    case Joined(a, b) => AsInsecurePassword(a) || AsInsecurePassword(b)
  }

  /** `errors.As(e, &URLMakingError{})`. */
  predicate AsUrlMaking(e: Error) {
    match e
    case Leaf(k) => k.UrlMaking?
    case Wrapped(_, inner) => AsUrlMaking(inner)
    case Joined(a, b) => AsUrlMaking(a) || AsUrlMaking(b)
  }

  /** `errors.As(e, &IsUnavailableError{})`. */
  predicate AsUnavailable(e: Error) {
    match e
    case Leaf(k) => k.Unavailable?
    case Wrapped(_, inner) => AsUnavailable(inner)
    case Joined(a, b) => AsUnavailable(a) || AsUnavailable(b)
  }

  /** The values in the tree of `e`: what `errors.Is` and `errors.As` can find. */
  function Kinds(e: Error): set<Kind> {
    match e
    case Leaf(k) => {k}
    case Wrapped(_, inner) => Kinds(inner)
    case Joined(a, b) => Kinds(a) + Kinds(b)
  }

  predicate AnyInsecurePassword(ks: set<Kind>) { exists k :: k in ks && k.InsecurePassword? }
  predicate AnyInvalidToken(ks: set<Kind>) { exists k :: k in ks && k.InvalidToken? }
  predicate AnyUrlMaking(ks: set<Kind>) { exists k :: k in ks && k.UrlMaking? }
  predicate AnyUnavailable(ks: set<Kind>) { exists k :: k in ks && k.Unavailable? }

  /** `errors.Is` is membership in the tree's values, and each `errors.As` asks for a value of a type. */
  lemma {:induction false} KindsOfTree(e: Error)
    ensures forall k :: Is(e, k) <==> k in Kinds(e)
    ensures AsInsecurePassword(e) <==> AnyInsecurePassword(Kinds(e))
    ensures AsInvalidToken(e) <==> AnyInvalidToken(Kinds(e))
    ensures AsUrlMaking(e) <==> AnyUrlMaking(Kinds(e))
    ensures AsUnavailable(e) <==> AnyUnavailable(Kinds(e))
  {
    match e
    case Leaf(k) =>
      assert k in Kinds(e);
    case Wrapped(_, inner) =>
      KindsOfTree(inner);
    case Joined(a, b) =>
      KindsOfTree(a);
      KindsOfTree(b);
  }

  /** A value or the error that stopped it, as Go's `(T, error)` pairs where one side is set. */
  datatype Result<T> = Ok(value: T) | Fail(err: Error)

  /** A sentinel error value. */
  function E(k: Kind): Error { Leaf(k) }

  /**
   * `errors.Join(a, b)`: nil when both are nil; otherwise an error in whose tree
   * exactly the non-nil arguments appear.
   */
  function Join(a: Option<Error>, b: Option<Error>): (r: Option<Error>)
    ensures r.None? <==> a.None? && b.None?
    ensures forall k :: IsOpt(r, k) <==> IsOpt(a, k) || IsOpt(b, k)
  {
    match (a, b)
    case (None, None) => None
    case (Some(x), None) => Some(x)
    case (None, Some(y)) => Some(y)
    case (Some(x), Some(y)) => Some(Joined(x, y))
  }

  /** `errors.Join(s, e)` for a sentinel `s` and a non-nil `e`. */
  function JoinWith(k: Kind, e: Error): (r: Error)
    ensures Is(r, k)
    ensures forall k' :: Is(e, k') ==> Is(r, k')
  {
    Joined(Leaf(k), e)
  }

  /** `postgresql.HandleQueryErr`: a database error wrapped with its context text; nil stays nil. */
  function HandleQueryErr(err: Option<Error>): (r: Option<Error>)
    ensures r.None? <==> err.None?
    ensures forall k :: IsOpt(r, k) <==> IsOpt(err, k)
  {
    match err
    case None => None
    case Some(e) => Some(Wrapped("unexpected postgresql db error", e))
  }
}
