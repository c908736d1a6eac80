/** The errors of the wallet core: the four wrappers of db/models/errors.go,
    the errors built with xerrors, and the two driver errors the service
    inspects (sql.ErrNoRows and *pq.Error). `ChainHas` is what
    xerrors.Is and xerrors.As decide: whether some error on the Unwrap chain
    has a given concrete type. */
module Errors {
  import opened Wrappers

  datatype Error =
    | New(text: string)                       // xerrors.New, or xerrors.Errorf without %w
    | Errorf(context: string, cause: Error)   // xerrors.Errorf("<context>: %w", cause)
    | NoRows                                  // the sentinel sql.ErrNoRows
    | PqError(code: string, message: string)  // *pq.Error, carrying an SQLSTATE code
    | DBErrorWrapper(err: Error)
    | LowBalanceWrapper(err: Error)
    | NotFoundWrapper(err: Error)
    | ValidationError(err: Error)

  /** SQLSTATE serialization_failure. */
  const SerializationFailure: string := "40001"

  /** The text of `err.Error()`. The four wrappers delegate to the wrapped error. */
  function ErrorString(e: Error): string
  {
    match e
    case New(t) => t
    case Errorf(c, cause) => c + ": " + ErrorString(cause)
    case NoRows => "sql: no rows in result set"
    case PqError(_, m) => "pq: " + m
    case DBErrorWrapper(inner) => ErrorString(inner)
    case LowBalanceWrapper(inner) => ErrorString(inner)
    case NotFoundWrapper(inner) => ErrorString(inner)
    case ValidationError(inner) => ErrorString(inner)
  }

  /** `xerrors.Unwrap(e)`: the wrapped error, or nil for an error that wraps nothing. */
  function Unwrap(e: Error): Option<Error>
  {
    match e
    case Errorf(_, cause) => Some(cause)
    case DBErrorWrapper(inner) => Some(inner)
    case LowBalanceWrapper(inner) => Some(inner)
    case NotFoundWrapper(inner) => Some(inner)
    case ValidationError(inner) => Some(inner)
    case _ => None
  }

  /** The concrete error types the core looks for on a chain. */
  datatype Kind = NoRowsKind | PqKind | DBErrorKind | LowBalanceKind | NotFoundKind | ValidationKind

  predicate IsKind(e: Error, k: Kind)
  {
    match k
    case NoRowsKind => e.NoRows?
    case PqKind => e.PqError?
    case DBErrorKind => e.DBErrorWrapper?
    case LowBalanceKind => e.LowBalanceWrapper?
    case NotFoundKind => e.NotFoundWrapper?
    case ValidationKind => e.ValidationError?
  }

  /** The Unwrap chain of e: e itself, then what it wraps, and so on. */
  function Chain(e: Error): seq<Error>
  {
    match e
    case Errorf(_, cause) => [e] + Chain(cause)
    case DBErrorWrapper(inner) => [e] + Chain(inner)
    case LowBalanceWrapper(inner) => [e] + Chain(inner)
    case NotFoundWrapper(inner) => [e] + Chain(inner)
    case ValidationError(inner) => [e] + Chain(inner)
    case _ => [e]
  }

  /** xerrors.Is(e, sql.ErrNoRows) for k = NoRowsKind, xerrors.As(e, &target) otherwise. */
  predicate ChainHas(e: Error, k: Kind)
  {
    IsKind(e, k) ||
    match e
    case Errorf(_, cause) => ChainHas(cause, k)
    case DBErrorWrapper(inner) => ChainHas(inner, k)
    case LowBalanceWrapper(inner) => ChainHas(inner, k)
    case NotFoundWrapper(inner) => ChainHas(inner, k)
    case ValidationError(inner) => ChainHas(inner, k)
    case _ => false
  }

  /** The chain starts at e, each link is the Unwrap of the one before, and it
      ends at an error that wraps nothing. */
  lemma {:induction false} ChainFollowsUnwrap(e: Error)
    ensures |Chain(e)| >= 1 && Chain(e)[0] == e
    ensures forall i :: 0 <= i < |Chain(e)| - 1 ==> Unwrap(Chain(e)[i]) == Some(Chain(e)[i + 1])
    ensures Unwrap(Chain(e)[|Chain(e)| - 1]).None?
  {
    match e
    case Errorf(_, cause) => ChainFollowsUnwrap(cause);
    case DBErrorWrapper(inner) => ChainFollowsUnwrap(inner);
    case LowBalanceWrapper(inner) => ChainFollowsUnwrap(inner);
    case NotFoundWrapper(inner) => ChainFollowsUnwrap(inner);
    case ValidationError(inner) => ChainFollowsUnwrap(inner);
    case _ =>
  }

  /** Some link of the Unwrap chain has kind k. */
  predicate OnChain(e: Error, k: Kind)
  {
    exists i :: 0 <= i < |Chain(e)| && IsKind(Chain(e)[i], k)
  }

  /** ChainHas answers exactly whether some error on the Unwrap chain has kind k. */
  lemma {:induction false} ChainHasIsSomeLink(e: Error, k: Kind)
    ensures ChainHas(e, k) <==> OnChain(e, k)
  {
    match e
    case Errorf(_, cause) => ChainHasIsSomeLink(cause, k); ShiftedLink(e, cause, k);
    case DBErrorWrapper(inner) => ChainHasIsSomeLink(inner, k); ShiftedLink(e, inner, k);
    case LowBalanceWrapper(inner) => ChainHasIsSomeLink(inner, k); ShiftedLink(e, inner, k);
    case NotFoundWrapper(inner) => ChainHasIsSomeLink(inner, k); ShiftedLink(e, inner, k);
    case ValidationError(inner) => ChainHasIsSomeLink(inner, k); ShiftedLink(e, inner, k);
    case _ =>
      assert Chain(e) == [e] && Chain(e)[0] == e;
  }

  lemma ShiftedLink(e: Error, inner: Error, k: Kind)
    requires Chain(e) == [e] + Chain(inner)
    ensures OnChain(e, k) <==> IsKind(e, k) || OnChain(inner, k)
  {
    if OnChain(e, k) {
      var i :| 0 <= i < |Chain(e)| && IsKind(Chain(e)[i], k);
      if i > 0 {
        assert Chain(e)[i] == Chain(inner)[i - 1];
      }
    }
    if OnChain(inner, k) {
      var i :| 0 <= i < |Chain(inner)| && IsKind(Chain(inner)[i], k);
      assert Chain(e)[i + 1] == Chain(inner)[i];
    }
    if IsKind(e, k) {
      assert Chain(e)[0] == e;
    }
  }

  /** What an error wraps directly is on its chain. */
  lemma CauseOnChain(e: Error, k: Kind)
    ensures Unwrap(e).Some? && IsKind(Unwrap(e).value, k) ==> ChainHas(e, k)
  {
  }

  /** Each of DBErrorWrapper, LowBalanceWrapper, NotFoundWrapper and
      ValidationError reports the wrapped error's text and unwraps to it. */
  lemma WrappersDelegate(inner: Error)
    ensures ErrorString(DBErrorWrapper(inner)) == ErrorString(inner) && Unwrap(DBErrorWrapper(inner)) == Some(inner)
    ensures ErrorString(LowBalanceWrapper(inner)) == ErrorString(inner) && Unwrap(LowBalanceWrapper(inner)) == Some(inner)
    ensures ErrorString(NotFoundWrapper(inner)) == ErrorString(inner) && Unwrap(NotFoundWrapper(inner)) == Some(inner)
    ensures ErrorString(ValidationError(inner)) == ErrorString(inner) && Unwrap(ValidationError(inner)) == Some(inner)
  {
  }
}
