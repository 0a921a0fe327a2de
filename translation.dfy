/** The result translator of the logging RPC facade: every remote call's
    resolved outcome is piped through `Translate`, which passes successes
    through, turns selected gRPC status failures into an absent (null)
    result, wraps every other gRPC status failure in a LoggingException
    and lets any other failure through unchanged.

    Asynchrony is abstracted away: a future is modelled by the outcome it
    resolves to. */
module Translation {

  /** The gRPC status codes (io.grpc.Status.Code). */
  datatype Code =
    | Ok | Cancelled | Unknown | InvalidArgument | DeadlineExceeded
    | NotFound | AlreadyExists | PermissionDenied | ResourceExhausted
    | FailedPrecondition | Aborted | OutOfRange | Unimplemented
    | Internal | Unavailable | DataLoss | Unauthenticated

  /** The failures a call can resolve to. A `GrpcApiException` carries the
      remote status; a `LoggingException` is the library's own error type,
      wrapping its cause; `OtherException` stands for every other throwable
      (local transport failures, cancellation, ...). */
  datatype Exception =
    | GrpcApiException(code: Code, message: string)
    | LoggingException(cause: Exception)
    | OtherException(description: string)

  /** The exceptions `catching` hands to its handler. */
  type GrpcException = e: Exception | e.GrpcApiException? witness GrpcApiException(Ok, "")

  /** What a sub-client's call resolves to. */
  datatype Outcome<V> = Success(value: V) | Failure(error: Exception)

  /** What the facade's future resolves to: a value, the absent (null)
      value, or a failure. */
  datatype Translated<V> = Value(value: V) | Absent | Raised(error: Exception)

  /** The set built from the `returnNullOn` varargs: `EnumSet.of(first, all)`
      when at least one code is given, the empty set otherwise. */
  function ReturnNullOnSet(returnNullOn: seq<Code>): (s: set<Code>)
    ensures forall c :: c in s <==> c in returnNullOn
    ensures returnNullOn == [] ==> s == {}
  {
    if |returnNullOn| > 0 then {returnNullOn[0]} + (set c | c in returnNullOn)
    else {}
  }

  /** `ApiFutures.catching(from, GrpcApiException.class, handler)`: the
      handler only runs when the outcome is a failure whose exception is a
      GrpcApiException; any other outcome is passed on as it is. */
  function Catching<V>(from: Outcome<V>, handler: GrpcException -> Translated<V>): (r: Translated<V>)
    ensures from.Success? ==> r == Value(from.value)
    ensures from.Failure? && from.error.GrpcApiException? ==> r == handler(from.error)
    ensures from.Failure? && !from.error.GrpcApiException? ==> r == Raised(from.error)
  {
    match from
    case Success(v) => Value(v)
    case Failure(e) => if e.GrpcApiException? then handler(e) else Raised(e)
  }

  /** Outside a gRPC status failure the handler is never consulted. */
  lemma CatchingIgnoresHandler<V>(from: Outcome<V>, h1: GrpcException -> Translated<V>, h2: GrpcException -> Translated<V>)
    requires !(from.Failure? && from.error.GrpcApiException?)
    ensures Catching(from, h1) == Catching(from, h2)
  {
  }

  /** The handler `translate` installs, applied to a caught GrpcApiException:
      null when its status code is one of the suppressed codes, otherwise
      throw a LoggingException around it. */
  function ReturnNullOrWrap<V>(returnNullOnSet: set<Code>, exception: GrpcException): (r: Translated<V>)
    ensures r == Absent <==> exception.code in returnNullOnSet
    ensures r != Absent ==> r == Raised(LoggingException(exception))
  {
    if exception.code in returnNullOnSet then Absent
    else Raised(LoggingException(exception))
  }

  /** `translate(from, idempotent, returnNullOn...)`. The `idempotent` flag is
      accepted but never consulted. */
  function Translate<V>(from: Outcome<V>, idempotent: bool, returnNullOn: seq<Code>): (r: Translated<V>)
    // a success is passed through unchanged
    ensures from.Success? ==> r == Value(from.value)
    // a gRPC status failure is suppressed exactly when its code is listed ...
    ensures from.Failure? && from.error.GrpcApiException? ==>
              (r == Absent <==> from.error.code in returnNullOn)
    // ... and is otherwise wrapped in a LoggingException
    ensures from.Failure? && from.error.GrpcApiException? && from.error.code !in returnNullOn ==>
              r == Raised(LoggingException(from.error))
    // any other failure is not caught
    ensures from.Failure? && !from.error.GrpcApiException? ==> r == Raised(from.error)
    // with no codes to suppress, the result is never absent
    ensures returnNullOn == [] ==> !r.Absent?
    // a caller never sees a raw gRPC status exception
    ensures r.Raised? ==> !r.error.GrpcApiException?
  {
    var returnNullOnSet := ReturnNullOnSet(returnNullOn);
    Catching(from, (e: GrpcException) => ReturnNullOrWrap(returnNullOnSet, e))
  }

  /** The result is absent exactly for a gRPC status failure whose code is
      listed; nothing else is ever turned into null. */
  lemma AbsentIff<V>(from: Outcome<V>, idempotent: bool, returnNullOn: seq<Code>)
    ensures Translate(from, idempotent, returnNullOn) == Absent <==>
              from.Failure? && from.error.GrpcApiException? && from.error.code in returnNullOn
  {
  }

  /** The `idempotent` argument never influences the translation. */
  lemma IdempotentIgnored<V>(from: Outcome<V>, returnNullOn: seq<Code>)
    ensures Translate(from, true, returnNullOn) == Translate(from, false, returnNullOn)
  {
  }

  /** Only the set of listed codes matters, not their order or repetition. */
  lemma OnlyCodeSetMatters<V>(from: Outcome<V>, idempotent: bool, a: seq<Code>, b: seq<Code>)
    requires forall c :: c in a <==> c in b
    ensures Translate(from, idempotent, a) == Translate(from, idempotent, b)
  {
  }
}
