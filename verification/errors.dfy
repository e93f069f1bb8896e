/** The SDK's exception classes (lib/liteapi/errors.rb) as a closed
    hierarchy, and the exception values the transport raises. */
module Errors {
  import opened Wrappers
  import opened Json

  /** One constructor per Ruby class, named as in the source. */
  datatype ErrorClass =
    | Error
    | APIError
    | ClientError
    | ServerError
    | AuthenticationError
    | NotFoundError
    | RateLimitError
    | ValidationError

  /** The direct superclass inside the SDK; `Error` itself extends Ruby's
      `StandardError`, which is outside the model. */
  function Superclass(c: ErrorClass): Option<ErrorClass> {
    match c
    case Error => None
    case APIError => Some(Error)
    case ClientError => Some(APIError)
    case ServerError => Some(APIError)
    case _ => Some(ClientError)
  }

  /** Distance from `Error` along the superclass chain. */
  function Depth(c: ErrorClass): nat {
    match c
    case Error => 0
    case APIError => 1
    case ClientError => 2
    case ServerError => 2
    case _ => 3
  }

  /** Ruby's `c <= ancestor`: `c` is `ancestor` or inherits from it, so an
      exception of class `c` is caught by `rescue ancestor`. */
  predicate IsA(c: ErrorClass, ancestor: ErrorClass)
    decreases Depth(c)
  {
    c == ancestor || (Superclass(c).Some? && IsA(Superclass(c).value, ancestor))
  }

  predicate IsAPIError(c: ErrorClass) { IsA(c, APIError) }
  predicate IsClientError(c: ErrorClass) { IsA(c, ClientError) }
  predicate IsServerError(c: ErrorClass) { IsA(c, ServerError) }

  /** The attributes `APIError` adds to the message: `status`, `code` and
      `response`, where `None` / `JNull` is Ruby's `nil`. */
  datatype ApiFields = ApiFields(status: Option<int>, code: Json, response: Json)

  /** A raised SDK exception. `api` holds the `APIError` attributes and is
      present exactly for the classes that have them (see `WellFormed`). */
  datatype Exception = Exception(cls: ErrorClass, message: Json, api: Option<ApiFields>)

  predicate WellFormed(e: Exception) {
    e.api.Some? <==> IsAPIError(e.cls)
  }

  /** `Liteapi::Error.new(message)`: a plain error without status, code or response. */
  function NewError(message: string): (e: Exception)
    ensures WellFormed(e)
    ensures !IsAPIError(e.cls) && e.api.None?
    ensures e.message == JStr(message)
  {
    Exception(Error, JStr(message), None)
  }

  /** `cls.new(message, status:, code:, response:)` for an `APIError` class;
      every attribute is stored as given. */
  function NewAPIError(cls: ErrorClass, message: Json, status: Option<int>, code: Json, response: Json): (e: Exception)
    requires IsAPIError(cls)
    ensures WellFormed(e)
    ensures e.cls == cls && e.message == message
    ensures e.api == Some(ApiFields(status, code, response))
  {
    Exception(cls, message, Some(ApiFields(status, code, response)))
  }

  /** `cls.new(message)` with the keyword arguments omitted: each of
      `status`, `code` and `response` reads back as `nil`. */
  function NewAPIErrorWithDefaults(cls: ErrorClass, message: Json): (e: Exception)
    requires IsAPIError(cls)
    ensures WellFormed(e) && e.cls == cls && e.message == message
    ensures e.api.Some? && e.api.value.status.None?
    ensures e.api.value.code.JNull? && e.api.value.response.JNull?
  {
    NewAPIError(cls, message, None, JNull, JNull)
  }

  /** `IsA` is transitive: inheriting from something that inherits from
      `c` means inheriting from `c`. */
  lemma {:induction false} IsATransitive(a: ErrorClass, b: ErrorClass, c: ErrorClass)
    requires IsA(a, b) && IsA(b, c)
    ensures IsA(a, c)
    decreases Depth(a)
  {
    if a != b {
      IsATransitive(Superclass(a).value, b, c);
    }
  }

  /** An ancestor is never deeper than its descendant. */
  lemma {:induction false} IsADepth(a: ErrorClass, b: ErrorClass)
    requires IsA(a, b)
    ensures Depth(b) <= Depth(a)
    ensures Depth(b) == Depth(a) ==> a == b
    decreases Depth(a)
  {
    if a != b {
      IsADepth(Superclass(a).value, b);
    }
  }

  /** `IsA` is antisymmetric, so together with reflexivity and
      `IsATransitive` it is a partial order. */
  lemma IsAAntisymmetric(a: ErrorClass, b: ErrorClass)
    requires IsA(a, b) && IsA(b, a)
    ensures a == b
  {
    IsADepth(a, b);
    IsADepth(b, a);
  }

  /** Every class descends from `Error`, so `rescue Liteapi::Error` catches all of them. */
  lemma EveryClassIsError(c: ErrorClass)
    ensures IsA(c, Error)
  {
  }

  /** `ClientError` and `ServerError` are both direct subclasses of `APIError`,
      neither inherits from the other, and no class is both. */
  lemma ClientAndServerAreSiblings(c: ErrorClass)
    ensures Superclass(ClientError) == Some(APIError) && Superclass(ServerError) == Some(APIError)
    ensures !IsA(ClientError, ServerError) && !IsA(ServerError, ClientError)
    ensures !(IsClientError(c) && IsServerError(c))
  {
  }

  /** The four status-specific classes are client errors and never server errors. */
  lemma SpecificErrorsAreClientErrors(c: ErrorClass)
    requires c in {AuthenticationError, NotFoundError, RateLimitError, ValidationError}
    ensures Superclass(c) == Some(ClientError)
    ensures IsClientError(c) && IsAPIError(c) && !IsServerError(c)
  {
  }

  /** The category predicates, stated by listing their members. */
  lemma CategoryMembers(c: ErrorClass)
    ensures IsAPIError(c) <==> c != Error
    ensures IsServerError(c) <==> c == ServerError
    ensures IsClientError(c) <==> c in {ClientError, AuthenticationError, NotFoundError, RateLimitError, ValidationError}
  {
  }
}
