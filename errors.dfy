/** The error taxonomy: `FastFoldError` and its three subclasses, under the
    built-in `Error`. Each thrown error is a value whose constructor names its
    class; `InstanceOf` answers `e instanceof C` through the `extends` chain. */
module Errors {
  import opened Js

  /** The error classes: the built-in `Error` and the SDK's own four. */
  datatype ErrorClass = BaseError | FastFoldClass | AuthenticationClass | ApiClass | RateLimitClass

  /** The class each class `extends`. */
  function Superclass(c: ErrorClass): Option<ErrorClass> {
    match c
    case BaseError => None
    case FastFoldClass => Some(BaseError)
    case AuthenticationClass => Some(FastFoldClass)
    case ApiClass => Some(FastFoldClass)
    case RateLimitClass => Some(ApiClass)
  }

  /** Number of `extends` steps from `c` up to `Error`. */
  function Depth(c: ErrorClass): nat
  {
    match c
    case BaseError => 0
    case FastFoldClass => 1
    case AuthenticationClass => 2
    case ApiClass => 2
    case RateLimitClass => 3
  }

  /** `c` is `d` or inherits from it. */
  predicate Extends(c: ErrorClass, d: ErrorClass)
    decreases Depth(c)
  {
    c == d || (Superclass(c).Some? && Extends(Superclass(c).value, d))
  }

  /** A thrown error. `Other` is any error outside the SDK's taxonomy, such as
      the plain `Error` of a bad command-line option or a failed `fetch`. */
  datatype Error =
    | Other(message: string)
    | FastFold(message: string)
    | Authentication(message: string)
    | Api(message: string, statusCode: Option<int>, responseBody: Option<Json>)
    | RateLimit(message: string, statusCode: Option<int>, responseBody: Option<Json>)
  {
    function Class(): ErrorClass {
      match this
      case Other(_) => BaseError
      case FastFold(_) => FastFoldClass
      case Authentication(_) => AuthenticationClass
      case Api(_, _, _) => ApiClass
      case RateLimit(_, _, _) => RateLimitClass
    }

    /** `this instanceof c`: an error is an instance of its own class, of
        `Error`, of `FastFoldError` when it is one of the SDK's, and of
        `APIError` when it is a `RateLimitError`. */
    function InstanceOf(c: ErrorClass): (b: bool)
      ensures b <==> || c == Class()
                     || c == BaseError
                     || (c == FastFoldClass && !this.Other?)
                     || (c == ApiClass && this.RateLimit?)
    {
      Extends(Class(), c)
    }
  }

  /** Every error of the SDK's three specific kinds is a `FastFoldError`,
      and every error at all is an `Error`. */
  lemma SpecificKindsAreFastFold(e: Error)
    ensures e.InstanceOf(BaseError)
    ensures e.InstanceOf(FastFoldClass) <==> !e.Other?
  {
  }

  /** Exactly the errors that carry a status code and a response body are
      `APIError`s: `APIError` itself and `RateLimitError`. In particular an
      `AuthenticationError` is not an `APIError`, and a `RateLimitError` is. */
  lemma ApiErrorsCarryStatus(e: Error)
    ensures e.InstanceOf(ApiClass) <==> e.Api? || e.RateLimit?
    ensures e.InstanceOf(RateLimitClass) <==> e.RateLimit?
    ensures e.InstanceOf(AuthenticationClass) <==> e.Authentication?
  {
  }
}
