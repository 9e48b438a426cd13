/** `Success.java` and `Failure.java`: the two subclasses of `Try`, one
    alternative per class. Each combinator is the pair of overrides,
    selected by the receiver's class. */
module Variants {
  import opened Values
  import opened Throwables
  import opened Callbacks
  import NonFatal

  /** `new Success<>(value)` accepts a null value and the public
      `new Failure<>(throwable)` accepts a null throwable. */
  datatype Try<T> = Success(value: Option<T>) | Failure(throwable: Option<Err>)

  function IsFailure<T>(t: Try<T>): (r: bool)
    ensures r <==> t.Failure?
  {
    match t
    case Success(_) => false
    case Failure(_) => true
  }

  function IsSuccess<T>(t: Try<T>): (r: bool)
    ensures r <==> !IsFailure(t)
  {
    match t
    case Success(_) => true
    case Failure(_) => false
  }

  /** The catch clause of `Success.flatMap` and `Failure.or`. */
  function Catch<T>(e: Err): (r: Outcome<Try<T>>)
    ensures r.Raised? <==> !NonFatal.Is(e)
    ensures r.Raised? ==> r.error == e
    ensures r.Returned? ==> r.value == Failure(Some(e))
  {
    if NonFatal.Is(e) then Returned(Failure(Some(e))) else Raised(e)
  }

  /** `Try.fallible` as the two-class design uses it: a `Success` of the
      supplier's result, or a `Failure` of a non-fatal throwable. */
  function Fallible<T>(supplier: () -> Outcome<Option<T>>): (r: Outcome<Try<T>>)
    ensures r.Raised? <==> supplier().Raised? && !NonFatal.Is(supplier().error)
    ensures r.Raised? ==> r.error == supplier().error
    ensures supplier().Returned? ==> r == Returned(Success(supplier().value))
    ensures supplier().Raised? && r.Returned? ==> r.value == Failure(Some(supplier().error))
  {
    match supplier()
    case Returned(v) => Returned(Success(v))
    case Raised(e) => Catch(e)
  }

  /** `toOptional`: `ofNullable(value)` on a `Success`, empty on a `Failure`. */
  function ToOptional<T>(t: Try<T>): (r: Option<T>)
    ensures r.Some? ==> t == Success(r)
    ensures t.Success? && t.value.Some? ==> r == t.value
  {
    match t
    case Success(v) => v
    case Failure(_) => None
  }

  /** `ifSuccess`: the action runs on a `Success` and nothing runs on a `Failure`. */
  function IfSuccess<T>(t: Try<T>): (r: Fired<T>)
    ensures r.Action? <==> t.Success?
    ensures t.Success? ==> r.arg == t.value
    ensures !r.Failsafe?
  {
    match t
    case Success(v) => Action(v)
    case Failure(_) => Neither
  }

  /** `ifSuccessOrElse`: the action on a `Success`, never the failsafe;
      only the failsafe on a `Failure`. */
  function IfSuccessOrElse<T>(t: Try<T>): (r: Fired<T>)
    ensures r.Action? <==> t.Success?
    ensures t.Success? ==> r.arg == t.value
    ensures r.Failsafe? <==> t.Failure?
  {
    match t
    case Success(v) => Action(v)
    case Failure(_) => Failsafe
  }

  /** `filter`: `Success` keeps itself when the predicate holds and becomes
      a `NoSuchElementException` failure otherwise; `Failure` keeps itself. */
  function Filter<T>(t: Try<T>, test: Option<T> -> Outcome<bool>): (r: Outcome<Try<T>>)
    ensures t.Failure? ==> r == Returned(t)
    ensures t.Success? ==> (r == Returned(t) <==> test(t.value) == Returned(true))
    ensures r.Raised? <==> t.Success? && test(t.value).Raised?
    ensures r.Raised? ==> r.error == test(t.value).error
    ensures r.Returned? && r.value != t ==>
              t.Success? && r.value == Failure(Some(Thrown(NoSuchElementException)))
  {
    match t
    case Failure(_) => Returned(t)
    case Success(v) =>
      match test(v)
      case Raised(e) => Raised(e)
      case Returned(holds) =>
        if holds then Returned(t) else Returned(Failure(Some(Thrown(NoSuchElementException))))
  }

  /** `map`: `Success` maps under the `fallible` guard; `Failure` is returned
      as it is, retyped. */
  function Map<T, U>(t: Try<T>, mapper: Option<T> -> Outcome<Option<U>>): (r: Outcome<Try<U>>)
    ensures t.Failure? ==> r == Returned(Failure(t.throwable))
    ensures r.Raised? <==> t.Success? && mapper(t.value).Raised? && !NonFatal.Is(mapper(t.value).error)
    ensures r.Raised? ==> r.error == mapper(t.value).error
    ensures t.Success? && mapper(t.value).Returned? ==> r == Returned(Success(mapper(t.value).value))
    ensures t.Success? && mapper(t.value).Raised? && NonFatal.Is(mapper(t.value).error) ==>
              r == Returned(Failure(Some(mapper(t.value).error)))
  {
    match t
    case Failure(e) => Returned(Failure(e))
    case Success(v) => Fallible(() => mapper(v))
  }

  /** `flatMap`: `Success` returns the mapper's `Try` itself, with the mapper
      guarded; `Failure` is returned as it is. */
  function FlatMap<T, U>(t: Try<T>, mapper: Option<T> -> Outcome<Try<U>>): (r: Outcome<Try<U>>)
    ensures t.Failure? ==> r == Returned(Failure(t.throwable))
    ensures t.Success? && mapper(t.value).Returned? ==> r == mapper(t.value)
    ensures r.Raised? <==> t.Success? && mapper(t.value).Raised? && !NonFatal.Is(mapper(t.value).error)
    ensures r.Raised? ==> r.error == mapper(t.value).error
    ensures t.Success? && mapper(t.value).Raised? && r.Returned? ==>
              r.value == Failure(Some(mapper(t.value).error))
  {
    match t
    case Failure(e) => Returned(Failure(e))
    case Success(v) =>
      match mapper(v)
      case Returned(u) => Returned(u)
      case Raised(e) => Catch(e)
  }

  /** `stream`: exactly one element, the value, for a `Success`; none for a `Failure`. */
  function Stream<T>(t: Try<T>): (r: seq<Option<T>>)
    ensures t.Success? ==> r == [t.value]
    ensures t.Failure? ==> |r| == 0
  {
    match t
    case Success(v) => [v]
    case Failure(_) => []
  }

  /** `orElseGet`: `Success` yields its value without the supplier; `Failure`
      yields whatever the supplier does, unguarded. */
  function OrElseGet<T>(t: Try<T>, supplier: () -> Outcome<Option<T>>): (r: Outcome<Option<T>>)
    ensures t.Success? ==> r == Returned(t.value)
    ensures t.Failure? ==> r == supplier()
  {
    match t
    case Success(v) => Returned(v)
    case Failure(_) => supplier()
  }

  /** `or`: `Success` keeps itself without the supplier; `Failure` yields the
      supplier's `Try`, with the supplier guarded. */
  function Or<T>(t: Try<T>, supplier: () -> Outcome<Try<T>>): (r: Outcome<Try<T>>)
    ensures t.Success? ==> r == Returned(t)
    ensures t.Failure? && supplier().Returned? ==> r == supplier()
    ensures r.Raised? <==> t.Failure? && supplier().Raised? && !NonFatal.Is(supplier().error)
    ensures r.Raised? ==> r.error == supplier().error
    ensures t.Failure? && supplier().Raised? && r.Returned? ==> r.value == Failure(Some(supplier().error))
  {
    match t
    case Success(_) => Returned(t)
    case Failure(_) =>
      match supplier()
      case Returned(u) => Returned(u)
      case Raised(e) => Catch(e)
  }

  /** `invert`: a `Success` becomes an `UnsupportedOperationException`
      failure; a `Failure` becomes a `Success` of its throwable. */
  function Invert<T>(t: Try<T>): (r: Try<Err>)
    ensures IsSuccess(r) <==> IsFailure(t)
    ensures t.Failure? ==> ToOptional(r) == t.throwable
    ensures t.Success? ==> r.throwable.Some? && r.throwable.value.cls == UnsupportedOperationException
  {
    match t
    case Success(_) => Failure(Some(Thrown(UnsupportedOperationException)))
    case Failure(e) => Success(e)
  }

  /** `equals`: a `Success` equals a `Success` of an equal value, a `Failure`
      a `Failure` of the same throwable (both compared null-safely). */
  function Equals<T(==)>(t: Try<T>, other: Try<T>): (r: bool)
    ensures r ==> IsSuccess(t) == IsSuccess(other)
    ensures t.Success? && other.Success? ==> (r <==> t.value == other.value)
    ensures t.Failure? && other.Failure? ==> (r <==> t.throwable == other.throwable)
  {
    match t
    case Success(v) => other.Success? && v == other.value
    case Failure(e) => other.Failure? && e == other.throwable
  }

  /** `equals` in the two-class design is exactly structural equality, so it
      is an equivalence relation. */
  lemma EqualsIsIdentity<T>(t: Try<T>, other: Try<T>)
    ensures Equals(t, other) <==> t == other
    ensures Equals(t, other) == Equals(other, t)
  {
  }

  /** `Success` reports itself as a success and never runs the failsafe. */
  lemma SuccessQueries<T>(v: Option<T>)
    ensures IsSuccess(Success(v)) && !IsFailure(Success(v))
    ensures IfSuccess(Success(v)) == Action(v) && IfSuccessOrElse(Success(v)) == Action(v)
  {
  }

  /** `Failure` reports itself as a failure; `ifSuccess` does nothing and
      `ifSuccessOrElse` runs only the failsafe. */
  lemma FailureQueries<T>(e: Option<Err>)
    ensures IsFailure(Try<T>.Failure(e)) && !IsSuccess(Try<T>.Failure(e))
    ensures IfSuccess(Try<T>.Failure(e)) == Neither && IfSuccessOrElse(Try<T>.Failure(e)) == Failsafe
  {
  }

  /** `Success.toOptional` is `ofNullable(value)`; `Success.stream` has one element. */
  lemma SuccessViews<T>(v: Option<T>)
    ensures ToOptional(Success(v)) == v
    ensures |Stream(Success(v))| == 1
  {
  }

  /** `Failure.toOptional` is empty and `Failure.stream` has no element. */
  lemma FailureViews<T>(e: Option<Err>)
    ensures ToOptional(Try<T>.Failure(e)).None?
    ensures Stream(Try<T>.Failure(e)) == []
  {
  }

  /** `Failure.filter`, `map` and `flatMap` return the receiver, same
      throwable, whatever the function argument. */
  lemma FailurePassesThrough<T, U>(e: Option<Err>, test: Option<T> -> Outcome<bool>,
                                   mapper: Option<T> -> Outcome<Option<U>>,
                                   binder: Option<T> -> Outcome<Try<U>>)
    ensures Filter(Failure(e), test) == Returned(Failure(e))
    ensures Map(Failure(e), mapper) == Returned(Failure(e))
    ensures FlatMap(Failure(e), binder) == Returned(Failure(e))
  {
  }

  /** `Success.orElseGet` and `Success.or` never consult the supplier. */
  lemma SuccessIgnoresFallbacks<T>(v: Option<T>, value: () -> Outcome<Option<T>>,
                                   alternative: () -> Outcome<Try<T>>)
    ensures OrElseGet(Success(v), value) == Returned(v)
    ensures Or(Success(v), alternative) == Returned(Success(v))
  {
  }

  /** `Success.map(f)` is exactly `Try.fallible(() -> f(value))`. */
  lemma MapIsFallible<T, U>(v: Option<T>, mapper: Option<T> -> Outcome<Option<U>>)
    ensures Map(Success(v), mapper) == Fallible(() => mapper(v))
  {
  }

  /** `Failure(e).invert()` is `Success(e)`. */
  lemma InvertFailure<T>(e: Option<Err>)
    ensures Invert(Try<T>.Failure(e)) == Success(e)
  {
  }

  /** A `Failure` equals only a `Failure` of the same throwable, never a `Success`. */
  lemma FailureEqualsOnlyFailures<T>(e: Option<Err>, other: Try<T>)
    ensures Equals(Failure(e), other) <==> other == Failure(e)
    ensures other.Success? ==> !Equals(Failure(e), other) && !Equals(other, Failure(e))
  {
  }
}
