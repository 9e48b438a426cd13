/** `Try.java`: one record whose nullable `value` and nullable `throwable`
    encode success and failure. A record with a non-null throwable is a
    failure; any other record is a success, possibly of a null value. */
module FlatTry {
  import opened Values
  import opened Throwables
  import opened Callbacks
  import NonFatal

  /** The two fields of the class. */
  datatype Record<T> = Record(value: Option<T>, throwable: Option<Err>)

  /** The assertion of the private constructor: never both fields non-null. */
  predicate Invariant<T>(r: Record<T>)
  {
    r.value.None? || r.throwable.None?
  }

  /** Every record built by the constructor. Building one is Dafny's check
      of the constructor's assertion at that call site. */
  type Try<T> = r: Record<T> | Invariant(r) witness Record(None, None)

  predicate IsFailure<T>(t: Try<T>)
    ensures IsFailure(t) ==> t.value.None?
  {
    t.throwable.Some?
  }

  function IsSuccess<T>(t: Try<T>): (r: bool)
    ensures r <==> !IsFailure(t)
  {
    t.throwable.None?
  }

  /** `Try.success`: any value, null included, makes a success. */
  function Success<T>(value: Option<T>): (r: Try<T>)
    ensures IsSuccess(r) && r.value == value
  {
    Record(value, None)
  }

  /** `Try.failure`: a null throwable is rejected with a `NullPointerException`. */
  function Failure<T>(exception: Option<Err>): (r: Outcome<Try<T>>)
    ensures r.Raised? <==> exception.None?
    ensures r.Raised? ==> r.error.cls == NullPointerException
    ensures r.Returned? ==> IsFailure(r.value) && r.value.throwable == exception
  {
    match exception
    case None => Raised(Thrown(NullPointerException))
    case Some(e) => Returned(Record(None, Some(e)))
  }

  /** The catch clause shared by `fallible`, `flatMap` and `or`. */
  function Catch<T>(e: Err): (r: Outcome<Try<T>>)
    ensures r.Raised? <==> !NonFatal.Is(e)
    ensures r.Raised? ==> r.error == e
    ensures r.Returned? ==> IsFailure(r.value) && r.value.throwable == Some(e)
  {
    if NonFatal.Is(e) then Returned(Record(None, Some(e))) else Raised(e)
  }

  /** `Try.fallible`: run the supplier once; capture what it throws unless it is fatal. */
  function Fallible<T>(supplier: () -> Outcome<Option<T>>): (r: Outcome<Try<T>>)
    ensures r.Raised? <==> supplier().Raised? && !NonFatal.Is(supplier().error)
    ensures r.Raised? ==> r.error == supplier().error
    ensures r.Returned? ==> (IsSuccess(r.value) <==> supplier().Returned?)
    ensures supplier().Returned? ==> r.Returned? && r.value.value == supplier().value
    ensures supplier().Raised? && r.Returned? ==> r.value.throwable == Some(supplier().error)
  {
    match supplier()
    case Returned(v) => Returned(Success(v))
    case Raised(e) => Catch(e)
  }

  /** `toOptional`: the value of a success (empty when it is null), and empty for a failure. */
  function ToOptional<T>(t: Try<T>): (r: Option<T>)
    ensures IsFailure(t) ==> r.None?
    ensures IsSuccess(t) ==> r == t.value
  {
    if IsFailure(t) then None else t.value
  }

  /** `ifSuccess`: which callback runs. */
  function IfSuccess<T>(t: Try<T>): (r: Fired<T>)
    ensures r.Action? <==> IsSuccess(t)
    ensures r.Action? ==> r.arg == t.value
    ensures !r.Failsafe?
  {
    if IsSuccess(t) then Action(t.value) else Neither
  }

  /** `ifSuccessOrElse`: which callback runs. */
  function IfSuccessOrElse<T>(t: Try<T>): (r: Fired<T>)
    ensures r.Action? <==> IsSuccess(t)
    ensures r.Action? ==> r.arg == t.value
    ensures !r.Neither?
  {
    if IsSuccess(t) then Action(t.value) else Failsafe
  }

  /** `filter`: a failure is kept without testing the predicate; a success is
      kept when the predicate holds and becomes a `NoSuchElementException`
      failure when it does not. The predicate itself is not guarded. */
  function Filter<T>(t: Try<T>, test: Option<T> -> Outcome<bool>): (r: Outcome<Try<T>>)
    ensures IsFailure(t) ==> r == Returned(t)
    ensures IsSuccess(t) ==> (r == Returned(t) <==> test(t.value) == Returned(true))
    ensures r.Raised? <==> IsSuccess(t) && test(t.value).Raised?
    ensures r.Raised? ==> r.error == test(t.value).error
    ensures r.Returned? && r.value != t ==>
              IsSuccess(t) && IsFailure(r.value) && r.value.throwable.value.cls == NoSuchElementException
  {
    if IsFailure(t) then Returned(t)
    else match test(t.value)
      case Raised(e) => Raised(e)
      case Returned(holds) =>
        if holds then Returned(t) else Returned(Record(None, Some(Thrown(NoSuchElementException))))
  }

  /** `map`: a failure passes through with the same throwable; a success is
      mapped under the same guard as `fallible`. */
  function Map<T, U>(t: Try<T>, mapper: Option<T> -> Outcome<Option<U>>): (r: Outcome<Try<U>>)
    ensures IsFailure(t) ==> r == Returned(Record(None, t.throwable))
    ensures r.Raised? <==> IsSuccess(t) && mapper(t.value).Raised? && !NonFatal.Is(mapper(t.value).error)
    ensures r.Raised? ==> r.error == mapper(t.value).error
    ensures IsSuccess(t) && mapper(t.value).Returned? ==> r == Returned(Success(mapper(t.value).value))
    ensures IsSuccess(t) && mapper(t.value).Raised? && NonFatal.Is(mapper(t.value).error) ==>
              r.Returned? && IsFailure(r.value) && r.value.throwable == Some(mapper(t.value).error)
  {
    if IsFailure(t) then Returned(Record(None, t.throwable))
    else Fallible(() => mapper(t.value))
  }

  /** `flatMap`: a failure passes through; a success returns the mapper's
      `Try` itself, with the mapper guarded as in `fallible`. */
  function FlatMap<T, U>(t: Try<T>, mapper: Option<T> -> Outcome<Try<U>>): (r: Outcome<Try<U>>)
    ensures IsFailure(t) ==> r == Returned(Record(None, t.throwable))
    ensures IsSuccess(t) && mapper(t.value).Returned? ==> r == mapper(t.value)
    ensures r.Raised? <==> IsSuccess(t) && mapper(t.value).Raised? && !NonFatal.Is(mapper(t.value).error)
    ensures r.Raised? ==> r.error == mapper(t.value).error
    ensures IsSuccess(t) && mapper(t.value).Raised? && r.Returned? ==>
              r.value.throwable == Some(mapper(t.value).error)
  {
    if IsFailure(t) then Returned(Record(None, t.throwable))
    else match mapper(t.value)
      case Returned(u) => Returned(u)
      case Raised(e) => Catch(e)
  }

  /** `stream`: one element for a success, even a null one; none for a failure. */
  function Stream<T>(t: Try<T>): (r: seq<Option<T>>)
    ensures |r| == 1 <==> IsSuccess(t)
    ensures |r| == 0 <==> IsFailure(t)
    ensures forall x :: x in r ==> x == t.value
  {
    if IsFailure(t) then [] else [t.value]
  }

  /** `orElseGet`: the value of a success; for a failure, whatever the
      supplier does, with no guard around it. */
  function OrElseGet<T>(t: Try<T>, supplier: () -> Outcome<Option<T>>): (r: Outcome<Option<T>>)
    ensures IsSuccess(t) ==> r == Returned(t.value)
    ensures IsFailure(t) ==> r == supplier()
  {
    if IsSuccess(t) then Returned(t.value) else supplier()
  }

  /** `or`: a success is kept; a failure is replaced by the supplier's
      `Try`, with the supplier guarded as in `fallible`. */
  function Or<T>(t: Try<T>, supplier: () -> Outcome<Try<T>>): (r: Outcome<Try<T>>)
    ensures IsSuccess(t) ==> r == Returned(t)
    ensures IsFailure(t) && supplier().Returned? ==> r == supplier()
    ensures r.Raised? <==> IsFailure(t) && supplier().Raised? && !NonFatal.Is(supplier().error)
    ensures r.Raised? ==> r.error == supplier().error
    ensures IsFailure(t) && supplier().Raised? && r.Returned? ==>
              r.value.throwable == Some(supplier().error)
  {
    if IsSuccess(t) then Returned(t)
    else match supplier()
      case Returned(u) => Returned(u)
      case Raised(e) => Catch(e)
  }

  /** `equals`: a failure compares throwables only, a success compares values only. */
  function Equals<T(==)>(t: Try<T>, other: Try<T>): (r: bool)
    ensures IsFailure(t) ==> (r <==> other.throwable == t.throwable)
    ensures IsSuccess(t) ==> (r <==> other.value == t.value)
  {
    if IsFailure(t) then t.throwable == other.throwable else t.value == other.value
  }

  /** `equals` as evidently intended: same variant, then equal throwables
      or equal values. It agrees with `Equals` except where `Equals` lets a
      success of null equal a failure. */
  function EqualsIntended<T(==)>(t: Try<T>, other: Try<T>): (r: bool)
    ensures r ==> IsFailure(t) == IsFailure(other)
    ensures r ==> Equals(t, other) && Equals(other, t)
    ensures IsFailure(t) == IsFailure(other) ==> (r <==> Equals(t, other))
  {
    if IsFailure(t) then IsFailure(other) && t.throwable == other.throwable
    else IsSuccess(other) && t.value == other.value
  }

  /** On a success, `map` is `fallible` applied to the mapped value. */
  lemma MapIsFallible<T, U>(t: Try<T>, mapper: Option<T> -> Outcome<Option<U>>)
    requires IsSuccess(t)
    ensures Map(t, mapper) == Fallible(() => mapper(t.value))
  {
  }

  /** A failure's fields: the throwable is non-null, so the value is null. */
  lemma FailureHoldsNoValue<T>(t: Try<T>)
    requires IsFailure(t)
    ensures t.value.None? && t == Record(None, t.throwable)
  {
  }
}
