/** `TryInt.java`: `Try` specialised to a primitive `int`, where a failure
    has to store some int and stores 0. */
module TryInt {
  import opened Values
  import opened Throwables
  import opened Callbacks
  import NonFatal
  import FlatTry

  datatype TryInt = TryInt(value: Int32, throwable: Option<Err>)

  /** The private constructor taking a throwable. */
  function OfThrowable(e: Err): (r: TryInt)
    ensures r.value == 0 && Boxed(r) == FlatTry.Record(None, Some(e))
  {
    TryInt(0, Some(e))
  }

  /** The private constructor taking an int. */
  function OfValue(v: Int32): (r: TryInt)
    ensures Boxed(r) == FlatTry.Success(Some(v))
  {
    TryInt(v, None)
  }

  /** `TryInt.fallible`: run the int supplier once; capture what it throws
      unless it is fatal. */
  function Fallible(supplier: () -> Outcome<Int32>): (r: Outcome<TryInt>)
    ensures supplier().Returned? ==> r.Returned? && r.value.throwable.None? && r.value.value == supplier().value
    ensures r.Raised? <==> supplier().Raised? && !NonFatal.Is(supplier().error)
    ensures r.Raised? ==> r.error == supplier().error
    ensures supplier().Raised? && NonFatal.Is(supplier().error) ==> r == Returned(OfThrowable(supplier().error))
    ensures r.Returned? && r.value.throwable.Some? ==>
              r.value.value == 0 && supplier() == Raised(r.value.throwable.value)
  {
    match supplier()
    case Returned(v) => Returned(OfValue(v))
    case Raised(e) => if NonFatal.Is(e) then Returned(OfThrowable(e)) else Raised(e)
  }

  /** The boxed view: the `Try<Integer>` a `TryInt` stands for. */
  function Boxed(t: TryInt): FlatTry.Try<Int32>
  {
    match t.throwable
    case None => FlatTry.Success(Some(t.value))
    case Some(e) => FlatTry.Record(None, Some(e))
  }

  /** `TryInt.fallible` is `Try.fallible` on the boxed supplier. */
  lemma FallibleIsBoxedFallible(supplier: () -> Outcome<Int32>)
    ensures Then(Fallible(supplier), (t: TryInt) => Returned(Boxed(t)))
            == FlatTry.Fallible(() => Then(supplier(), (v: Int32) => Returned(Some(v))))
  {
  }
}
