/** The flat record of `Try.java` against the two classes of `Success.java`
    and `Failure.java`: an abstraction from the first to the second that
    commutes with every shared operation, and the three places where the
    encodings part ways. */
module Refinement {
  import opened Values
  import opened Throwables
  import opened Callbacks
  import FlatTry
  import Variants

  /** A record with a non-null throwable is a `Failure`; any other is a `Success`. */
  function Abs<T>(t: FlatTry.Try<T>): (h: Variants.Try<T>)
    ensures h.Failure? <==> FlatTry.IsFailure(t)
    ensures h.Failure? ==> h.throwable == t.throwable && h.throwable.Some?
    ensures h.Success? ==> h.value == t.value
  {
    if t.throwable.Some? then Variants.Failure(t.throwable) else Variants.Success(t.value)
  }

  function AbsOutcome<T>(o: Outcome<FlatTry.Try<T>>): Outcome<Variants.Try<T>>
  {
    match o
    case Returned(t) => Returned(Abs(t))
    case Raised(e) => Raised(e)
  }

  /** The record for a two-class `Try`; a `Failure` of null has none. */
  function Rep<T>(h: Variants.Try<T>): (r: Option<FlatTry.Try<T>>)
    ensures r.None? <==> h == Variants.Failure(None)
  {
    match h
    case Success(v) => Some(FlatTry.Record(v, None))
    case Failure(None) => None
    case Failure(Some(e)) => Some(FlatTry.Record(None, Some(e)))
  }

  /** `Abs` loses nothing: the record comes back from its abstraction. */
  lemma RepAbs<T>(t: FlatTry.Try<T>)
    ensures Rep(Abs(t)) == Some(t)
  {
  }

  /** Every two-class `Try` except a `Failure` of null is the abstraction of a record. */
  lemma AbsRep<T>(h: Variants.Try<T>)
    requires h != Variants.Failure(None)
    ensures Rep(h).Some? && Abs(Rep(h).value) == h
  {
  }

  // ---------------------------------------------------------------------
  // Each shared operation commutes with the abstraction.

  lemma FactoriesRefine<T>(v: Option<T>, e: Err)
    ensures Abs(FlatTry.Success(v)) == Variants.Success(v)
    ensures AbsOutcome(FlatTry.Failure<T>(Some(e))) == Returned(Variants.Failure(Some(e)))
  {
  }

  lemma FallibleRefines<T>(supplier: () -> Outcome<Option<T>>)
    ensures AbsOutcome(FlatTry.Fallible(supplier)) == Variants.Fallible(supplier)
  {
  }

  lemma QueriesRefine<T>(t: FlatTry.Try<T>)
    ensures FlatTry.IsFailure(t) == Variants.IsFailure(Abs(t))
    ensures FlatTry.IsSuccess(t) == Variants.IsSuccess(Abs(t))
    ensures FlatTry.ToOptional(t) == Variants.ToOptional(Abs(t))
    ensures FlatTry.Stream(t) == Variants.Stream(Abs(t))
    ensures FlatTry.IfSuccess(t) == Variants.IfSuccess(Abs(t))
    ensures FlatTry.IfSuccessOrElse(t) == Variants.IfSuccessOrElse(Abs(t))
  {
  }

  lemma FilterRefines<T>(t: FlatTry.Try<T>, test: Option<T> -> Outcome<bool>)
    ensures AbsOutcome(FlatTry.Filter(t, test)) == Variants.Filter(Abs(t), test)
  {
  }

  lemma MapRefines<T, U>(t: FlatTry.Try<T>, mapper: Option<T> -> Outcome<Option<U>>)
    ensures AbsOutcome(FlatTry.Map(t, mapper)) == Variants.Map(Abs(t), mapper)
  {
  }

  /** The mapper of the flat `flatMap` returns records; its two-class
      counterpart returns their abstractions. */
  lemma FlatMapRefines<T, U>(t: FlatTry.Try<T>, mapper: Option<T> -> Outcome<FlatTry.Try<U>>)
    ensures AbsOutcome(FlatTry.FlatMap(t, mapper)) == Variants.FlatMap(Abs(t), x => AbsOutcome(mapper(x)))
  {
  }

  lemma OrElseGetRefines<T>(t: FlatTry.Try<T>, supplier: () -> Outcome<Option<T>>)
    ensures FlatTry.OrElseGet(t, supplier) == Variants.OrElseGet(Abs(t), supplier)
  {
  }

  lemma OrRefines<T>(t: FlatTry.Try<T>, supplier: () -> Outcome<FlatTry.Try<T>>)
    ensures AbsOutcome(FlatTry.Or(t, supplier)) == Variants.Or(Abs(t), () => AbsOutcome(supplier()))
  {
  }

  // ---------------------------------------------------------------------
  // Where the encodings diverge.

  /** The flat `equals` holds exactly when the abstractions are equal, or
      when the receiver is a success of null and the argument any failure. */
  lemma EqualsAgainstAbstraction<T>(t: FlatTry.Try<T>, other: FlatTry.Try<T>)
    ensures FlatTry.Equals(t, other) <==>
              Variants.Equals(Abs(t), Abs(other))
              || (FlatTry.IsSuccess(t) && t.value.None? && FlatTry.IsFailure(other))
  {
  }

  /** The intended `equals` on records is the two-class `equals` of their
      abstractions, hence an equivalence. */
  lemma EqualsIntendedAgainstAbstraction<T>(t: FlatTry.Try<T>, other: FlatTry.Try<T>)
    ensures FlatTry.EqualsIntended(t, other) <==> Variants.Equals(Abs(t), Abs(other))
    ensures FlatTry.EqualsIntended(t, other) <==> t == other
  {
  }

  /** A success of null equals every failure, but no failure equals it, and
      the two-class `equals` tells them apart both ways. */
  lemma EqualsAsymmetry<T>(failure: FlatTry.Try<T>)
    requires FlatTry.IsFailure(failure)
    ensures FlatTry.Equals(FlatTry.Success(None), failure)
    ensures !FlatTry.Equals(failure, FlatTry.Success(None))
    ensures !Variants.Equals(Abs(FlatTry.Success(None)), Abs(failure))
    ensures !Variants.Equals(Abs(failure), Abs(FlatTry.Success(None)))
    ensures !FlatTry.EqualsIntended(FlatTry.Success(None), failure)
    ensures !FlatTry.EqualsIntended(failure, FlatTry.Success(None))
  {
  }

  /** A success of a non-null value never equals a failure, in either encoding. */
  lemma NonNullSuccessNeverEqualsFailure<T>(v: T, failure: FlatTry.Try<T>)
    requires FlatTry.IsFailure(failure)
    ensures !FlatTry.Equals(FlatTry.Success(Some(v)), failure)
    ensures !FlatTry.Equals(failure, FlatTry.Success(Some(v)))
  {
  }

  /** `Try.failure(null)` throws, while `new Failure<>(null)` builds a
      failure that no record abstracts to. */
  lemma NullThrowable<T>()
    ensures FlatTry.Failure<T>(None) == Raised(Thrown(NullPointerException))
    ensures Variants.IsFailure(Variants.Try<T>.Failure(None))
    ensures forall t: FlatTry.Try<T> :: Abs(t) != Variants.Failure(None)
  {
  }

  /** Only the two-class design can invert; inverting the abstraction of a
      record exposes a non-null throwable, never the `Success(null)` that
      inverting `new Failure<>(null)` gives. */
  lemma InvertOfRecord<T>(t: FlatTry.Try<T>)
    ensures Variants.IsSuccess(Variants.Invert(Abs(t))) <==> FlatTry.IsFailure(t)
    ensures FlatTry.IsFailure(t) ==> Variants.Invert(Abs(t)) == Variants.Success(t.throwable)
    ensures Variants.Invert(Abs(t)) != Variants.Success(None)
    ensures Variants.Invert(Variants.Try<T>.Failure(None)) == Variants.Success(None)
  {
  }
}
