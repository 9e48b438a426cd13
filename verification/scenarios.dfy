/** The two chains `TryTest.java` checks, with `Integer.parseInt` replaced
    by what it does on its two inputs. */
module Scenarios {
  import opened Values
  import opened Throwables
  import opened Callbacks
  import FlatTry
  import Variants

  /** `Integer.parseInt("foo")` throws a `NumberFormatException`. */
  function ParseFoo(): Outcome<Option<Int32>>
  {
    Raised(Thrown(NumberFormatException))
  }

  /** `Integer.parseInt("123")` returns 123. */
  function Parse123(): Outcome<Option<Int32>>
  {
    Returned(Some(123))
  }

  /** `i -> i + 3` on an `Integer`: unboxing null throws, the sum wraps. */
  function PlusThree(i: Option<Int32>): Outcome<Option<Int32>>
  {
    match i
    case None => Raised(Thrown(NullPointerException))
    case Some(n) => Returned(Some(Wrap(n + 3)))
  }

  /** `fallible(() -> parseInt("foo")).map(i -> i + 3)` is a failure,
      holding the parser's exception. */
  lemma ParseFailureStaysFailure()
    ensures var r := Then(FlatTry.Fallible(ParseFoo), (t: FlatTry.Try<Int32>) => FlatTry.Map(t, PlusThree));
            r.Returned? && FlatTry.IsFailure(r.value) && r.value.throwable == Some(Thrown(NumberFormatException))
  {
  }

  /** `fallible(() -> parseInt("123")).map(i -> i + 3)` equals `success(126)`,
      in both encodings. */
  lemma ParseSuccessMaps()
    ensures var r := Then(FlatTry.Fallible(Parse123), (t: FlatTry.Try<Int32>) => FlatTry.Map(t, PlusThree));
            r.Returned? && FlatTry.Equals(r.value, FlatTry.Success(Some(126)))
              && FlatTry.EqualsIntended(r.value, FlatTry.Success(Some(126)))
    ensures var r := Then(Variants.Fallible(Parse123), (t: Variants.Try<Int32>) => Variants.Map(t, PlusThree));
            r == Returned(Variants.Success(Some(126)))
  {
  }
}
