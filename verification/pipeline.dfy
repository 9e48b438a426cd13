/** Chains of `map` and `filter` calls, as in `Try.fallible(...).map(...)`:
    once a chain reaches a failure, every later step hands it on unchanged. */
module Pipeline {
  import opened Values
  import opened Throwables
  import opened Callbacks
  import FlatTry
  import Variants
  import Refinement

  /** One link of a chain. Every step keeps the element type `T`. */
  datatype Step<!T> =
    | MapStep(mapper: Option<T> -> Outcome<Option<T>>)
    | FilterStep(test: Option<T> -> Outcome<bool>)

  function FlatApply<T>(t: FlatTry.Try<T>, s: Step<T>): Outcome<FlatTry.Try<T>>
  {
    match s
    case MapStep(f) => FlatTry.Map(t, f)
    case FilterStep(p) => FlatTry.Filter(t, p)
  }

  function VariantApply<T>(t: Variants.Try<T>, s: Step<T>): Outcome<Variants.Try<T>>
  {
    match s
    case MapStep(f) => Variants.Map(t, f)
    case FilterStep(p) => Variants.Filter(t, p)
  }

  /** Run the steps in order on a flat `Try`; a propagated throwable stops the chain. */
  function FlatRun<T>(t: FlatTry.Try<T>, steps: seq<Step<T>>): Outcome<FlatTry.Try<T>>
    decreases |steps|
  {
    if steps == [] then Returned(t)
    else match FlatApply(t, steps[0])
      case Raised(e) => Raised(e)
      case Returned(t') => FlatRun(t', steps[1..])
  }

  /** Run the steps in order on a two-class `Try`. */
  function VariantRun<T>(t: Variants.Try<T>, steps: seq<Step<T>>): Outcome<Variants.Try<T>>
    decreases |steps|
  {
    if steps == [] then Returned(t)
    else match VariantApply(t, steps[0])
      case Raised(e) => Raised(e)
      case Returned(t') => VariantRun(t', steps[1..])
  }

  /** A failure skips every step of a chain and comes out as it went in. */
  lemma {:induction false} FlatFailureShortCircuits<T>(t: FlatTry.Try<T>, steps: seq<Step<T>>)
    requires FlatTry.IsFailure(t)
    ensures FlatRun(t, steps) == Returned(t)
    decreases |steps|
  {
    if steps != [] {
      FlatTry.FailureHoldsNoValue(t);
      assert FlatApply(t, steps[0]) == Returned(t);
      FlatFailureShortCircuits(t, steps[1..]);
    }
  }

  /** A `Failure` skips every step of a chain and comes out as it went in. */
  lemma {:induction false} VariantFailureShortCircuits<T>(t: Variants.Try<T>, steps: seq<Step<T>>)
    requires t.Failure?
    ensures VariantRun(t, steps) == Returned(t)
    decreases |steps|
  {
    if steps != [] {
      assert VariantApply(t, steps[0]) == Returned(t);
      VariantFailureShortCircuits(t, steps[1..]);
    }
  }

  /** A whole chain commutes with the abstraction of records. */
  lemma {:induction false} RunRefines<T>(t: FlatTry.Try<T>, steps: seq<Step<T>>)
    ensures Refinement.AbsOutcome(FlatRun(t, steps)) == VariantRun(Refinement.Abs(t), steps)
    decreases |steps|
  {
    if steps != [] {
      match steps[0] {
        case MapStep(f) => Refinement.MapRefines(t, f);
        case FilterStep(p) => Refinement.FilterRefines(t, p);
      }
      match FlatApply(t, steps[0]) {
        case Raised(_) =>
        case Returned(t') => RunRefines(t', steps[1..]);
      }
    }
  }
}
