# Try: a result wrapper with a fatal/non-fatal guard, in Dafny

The Java library models the outcome of a computation that may throw. A
`Try` is a success holding a value, which may be null, or a failure holding a
`Throwable`. Several combinators run caller code. In `fallible`, `map`,
`flatMap` and `or`, a classifier (`NonFatal.is`) guards that code when it
throws. Non-fatal errors are captured as a failure. Fatal ones
(`VirtualMachineError`, `ThreadDeath`, `LinkageError` and their subclasses)
are rethrown unchanged. The predicate of `filter` and the supplier of
`orElseGet` are not guarded: whatever they throw propagates.

The repository holds the same union in two encodings, and both are modelled:

- `FlatTry` is `Try.java`: one record with a nullable `value` and a nullable
  `throwable`. The private constructor asserts the two are never both
  non-null. The subset type `FlatTry.Try` is that assertion, so Dafny checks
  it at every place a record is built.
- `Variants` is `Success.java` and `Failure.java`: a datatype with one
  alternative per class. Each combinator is the pair of overrides, chosen by
  the receiver's class.

`Refinement` gives an abstraction `Abs` from records to the two-class
datatype. It proves that `Abs` commutes with every shared operation except
`equals`, where the encodings differ. It also proves the three places where
the encodings differ:

- The flat `equals` is asymmetric.
- `new Failure<>(null)` is accepted, while `Try.failure(null)` throws.
- `invert` exists only in the two-class design.

`Pipeline` lifts the refinement to whole chains of `map`/`filter` calls whose
steps keep the element type. It proves that a failure short-circuits such a
chain. `TryInt` is the
int-specialised `fallible`. `Scenarios` replays the two chains of
`TryTest.java`.

How things are represented:

- Java `null` is `Values.Option.None`.
- A throwable is `Throwables.Err(cls, id)`. Here `cls` is its runtime class
  in a model of the JDK class tree, so `instanceof` covers subclasses. `id`
  is its object identity. Throwable equality is modelled as identity, which
  is what `Throwable.equals` is.
- A callback is a Dafny function value returning
  `Callbacks.Outcome<U> = Returned(U) | Raised(Err)`.
- Combinators return `Outcome<Try<U>>`. There, `Raised` means the throwable
  propagates to the caller.
- The consumers of `ifSuccess` and `ifSuccessOrElse` are modelled only by
  which callback fires (`Callbacks.Fired`).

Where the source does not compile, the model follows its evident intent:

- `Try` is declared `final` at `Try.java:12`, yet `Success` and `Failure`
  extend it.
- `Success.java` and `Failure.java` statically import an `isNonFatal` that
  `NonFatal` does not declare. `NonFatal` has only the instance method `is`.
- `TryInt.java:25` calls an undeclared `nonFatal`.

Every classifier call is therefore modelled as the one predicate
`NonFatal.Is`. The private `Try.nonFatal` (`Try.java:57-61`) has the same
body, so it is the same predicate. `Variants.Fallible` is `Try.fallible` as
the two-class design uses it (`Success.map` calls it). It returns a `Success`
or a `Failure` instead of a record.

## Model

| member | source | states |
|---|---|---|
| `NonFatal.Is` | src/main/java/com/jubobs/util/NonFatal.java:8-12 | `is`, and the private `Try.nonFatal` with the same body, hold exactly for throwables whose superclass chain reaches none of `VirtualMachineError`, `ThreadDeath` and `LinkageError` |
| `NonFatal.FamilyMatchesInstanceOf` | src/main/java/com/jubobs/util/NonFatal.java:9-11 | each of the three `instanceof` tests holds exactly for the classes whose superclass chain first reaches that fatal root, so the three families are disjoint |
| `NonFatal.Classification` | src/main/java/com/jubobs/util/NonFatal.java:8-12 | `is` is true exactly for throwables outside the three fatal families, and false exactly for instances of one of the three roots |
| `NonFatal.FatalIsInherited` | src/main/java/com/jubobs/util/NonFatal.java:9-11 | an instance of a class whose instances are fatal is itself fatal, at any depth of subclassing |
| `NonFatal.VirtualMachineErrorsAreFatal` | src/main/java/com/jubobs/util/NonFatal.java:9 | every instance of a subclass of `VirtualMachineError`, direct or not, is fatal |
| `NonFatal.ThreadDeathIsFatal` | src/main/java/com/jubobs/util/NonFatal.java:10 | every `ThreadDeath` is fatal |
| `NonFatal.LinkageErrorsAreFatal` | src/main/java/com/jubobs/util/NonFatal.java:11 | every instance of a subclass of `LinkageError`, direct or not, is fatal |
| `NonFatal.JdkFatalErrors` | src/main/java/com/jubobs/util/NonFatal.java:9-11 | `OutOfMemoryError`, `StackOverflowError`, `NoClassDefFoundError` and `ThreadDeath` are fatal |
| `NonFatal.PlainErrorsAreRecoverable` | src/main/java/com/jubobs/util/NonFatal.java:9-11 | `Error` itself and `AssertionError` are not fatal: only the three families are |
| `NonFatal.CoreExceptionsAreRecoverable` | src/main/java/com/jubobs/util/NonFatal.java:9-11 | the exceptions the core builds itself, and `NumberFormatException`, are non-fatal |
| `FlatTry.IsFailure` | src/main/java/com/jubobs/util/Try.java:63-65 | a record is a failure when its throwable is non-null, and then its value is null |
| `FlatTry.Catch` | src/main/java/com/jubobs/util/Try.java:23-29 | the catch clause of `fallible`, `flatMap` and `or`: a throwable propagates unchanged exactly when it is fatal; otherwise it becomes a failure holding exactly it |
| `FlatTry.IsSuccess` | src/main/java/com/jubobs/util/Try.java:63-69 | `isSuccess()` is always the negation of `isFailure()` |
| `FlatTry.FailureHoldsNoValue` | src/main/java/com/jubobs/util/Try.java:41-47 | by the constructor's assertion, a record with a throwable has a null value |
| `FlatTry.Success` | src/main/java/com/jubobs/util/Try.java:37-39 | `success` accepts any value, null included, and yields a success holding it |
| `FlatTry.Failure` | src/main/java/com/jubobs/util/Try.java:32-35 | `failure` throws a `NullPointerException` exactly when the throwable is null; otherwise it yields a failure holding that throwable |
| `FlatTry.Fallible` | src/main/java/com/jubobs/util/Try.java:18-30 | the result is a success exactly when the supplier returns, and it holds the supplier's value; a non-fatal throwable becomes a failure holding exactly it; only a fatal throwable propagates, and it propagates unchanged |
| `FlatTry.ToOptional` | src/main/java/com/jubobs/util/Try.java:49-55 | empty for a failure; for a success it is the value, so it is empty for a success of null too |
| `FlatTry.IfSuccess` | src/main/java/com/jubobs/util/Try.java:71-75 | the action fires, on the value, exactly for a success; the failsafe never fires |
| `FlatTry.IfSuccessOrElse` | src/main/java/com/jubobs/util/Try.java:77-83 | the action fires, on the value, exactly for a success; otherwise the failsafe fires |
| `FlatTry.Filter` | src/main/java/com/jubobs/util/Try.java:85-92 | a failure is returned without consulting the predicate; a success is returned exactly when the predicate returns true; any other result is a `NoSuchElementException` failure; a throw from the predicate propagates unguarded |
| `FlatTry.Map` | src/main/java/com/jubobs/util/Try.java:94-103 | a failure passes through with the same throwable and the mapper unused; a success maps to a success of the mapper's value, a failure of its non-fatal throwable, or propagates its fatal one |
| `FlatTry.MapIsFallible` | src/main/java/com/jubobs/util/Try.java:100-102 | on a success, `map(f)` equals `fallible(() -> f(value))` |
| `FlatTry.FlatMap` | src/main/java/com/jubobs/util/Try.java:106-125 | a failure passes through unchanged; on a success the mapper's `Try` is the result itself, not wrapped again; a non-fatal throw becomes a failure holding it, and only a fatal one propagates |
| `FlatTry.Stream` | src/main/java/com/jubobs/util/Try.java:127-133 | one element, the value, for a success even when it is null; none for a failure |
| `FlatTry.OrElseGet` | src/main/java/com/jubobs/util/Try.java:135-139 | a success yields its value and the supplier is unused; a failure yields exactly what the supplier does, throws included, with no guard |
| `FlatTry.Or` | src/main/java/com/jubobs/util/Try.java:141-158 | a success is returned and the supplier is unused; a failure yields the supplier's `Try`; a non-fatal throw becomes a failure holding it, and only a fatal one propagates |
| `FlatTry.Equals` | src/main/java/com/jubobs/util/Try.java:160-174 | a failure receiver compares only throwables, a success receiver only values |
| `FlatTry.EqualsIntended` | src/main/java/com/jubobs/util/Try.java:171-173 | the corrected `equals` demands the same variant first; it implies `Equals` both ways and agrees with it whenever the variants match |
| `Variants.IsFailure` | src/main/java/com/jubobs/util/Failure.java:25-28 | `isFailure` holds exactly for a `Failure` |
| `Variants.IsSuccess` | src/main/java/com/jubobs/util/Success.java:32-35 | `isSuccess` is the negation of `isFailure` |
| `Variants.Catch` | src/main/java/com/jubobs/util/Success.java:68-74 | the catch clause of `Success.flatMap` and `Failure.or`: a throwable propagates unchanged exactly when it is fatal; otherwise it becomes `new Failure<>(e)` |
| `Variants.Fallible` | src/main/java/com/jubobs/util/Try.java:18-30 | a `Success` of the supplier's value when it returns, a `Failure` of exactly its non-fatal throwable, and propagation of a fatal throwable, unchanged |
| `Variants.ToOptional` | src/main/java/com/jubobs/util/Success.java:22-25 | `ofNullable(value)` on a `Success`; a present result only ever comes from a `Success` of that value |
| `Variants.IfSuccess` | src/main/java/com/jubobs/util/Success.java:37-40 | the action fires, on the value, exactly for a `Success`; the failsafe never fires |
| `Variants.IfSuccessOrElse` | src/main/java/com/jubobs/util/Success.java:42-45 | the action fires exactly for a `Success`, the failsafe exactly for a `Failure` |
| `Variants.Filter` | src/main/java/com/jubobs/util/Success.java:47-55 | a `Success` is kept exactly when the predicate returns true and otherwise becomes a `NoSuchElementException` failure; a `Failure` is kept; predicate throws propagate |
| `Variants.Map` | src/main/java/com/jubobs/util/Success.java:57-60 | a `Success` maps to a `Success` of the mapper's value, a `Failure` of its non-fatal throwable, or propagates its fatal one; a `Failure` is returned with the same throwable |
| `Variants.MapIsFallible` | src/main/java/com/jubobs/util/Success.java:58-60 | `Success.map(f)` equals `Try.fallible(() -> f(value))` |
| `Variants.FlatMap` | src/main/java/com/jubobs/util/Success.java:62-75 | on a `Success` the mapper's `Try` is the result itself; a non-fatal throw gives a `Failure` of that same throwable; only a fatal one propagates |
| `Variants.Stream` | src/main/java/com/jubobs/util/Success.java:77-80 | exactly the one element `value` for a `Success`; empty for a `Failure` |
| `Variants.OrElseGet` | src/main/java/com/jubobs/util/Failure.java:68-71 | a `Failure` yields exactly what the supplier does, throws included, unguarded; a `Success` yields its value |
| `Variants.Or` | src/main/java/com/jubobs/util/Failure.java:73-87 | a `Failure` yields the supplier's `Try`; a non-fatal throw gives a `Failure` of it; only a fatal one propagates; a `Success` is kept |
| `Variants.Invert` | src/main/java/com/jubobs/util/Success.java:92-95 | the inverse is a success exactly when the receiver is a failure; a `Success` inverts to an `UnsupportedOperationException` failure; a `Failure` exposes its throwable as the value |
| `Variants.InvertFailure` | src/main/java/com/jubobs/util/Failure.java:89-92 | `Failure(e).invert()` is `Success(e)`, null included |
| `Variants.Equals` | src/main/java/com/jubobs/util/Success.java:97-109 | equal only when of the same class, `Success`es then by value and `Failure`s by throwable |
| `Variants.EqualsIsIdentity` | src/main/java/com/jubobs/util/Failure.java:104-105 | the two-class `equals` is exactly structural equality, hence symmetric |
| `Variants.FailureEqualsOnlyFailures` | src/main/java/com/jubobs/util/Failure.java:94-106 | a `Failure` equals only a `Failure` of the same throwable; it never equals a `Success`, in either direction |
| `Variants.SuccessQueries` | src/main/java/com/jubobs/util/Success.java:27-45 | a `Success` reports success, not failure, and runs only the action, on its value |
| `Variants.FailureQueries` | src/main/java/com/jubobs/util/Failure.java:25-42 | a `Failure` reports failure, not success; `ifSuccess` does nothing and `ifSuccessOrElse` runs only the failsafe |
| `Variants.SuccessViews` | src/main/java/com/jubobs/util/Success.java:22-80 | a `Success`'s optional is its value and its stream has exactly one element |
| `Variants.FailureViews` | src/main/java/com/jubobs/util/Failure.java:20-66 | a `Failure`'s optional is empty and its stream has no element |
| `Variants.FailurePassesThrough` | src/main/java/com/jubobs/util/Failure.java:44-61 | `filter`, `map` and `flatMap` on a `Failure` return it with the same throwable, whatever function is passed |
| `Variants.SuccessIgnoresFallbacks` | src/main/java/com/jubobs/util/Success.java:82-90 | `orElseGet` on a `Success` yields its value and `or` yields the `Success`, whatever the supplier |
| `Refinement.Abs` | src/main/java/com/jubobs/util/Try.java:63-69 | a record abstracts to a `Failure` exactly when its throwable is non-null, keeping that throwable; any other record abstracts to a `Success` of its value |
| `Refinement.Rep` | src/main/java/com/jubobs/util/Failure.java:16-18 | every two-class `Try` has a record except a `Failure` of null |
| `Refinement.RepAbs` | src/main/java/com/jubobs/util/Try.java:41-47 | the abstraction of a record loses nothing: the record is recovered from it |
| `Refinement.AbsRep` | src/main/java/com/jubobs/util/Success.java:18-20 | every `Success`, and every `Failure` of a non-null throwable, is the abstraction of a record |
| `Refinement.FactoriesRefine` | src/main/java/com/jubobs/util/Try.java:32-39 | `success` and `failure` of a non-null throwable abstract to the corresponding class |
| `Refinement.FallibleRefines` | src/main/java/com/jubobs/util/Try.java:21-29 | `fallible` builds the same outcome in both encodings |
| `Refinement.QueriesRefine` | src/main/java/com/jubobs/util/Try.java:49-83 | `isFailure`, `isSuccess`, `toOptional`, `stream`, `ifSuccess` and `ifSuccessOrElse` agree with their overrides on the abstraction |
| `Refinement.FilterRefines` | src/main/java/com/jubobs/util/Try.java:85-92 | `filter` commutes with the abstraction |
| `Refinement.MapRefines` | src/main/java/com/jubobs/util/Try.java:94-103 | `map` commutes with the abstraction |
| `Refinement.FlatMapRefines` | src/main/java/com/jubobs/util/Try.java:106-125 | `flatMap` commutes with the abstraction when the two-class mapper returns the abstraction of the flat mapper's record |
| `Refinement.OrElseGetRefines` | src/main/java/com/jubobs/util/Try.java:135-139 | `orElseGet` gives the same outcome in both encodings |
| `Refinement.OrRefines` | src/main/java/com/jubobs/util/Try.java:141-158 | `or` commutes with the abstraction when the suppliers correspond |
| `Refinement.EqualsAgainstAbstraction` | src/main/java/com/jubobs/util/Try.java:170-173 | the flat `equals` holds exactly when the two-class `equals` of the abstractions does, or when the receiver is a success of null and the argument any failure |
| `Refinement.EqualsAsymmetry` | src/main/java/com/jubobs/util/Try.java:171-173 | a success of null equals every failure, but no failure equals it back; the two-class `equals` and the corrected `EqualsIntended` reject both directions |
| `Refinement.NonNullSuccessNeverEqualsFailure` | src/main/java/com/jubobs/util/Try.java:172-173 | a success of a non-null value and a failure are unequal in both directions |
| `Refinement.EqualsIntendedAgainstAbstraction` | src/main/java/com/jubobs/util/Success.java:103-108 | the corrected flat `equals` is the two-class `equals` of the abstractions, which is record equality |
| `Refinement.NullThrowable` | src/main/java/com/jubobs/util/Try.java:32-35 | `Try.failure(null)` throws a `NullPointerException`; `new Failure<>(null)` is a failure no record abstracts to |
| `Refinement.InvertOfRecord` | src/main/java/com/jubobs/util/Failure.java:89-92 | inverting the abstraction of a record is a success exactly for a failed record, and exposes its non-null throwable; only `new Failure<>(null)` inverts to a success of null |
| `Pipeline.FlatFailureShortCircuits` | src/main/java/com/jubobs/util/Try.java:85-103 | a failed record passes through any chain of `map`/`filter` steps that keep the element type unchanged, and no step's function is used |
| `Pipeline.VariantFailureShortCircuits` | src/main/java/com/jubobs/util/Failure.java:44-54 | a `Failure` passes through any chain of `map`/`filter` steps that keep the element type unchanged |
| `Pipeline.RunRefines` | src/main/java/com/jubobs/util/Try.java:94-103 | a whole chain of `map`/`filter` steps that keep the element type commutes with the abstraction |
| `TryInt.OfThrowable` | src/main/java/com/jubobs/util/TryInt.java:11-14 | the constructor from a throwable stores it with the value 0; boxed, it is a failure holding that throwable |
| `TryInt.OfValue` | src/main/java/com/jubobs/util/TryInt.java:16-19 | the constructor from an int stores it with a null throwable; boxed, it is a success of that int |
| `TryInt.Fallible` | src/main/java/com/jubobs/util/TryInt.java:21-31 | a returned int is stored with a null throwable; a non-fatal throw is stored by the throwable constructor, as exactly that throwable with value 0; only a fatal throw propagates, unchanged |
| `TryInt.FallibleIsBoxedFallible` | src/main/java/com/jubobs/util/TryInt.java:21-31 | seen boxed, `TryInt.fallible` is `Try.fallible` on the boxed supplier |
| `Scenarios.ParseFailureStaysFailure` | src/test/java/com/jubobs/util/TryTest.java:9-15 | `fallible(() -> parseInt("foo")).map(i -> i + 3)` is a failure holding the parser's exception |
| `Scenarios.ParseSuccessMaps` | src/test/java/com/jubobs/util/TryTest.java:18-24 | `fallible(() -> parseInt("123")).map(i -> i + 3)` equals `success(126)` under both `equals` and in the two-class encoding |

## Findings

| source | as written | input that shows it | evidently intended | confidence | as-written member | corrected member |
|---|---|---|---|---|---|---|
| src/main/java/com/jubobs/util/Try.java:171-173 | a failure receiver compares only throwables and a success receiver only values, so `equals` is not symmetric | `Try.success(null).equals(Try.failure(e))` is true, while `Try.failure(e).equals(Try.success(null))` is false | same variant first, then equal throwables or values, as `Success.equals` and `Failure.equals` do | not executed; high | `FlatTry.Equals`, shown by `Refinement.EqualsAsymmetry` | `FlatTry.EqualsIntended` |

`FlatTry.Equals` models the code as written. `Refinement.EqualsAsymmetry`
exhibits the asymmetric pair. `Refinement.EqualsIntendedAgainstAbstraction`
proves that the corrected `FlatTry.EqualsIntended` is record equality, and so
an equivalence.

## Left out

- `toString` and the exception message texts are left out. Only the class of
  each exception the core builds is kept, for example `NoSuchElementException`
  for `filter` and `UnsupportedOperationException` for `invert`.
- `hashCode` is left out. It is library hashing with no stated contract.
- `Objects.requireNonNull` on function arguments is left out. So are the
  `this == obj` shortcut, unchecked casts and generic variance. Callbacks are
  total Dafny functions, so they are never null. `equals` compares two `Try`s
  of one element type. A supplier of `or` or mapper of `flatMap` that returns
  a null `Try` is not modelled.
- Object identity of exceptions the core builds is left out.
  `Throwables.Thrown` gives each such exception the identity 0. Two separately
  built `NoSuchElementException`s are therefore equal in the model but
  distinct objects in Java.
- The side effects of `Consumer` and `Runnable` callbacks are left out.
  `ifSuccess` and `ifSuccessOrElse` record only which callback fires.
- Streams are modelled as sequences of length 0 or 1; their laziness is left
  out.
- `Integer.parseInt` is left out. The suppliers of `TryTest.java` are given
  by their outcomes: 123, or a `NumberFormatException`.
- Throwable equality is modelled as identity. A user subclass that
  overrides `equals` is not modelled, so `Objects.equals` on its instances
  may differ in Java.
- `Objects.equals` on values is modelled as Dafny equality, standing in for
  the element type's own `equals`.
- The JVM's class tree is modelled only for the JDK throwables the model
  names, plus user subclasses (`Throwables.ClassName.Custom`).
- The message of the assertion at `Try.java:42-43` says "both be null",
  while its condition forbids both being non-null. The condition is modelled;
  the message is not.
- The private `Try.nonFatal` is not a separate member. It has the same body
  as `NonFatal.is`, and every classifier call uses `NonFatal.Is`.
- Pipeline.FlatFailureShortCircuits: covers chains whose steps keep the
  element type, because a `Step` has one type parameter. A chain whose `map`
  changes the type, such as `map(i -> i.toString()).filter(p)`, is covered
  only step by step, by `FlatTry.Map` and `FlatTry.Filter`.
- Pipeline.VariantFailureShortCircuits: covers chains whose steps keep the
  element type. A chain that changes type is covered only step by step, by
  `Variants.FailurePassesThrough`.
- Pipeline.RunRefines: covers chains whose steps keep the element type. A
  chain that changes type is covered only step by step, by
  `Refinement.MapRefines` and `Refinement.FilterRefines`.
- FlatTry.Filter: a throw from the value's `toString` while the
  `NoSuchElementException` message is built (`Try.java:90`) is not modelled.
  In Java it would leave `filter` unguarded. In the model a false predicate
  always gives a failure, because messages are left out.
- Variants.Filter: a throw from the value's `toString` while the
  `NoSuchElementException` message is built (`Success.java:52`) is not
  modelled, for the same reason as in `FlatTry.Filter`.
