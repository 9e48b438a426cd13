/** The throwables the core catches and builds: their classes, the part of
    the Java class hierarchy that `instanceof` consults, and object identity. */
module Throwables {
  import opened Values

  /** A throwable class. The JDK classes the core and its callers name are
      listed; `Custom` is any other class, given by its name and direct superclass. */
  datatype ClassName =
    | Throwable
    | Error
    | Exception
    | RuntimeException
    | VirtualMachineError
    | OutOfMemoryError
    | StackOverflowError
    | InternalError
    | UnknownError
    | ThreadDeath
    | LinkageError
    | NoClassDefFoundError
    | ExceptionInInitializerError
    | UnsatisfiedLinkError
    | AssertionError
    | IllegalArgumentException
    | NumberFormatException
    | NullPointerException
    | NoSuchElementException
    | UnsupportedOperationException
    | IllegalStateException
    | Custom(name: string, parent: ClassName)

  /** Distance from `Throwable` along the superclass chain. */
  function Depth(c: ClassName): nat
  {
    match c
    case Throwable => 0
    case Error | Exception => 1
    case RuntimeException | VirtualMachineError | ThreadDeath | LinkageError | AssertionError => 2
    case NumberFormatException => 4
    case Custom(_, p) => Depth(p) + 1
    case _ => 3
  }

  /** The direct superclass; the hierarchy is a tree rooted at `Throwable`. */
  function Super(c: ClassName): (r: Option<ClassName>)
    ensures r.None? <==> c == Throwable
    ensures r.Some? ==> Depth(r.value) < Depth(c)
  {
    match c
    case Throwable => None
    case Error | Exception => Some(Throwable)
    case RuntimeException => Some(Exception)
    case VirtualMachineError | ThreadDeath | LinkageError | AssertionError => Some(Error)
    case OutOfMemoryError | StackOverflowError | InternalError | UnknownError => Some(VirtualMachineError)
    case NoClassDefFoundError | ExceptionInInitializerError | UnsatisfiedLinkError => Some(LinkageError)
    case IllegalArgumentException | NullPointerException | NoSuchElementException
      | UnsupportedOperationException | IllegalStateException => Some(RuntimeException)
    case NumberFormatException => Some(IllegalArgumentException)
    case Custom(_, p) => Some(p)
  }

  /** `c` is `k` or a (transitive) subclass of `k`. */
  predicate IsSubclassOf(c: ClassName, k: ClassName)
    decreases Depth(c)
  {
    c == k || (Super(c).Some? && IsSubclassOf(Super(c).value, k))
  }

  lemma {:induction false} SubclassTransitive(a: ClassName, b: ClassName, c: ClassName)
    requires IsSubclassOf(a, b) && IsSubclassOf(b, c)
    ensures IsSubclassOf(a, c)
    decreases Depth(a)
  {
    if a != b {
      SubclassTransitive(Super(a).value, b, c);
    }
  }

  /** A throwable object: its runtime class and its identity. `Throwable`
      does not override `equals`, so two throwables are equal exactly when
      they are the same object. */
  datatype Err = Err(cls: ClassName, id: nat)

  /** Java's `e instanceof k`. */
  predicate InstanceOf(e: Err, k: ClassName)
  {
    IsSubclassOf(e.cls, k)
  }

  /** A throwable of class `c` freshly built with `new`, by the core or by
      the library code a callback stands for; its identity is not modelled. */
  function Thrown(c: ClassName): (e: Err)
    ensures InstanceOf(e, c)
  {
    Err(c, 0)
  }
}
