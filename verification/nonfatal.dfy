/** The fatal/non-fatal classification of throwables. */
module NonFatal {
  import opened Values
  import opened Throwables

  /** `NonFatal.is`: a throwable may be captured as data unless it is an
      instance of `VirtualMachineError`, `ThreadDeath` or `LinkageError`. */
  function Is(e: Err): (r: bool)
    ensures r <==> FamilyOf(e.cls) == Ordinary
  {
    FamilyMatchesInstanceOf(e.cls);
    !(InstanceOf(e, VirtualMachineError) || InstanceOf(e, ThreadDeath) || InstanceOf(e, LinkageError))
  }

  /** The fatal family a class belongs to, if any. */
  datatype Family = VirtualMachine | Death | Linkage | Ordinary

  /** Reference classification: walk the superclass chain up to the first
      of the three fatal roots, or to `Throwable`. */
  function FamilyOf(c: ClassName): Family
    decreases Depth(c)
  {
    if c == VirtualMachineError then VirtualMachine
    else if c == ThreadDeath then Death
    else if c == LinkageError then Linkage
    else match Super(c)
      case None => Ordinary
      case Some(p) => FamilyOf(p)
  }

  /** The three `instanceof` tests partition the classes exactly as the
      walk up the superclass chain does. */
  lemma {:induction false} FamilyMatchesInstanceOf(c: ClassName)
    ensures FamilyOf(c) == VirtualMachine <==> IsSubclassOf(c, VirtualMachineError)
    ensures FamilyOf(c) == Death <==> IsSubclassOf(c, ThreadDeath)
    ensures FamilyOf(c) == Linkage <==> IsSubclassOf(c, LinkageError)
    decreases Depth(c)
  {
    if Super(c).Some? {
      FamilyMatchesInstanceOf(Super(c).value);
    }
  }

  /** `Is` holds exactly for throwables outside the three fatal families. */
  lemma Classification(e: Err)
    ensures Is(e) <==> FamilyOf(e.cls) == Ordinary
    ensures !Is(e) <==> InstanceOf(e, VirtualMachineError) || InstanceOf(e, ThreadDeath) || InstanceOf(e, LinkageError)
  {
    FamilyMatchesInstanceOf(e.cls);
  }

  /** Fatality is inherited: an instance of any class whose instances are
      fatal is itself fatal, however deep the subclass. */
  lemma FatalIsInherited(e: Err, k: ClassName)
    requires InstanceOf(e, k)
    requires !Is(Err(k, e.id))
    ensures !Is(e)
  {
    if IsSubclassOf(k, VirtualMachineError) {
      SubclassTransitive(e.cls, k, VirtualMachineError);
    } else if IsSubclassOf(k, ThreadDeath) {
      SubclassTransitive(e.cls, k, ThreadDeath);
    } else {
      SubclassTransitive(e.cls, k, LinkageError);
    }
  }

  /** Every `VirtualMachineError`, including any subclass of a subclass, is fatal. */
  lemma VirtualMachineErrorsAreFatal(e: Err, k: ClassName)
    requires IsSubclassOf(k, VirtualMachineError) && InstanceOf(e, k)
    ensures !Is(e) && FamilyOf(e.cls) == VirtualMachine
  {
    SubclassTransitive(e.cls, k, VirtualMachineError);
    FamilyMatchesInstanceOf(e.cls);
  }

  /** Every `LinkageError`, including any subclass of a subclass, is fatal. */
  lemma LinkageErrorsAreFatal(e: Err, k: ClassName)
    requires IsSubclassOf(k, LinkageError) && InstanceOf(e, k)
    ensures !Is(e) && FamilyOf(e.cls) == Linkage
  {
    SubclassTransitive(e.cls, k, LinkageError);
    FamilyMatchesInstanceOf(e.cls);
  }

  /** Every `ThreadDeath` is fatal. */
  lemma ThreadDeathIsFatal(e: Err)
    requires InstanceOf(e, ThreadDeath)
    ensures !Is(e) && FamilyOf(e.cls) == Death
  {
    FamilyMatchesInstanceOf(e.cls);
  }

  /** The JDK errors of the three fatal families that the JVM raises. */
  lemma JdkFatalErrors(id: nat)
    ensures !Is(Err(OutOfMemoryError, id)) && !Is(Err(StackOverflowError, id))
    ensures !Is(Err(NoClassDefFoundError, id)) && !Is(Err(ThreadDeath, id))
  {
  }

  /** `Error` itself and `AssertionError` lie outside the fatal families. */
  lemma PlainErrorsAreRecoverable(id: nat)
    ensures Is(Err(Error, id)) && Is(Err(AssertionError, id))
  {
  }

  /** The exceptions the core builds itself, and the one `Integer.parseInt`
      throws, are recoverable. */
  lemma CoreExceptionsAreRecoverable(id: nat)
    ensures Is(Err(NoSuchElementException, id)) && Is(Err(UnsupportedOperationException, id))
    ensures Is(Err(NullPointerException, id)) && Is(Err(NumberFormatException, id))
  {
    assert Is(Err(NoSuchElementException, id));
    assert Is(Err(UnsupportedOperationException, id));
    assert Is(Err(NullPointerException, id));
  }
}
