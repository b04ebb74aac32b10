/**
 * The agent's class table (`m_classes`): one `ClassInfo` per interesting class that was
 * loaded, indexed by the class number handed to the bytecode rewriter, each with its
 * method table indexed by method number.
 */
module AgentRegistry {

  datatype MethodInfo = MethodInfo(name: string, signature: string, callCount: int, returnCount: int)

  datatype ClassInfo = ClassInfo(name: string, mcount: int, methods: seq<MethodInfo>, callCount: int)

  /** A value-initialised `MethodInfo`, as `std::vector::resize` creates it. */
  const EMPTY_METHOD := MethodInfo("", "", 0, 0)

  /** The method count of a class always equals the length of its method table. */
  predicate ClassValid(c: ClassInfo) {
    c.mcount == |c.methods|
  }

  predicate RegistryValid(classes: seq<ClassInfo>) {
    forall i :: 0 <= i < |classes| ==> ClassValid(classes[i])
  }

  /** The entry appended for a freshly loaded class, before the rewriter reports its methods. */
  function NewClass(name: string): (c: ClassInfo)
    ensures ClassValid(c) && c.methods == []
  {
    ClassInfo(name, 0, [], 0)
  }

  /** `std::vector::resize(n)`: keeps the first `n` entries and pads with value-initialised ones. */
  function Resized(ms: seq<MethodInfo>, n: nat): (r: seq<MethodInfo>)
    ensures |r| == n
    ensures forall i :: 0 <= i < n ==> r[i] == if i < |ms| then ms[i] else EMPTY_METHOD
  {
    if n <= |ms| then ms[..n] else ms + seq(n - |ms|, _ => EMPTY_METHOD)
  }

  /**
   * What `mnum_callbacks` makes of class `c` when it reports `mcount > 0` methods:
   * method `i` is named `names[i]` with signature `sigs[i]`, in index order.
   */
  function WithMethods(c: ClassInfo, names: seq<string>, sigs: seq<string>, mcount: nat): (r: ClassInfo)
    requires mcount <= |names| && mcount <= |sigs|
    ensures ClassValid(r) && r.name == c.name && r.mcount == mcount && r.callCount == 0
    ensures forall i :: 0 <= i < mcount ==> r.methods[i].name == names[i] && r.methods[i].signature == sigs[i]
  {
    var kept := Resized(c.methods, mcount);
    ClassInfo(c.name, mcount, seq(mcount, i requires 0 <= i < mcount => kept[i].(name := names[i], signature := sigs[i])), 0)
  }

  /** The counters of a method that already existed survive a second report; new ones start at zero. */
  lemma WithMethodsKeepsCounters(c: ClassInfo, names: seq<string>, sigs: seq<string>, mcount: nat, i: nat)
    requires mcount <= |names| && mcount <= |sigs| && i < mcount
    ensures var m := WithMethods(c, names, sigs, mcount).methods[i];
      if i < |c.methods| then m.callCount == c.methods[i].callCount && m.returnCount == c.methods[i].returnCount
      else m.callCount == 0 && m.returnCount == 0
  {
  }

  /** The result of resolving a (class number, method number) pair. */
  datatype Resolved = Found(className: string, methodName: string) | ClassOutOfRange | MethodOutOfRange

  /** A lookup as the C++ code performs it, which may read outside the method table. */
  datatype GuardedRead = Read(result: Resolved) | OutOfBoundsRead

  /**
   * The two guards of `process_method_entry` as written. The class number is a signed
   * `jint` compared with the unsigned `size()`, so a negative one is converted to a huge
   * value and rejected. The method number is compared with the signed `m_mcount`, so a
   * negative one passes and `m_methods[mnum]` reads out of bounds.
   */
  function LookupAsWritten(classes: seq<ClassInfo>, cnum: int, mnum: int): (r: GuardedRead)
    requires RegistryValid(classes)
    ensures r == Read(ClassOutOfRange) <==> !(0 <= cnum < |classes|)
    ensures r == Read(MethodOutOfRange) <==> 0 <= cnum < |classes| && mnum >= |classes[cnum].methods|
    ensures r.OutOfBoundsRead? <==> 0 <= cnum < |classes| && mnum < 0
  {
    if cnum < 0 || cnum >= |classes| then Read(ClassOutOfRange)
    else if mnum >= classes[cnum].mcount then Read(MethodOutOfRange)
    else if mnum < 0 then OutOfBoundsRead
    else Read(Found(classes[cnum].name, classes[cnum].methods[mnum].name))
  }

  /** A negative method number of any registered class slips through the guard as written. */
  lemma NegativeMethodNumberPassesGuard(classes: seq<ClassInfo>, cnum: int)
    requires RegistryValid(classes) && 0 <= cnum < |classes|
    ensures LookupAsWritten(classes, cnum, -1) == OutOfBoundsRead
  {
  }

  /** The lookup with the method guard also rejecting negative numbers. */
  function Lookup(classes: seq<ClassInfo>, cnum: int, mnum: int): (r: Resolved)
    requires RegistryValid(classes)
    ensures r.ClassOutOfRange? <==> !(0 <= cnum < |classes|)
    ensures r.Found? <==> 0 <= cnum < |classes| && 0 <= mnum < |classes[cnum].methods|
    ensures r.Found? ==> r.className == classes[cnum].name && r.methodName == classes[cnum].methods[mnum].name
  {
    if cnum < 0 || cnum >= |classes| then ClassOutOfRange
    else if mnum < 0 || mnum >= classes[cnum].mcount then MethodOutOfRange
    else Found(classes[cnum].name, classes[cnum].methods[mnum].name)
  }

  /** Whenever the method number is not negative, the corrected lookup is the one the code performs. */
  lemma LookupAgreesWithCode(classes: seq<ClassInfo>, cnum: int, mnum: int)
    requires RegistryValid(classes) && mnum >= 0
    ensures LookupAsWritten(classes, cnum, mnum) == Read(Lookup(classes, cnum, mnum))
  {
  }
}
