/** `MethodSignature`: a method identified by its name and the names of its
    parameter types, usable as a map key in place of a reflective handle.
    The declaring class is deliberately not part of the key. */
module Signatures {
  import opened Results

  /** A Java class as the core sees it: its binary name (`Class.getName()`)
      and whether it is `javax.interceptor.InvocationContext` or a subtype. */
  datatype JavaClass = JavaClass(name: string, isInvocationContext: bool)

  /** A reflective `java.lang.reflect.Method` reduced to what the core reads. */
  datatype JavaMethod = JavaMethod(declaringClass: JavaClass, name: string, parameterTypes: seq<JavaClass>)

  /** Both fields may be null in Java; `equals` and `hashCode` handle that. */
  datatype MethodSignature = MethodSignature(methodName: Option<string>, argTypeNames: Option<seq<string>>)

  /** `new MethodSignature(name)`: a signature with no arguments. */
  function NameOnly(methodName: Option<string>): (s: MethodSignature)
    ensures s.methodName == methodName && s.argTypeNames == Some([])
  {
    FromNames(methodName, Some([]))
  }

  /** `new MethodSignature(name, String... argTypeNames)`. */
  function FromNames(methodName: Option<string>, argTypeNames: Option<seq<string>>): MethodSignature
  {
    MethodSignature(methodName, argTypeNames)
  }

  /** `toNames`: the binary names of the given classes, in order. */
  function ToNames(classes: seq<JavaClass>): (names: seq<string>)
    ensures |names| == |classes|
    ensures forall i :: 0 <= i < |classes| ==> names[i] == classes[i].name
  {
    if classes == [] then [] else [classes[0].name] + ToNames(classes[1..])
  }

  /** `new MethodSignature(name, Class<?>... argTypes)`. */
  function FromClasses(methodName: Option<string>, classes: seq<JavaClass>): MethodSignature
  {
    MethodSignature(methodName, Some(ToNames(classes)))
  }

  /** `MethodSignature.of(Method)`. */
  function Of(m: JavaMethod): MethodSignature
  {
    FromClasses(Some(m.name), m.parameterTypes)
  }

  /** The element loop of `Arrays.equals`, from position `i` on. */
  function ElementsEqualFrom(a: seq<string>, b: seq<string>, i: nat): (r: bool)
    requires |a| == |b| && i <= |a|
    ensures r <==> a[i..] == b[i..]
    decreases |a| - i
  {
    if i == |a| then true
    else if a[i] != b[i] then false
    else
      var rest := ElementsEqualFrom(a, b, i + 1);
      assert a[i..] == [a[i]] + a[i + 1..] && b[i..] == [b[i]] + b[i + 1..];
      rest
  }

  /** `Arrays.equals(String[], String[])`: null equals only null. */
  function ArraysEquals(a: Option<seq<string>>, b: Option<seq<string>>): bool
  {
    match (a, b)
    case (None, None) => true
    case (Some(x), Some(y)) => |x| == |y| && ElementsEqualFrom(x, y, 0)
    case _ => false
  }

  /** `MethodSignature.equals`: argument names first, then the method name,
      where a null name equals only a null name. */
  function Equals(a: MethodSignature, b: MethodSignature): bool
  {
    if !ArraysEquals(a.argTypeNames, b.argTypeNames) then false
    else if a.methodName.Some? then a.methodName == b.methodName
    else b.methodName.None?
  }

  /** `Arrays.hashCode(String[])` without 32-bit wrap-around; `h` stands for
      `String.hashCode`. */
  function ArraysHash(a: Option<seq<string>>, h: string -> int): int
  {
    match a
    case None => 0
    case Some(names) => NamesHash(names, h)
  }

  function NamesHash(names: seq<string>, h: string -> int): int
  {
    if names == [] then 1 else 31 * NamesHash(names[..|names| - 1], h) + h(names[|names| - 1])
  }

  /** `MethodSignature.hashCode` without 32-bit wrap-around. */
  function HashCode(s: MethodSignature, h: string -> int): int
  {
    var nameHash := match s.methodName case None => 0 case Some(n) => h(n);
    31 * nameHash + ArraysHash(s.argTypeNames, h)
  }

  /** Java equality of signatures is exactly equality of the (name,
      argument-name list) pair: names equal and argument lists equal element
      by element, with null equal only to null. */
  lemma EqualsIsFieldEquality(a: MethodSignature, b: MethodSignature)
    ensures Equals(a, b) <==> a.methodName == b.methodName && a.argTypeNames == b.argTypeNames
    ensures Equals(a, b) <==> a == b
  {
    match (a.argTypeNames, b.argTypeNames)
    case (Some(x), Some(y)) =>
      if |x| == |y| {
        assert ElementsEqualFrom(x, y, 0) <==> x == y by {
          assert x[0..] == x && y[0..] == y;
        }
      }
    case _ =>
  }

  /** Equal signatures hash alike, whatever string hash is used. */
  lemma EqualSignaturesHashAlike(a: MethodSignature, b: MethodSignature, h: string -> int)
    requires Equals(a, b)
    ensures HashCode(a, h) == HashCode(b, h)
  {
    EqualsIsFieldEquality(a, b);
  }

  /** `new MethodSignature("getName")` is the key of any zero-argument method
      named `getName`, whatever class declares it. */
  lemma NameOnlyMatchesNullaryMethod(m: JavaMethod)
    requires m.parameterTypes == []
    ensures Equals(NameOnly(Some(m.name)), Of(m))
  {
    EqualsIsFieldEquality(NameOnly(Some(m.name)), Of(m));
  }

  /** `of(Method)` and the Class-based constructor record the parameter type
      names in declaration order, giving the key the String constructor
      builds from those names. */
  lemma OfAgreesWithNameConstructor(m: JavaMethod, names: seq<string>)
    requires |names| == |m.parameterTypes|
    requires forall i :: 0 <= i < |names| ==> names[i] == m.parameterTypes[i].name
    ensures Equals(Of(m), FromNames(Some(m.name), Some(names)))
    ensures Equals(Of(m), FromClasses(Some(m.name), m.parameterTypes))
  {
    EqualsIsFieldEquality(Of(m), FromNames(Some(m.name), Some(names)));
    EqualsIsFieldEquality(Of(m), FromClasses(Some(m.name), m.parameterTypes));
  }

  /** The declaring class takes no part in the key: the same method declared
      on two classes yields equal signatures. */
  lemma DeclaringClassIgnored(m: JavaMethod, other: JavaClass)
    ensures Equals(Of(m), Of(m.(declaringClass := other)))
  {
    EqualsIsFieldEquality(Of(m), Of(m.(declaringClass := other)));
  }
}
