/** `MethodReference`: a method key made of the declaring class name and the
    method signature. The `metadata` and `builder` packages each hold a copy
    of this class with the same fields, `equals` and `hashCode`; the builder
    copy adds a factory from `MethodMetadata`. */
module MethodReferences {
  import opened Results
  import opened Signatures
  import opened ClassModel

  datatype MethodReference = MethodReference(
    declaringClassName: Option<string>,
    methodSignature: Option<MethodSignature>)

  /** `MethodReference.of(Method)`. */
  function Of(m: JavaMethod): MethodReference
  {
    MethodReference(Some(m.declaringClass.name), Some(Signatures.Of(m)))
  }

  /** `MethodReference.of(MethodMetadata)` in the builder package: it reads
      the underlying Java method. */
  function OfMetadata(md: MethodInfo): MethodReference
  {
    MethodReference(Some(md.javaMethod.declaringClass.name), Some(Signatures.Of(md.javaMethod)))
  }

  /** `getDeclaringClassName()`. */
  function DeclaringClassName(r: MethodReference): Option<string>
  {
    r.declaringClassName
  }

  /** `getMethodSignature()`. */
  function GetMethodSignature(r: MethodReference): Option<MethodSignature>
  {
    r.methodSignature
  }

  /** `MethodReference.equals`: class names compared null-safely, then the
      signatures compared with `MethodSignature.equals`, null-safely. */
  function Equals(a: MethodReference, b: MethodReference): bool
  {
    var classesEqual :=
      if a.declaringClassName.Some? then a.declaringClassName == b.declaringClassName
      else b.declaringClassName.None?;
    if !classesEqual then false
    else if a.methodSignature.Some? then
      b.methodSignature.Some? && Signatures.Equals(a.methodSignature.value, b.methodSignature.value)
    else b.methodSignature.None?
  }

  /** `MethodReference.hashCode` without 32-bit wrap-around. */
  function HashCode(r: MethodReference, h: string -> int): int
  {
    var classHash := match r.declaringClassName case None => 0 case Some(n) => h(n);
    var sigHash := match r.methodSignature case None => 0 case Some(s) => Signatures.HashCode(s, h);
    31 * classHash + sigHash
  }

  /** Two references are equal exactly when their declaring class names are
      equal and their signatures are equal, a null field matching only a
      null field. */
  lemma EqualsIsFieldEquality(a: MethodReference, b: MethodReference)
    ensures Equals(a, b) <==>
      a.declaringClassName == b.declaringClassName && a.methodSignature == b.methodSignature
    ensures Equals(a, b) <==> a == b
  {
    if a.methodSignature.Some? && b.methodSignature.Some? {
      Signatures.EqualsIsFieldEquality(a.methodSignature.value, b.methodSignature.value);
    }
  }

  /** A null field equals only a null field. */
  lemma NullFieldEqualsOnlyNull(a: MethodReference, b: MethodReference)
    ensures a.declaringClassName.None? && b.declaringClassName.Some? ==> !Equals(a, b)
    ensures a.methodSignature.None? && b.methodSignature.Some? ==> !Equals(a, b)
    ensures a.methodSignature.Some? && b.methodSignature.None? ==> !Equals(a, b)
  {
  }

  /** Equal references hash alike, whatever string hash is used. */
  lemma EqualReferencesHashAlike(a: MethodReference, b: MethodReference, h: string -> int)
    requires Equals(a, b)
    ensures HashCode(a, h) == HashCode(b, h)
  {
    EqualsIsFieldEquality(a, b);
  }

  /** Unlike a signature, a reference tells apart the same method declared
      on two differently named classes. */
  lemma DeclaringClassDistinguishes(m: JavaMethod, other: JavaClass)
    requires other.name != m.declaringClass.name
    ensures Signatures.Equals(Signatures.Of(m), Signatures.Of(m.(declaringClass := other)))
    ensures !Equals(Of(m), Of(m.(declaringClass := other)))
  {
    Signatures.DeclaringClassIgnored(m, other);
  }

  /** `of(Method)` pairs the declaring class name with `MethodSignature.of`,
      and the getters hand back exactly those two fields. */
  lemma OfFields(m: JavaMethod)
    ensures DeclaringClassName(Of(m)) == Some(m.declaringClass.name)
    ensures GetMethodSignature(Of(m)) == Some(Signatures.Of(m))
    ensures Signatures.Equals(GetMethodSignature(Of(m)).value, Signatures.FromClasses(Some(m.name), m.parameterTypes))
  {
    Signatures.OfAgreesWithNameConstructor(m, Signatures.ToNames(m.parameterTypes));
  }

  /** The getters return the constructor arguments unchanged. */
  lemma GettersReturnConstructorArguments(className: Option<string>, sig: Option<MethodSignature>)
    ensures DeclaringClassName(MethodReference(className, sig)) == className
    ensures GetMethodSignature(MethodReference(className, sig)) == sig
  {
  }

  /** Both builder-package factories read the same underlying Java method, so
      they agree on every method. */
  lemma FactoriesAgree(md: MethodInfo)
    ensures Equals(OfMetadata(md), Of(md.javaMethod))
  {
    EqualsIsFieldEquality(OfMetadata(md), Of(md.javaMethod));
  }
}
