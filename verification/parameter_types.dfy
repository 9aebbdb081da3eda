/** The Java types `setParameters` compares: the eight primitive types,
    their wrapper classes, and every other reference type, whose
    assignability is left abstract. The widening table is the widening
    primitive conversion of section 5.1.2 of the Java Language
    Specification; the wrapper table is boxing (section 5.1.7) and its
    reverse unboxing (section 5.1.8). */
module ParameterTypes {

  datatype Primitive = Boolean | Byte | Char | Short | Int | Long | Float | Double

  /** A runtime class: a primitive class (`int.class`), the wrapper of a
      primitive (`Integer.class`), or any other reference class, named. */
  datatype JType =
    | Prim(p: Primitive)
    | Wrapper(w: Primitive)
    | Reference(name: string)

  predicate IsPrimitive(t: JType)
  {
    t.Prim?
  }

  /** The widening table: for each primitive, the primitives it widens to. */
  function WideningTargets(p: Primitive): set<Primitive>
  {
    match p
    case Byte => {Short, Int, Long, Float, Double}
    case Short => {Int, Long, Float, Double}
    case Char => {Int, Long, Float, Double}
    case Int => {Long, Float, Double}
    case Long => {Float, Double}
    case Float => {Double}
    case Boolean => {}
    case Double => {}
  }

  /** `isWideningPrimitive(argumentClass, targetClass)`: both are primitive
      classes and the table lists the target for the argument. */
  predicate IsWideningPrimitive(from: JType, to: JType)
  {
    from.Prim? && to.Prim? && to.p in WideningTargets(from.p)
  }

  /** `getWrapperClass`: the wrapper of a primitive class, any other class
      unchanged. */
  function WrapperClass(t: JType): (r: JType)
    ensures t.Prim? ==> r == Wrapper(t.p)
    ensures !t.Prim? ==> r == t
  {
    match t
    case Prim(p) => Wrapper(p)
    case _ => t
  }

  /** `getPrimitiveClass`: the primitive of a wrapper class, any other class
      unchanged. */
  function PrimitiveClass(t: JType): (r: JType)
    ensures t.Wrapper? ==> r == Prim(t.w)
    ensures !t.Wrapper? ==> r == t
  {
    match t
    case Wrapper(p) => Prim(p)
    case _ => t
  }

  /** An independent description of section 5.1.2: numeric primitives
      ordered by range, with `char` beside `short` (neither widens to the
      other) and nothing widening to `char`. */
  function Rank(p: Primitive): nat
  {
    match p
    case Boolean => 0
    case Byte => 1
    case Short => 2
    case Char => 2
    case Int => 3
    case Long => 4
    case Float => 5
    case Double => 6
  }

  predicate WidensByRank(a: Primitive, b: Primitive)
  {
    a != Boolean && b != Boolean && b != Char && Rank(a) < Rank(b)
  }

  /** The table is exactly the rank description. */
  lemma WideningTableIsSection512(a: Primitive, b: Primitive)
    ensures IsWideningPrimitive(Prim(a), Prim(b)) <==> WidensByRank(a, b)
  {
  }

  /** Widening is strict (no type widens to itself), never involves
      `boolean`, never reaches `char`, and composes. */
  lemma WideningIsStrictOrder(a: Primitive, b: Primitive, c: Primitive)
    ensures !IsWideningPrimitive(Prim(a), Prim(a))
    ensures IsWideningPrimitive(Prim(a), Prim(b)) ==> a != Boolean && b != Boolean && b != Char
    ensures IsWideningPrimitive(Prim(a), Prim(b)) && IsWideningPrimitive(Prim(b), Prim(c))
      ==> IsWideningPrimitive(Prim(a), Prim(c))
  {
    WideningTableIsSection512(a, b);
    WideningTableIsSection512(b, c);
    WideningTableIsSection512(a, c);
    WideningTableIsSection512(a, a);
  }

  /** Only primitive classes take part in widening. */
  lemma WideningNeedsPrimitives(from: JType, to: JType)
    requires IsWideningPrimitive(from, to)
    ensures IsPrimitive(from) && IsPrimitive(to)
  {
  }

  /** Boxing and unboxing are inverse on primitive and wrapper classes and
      leave every other class alone. */
  lemma WrapperTablesInverse(t: JType)
    ensures PrimitiveClass(WrapperClass(t)) == (if t.Wrapper? then Prim(t.w) else t)
    ensures WrapperClass(PrimitiveClass(t)) == (if t.Prim? then Wrapper(t.p) else t)
    ensures t.Prim? ==> PrimitiveClass(WrapperClass(t)) == t
    ensures t.Wrapper? ==> WrapperClass(PrimitiveClass(t)) == t
  {
  }
}
