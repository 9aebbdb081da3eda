/** The metadata the core consumes (`MethodMetadata`, `ClassMetadata`,
    `InterceptorMetadata`), reduced to records. How these are read from
    classes by reflection is outside the model. */
module ClassModel {
  import opened Roles
  import opened Signatures

  datatype ReturnKind = VoidReturn | ObjectReturn | OtherReturn

  /** A declared method: the reflective method, the roles whose marker
      annotation it carries, whether it is private, and its return type. */
  datatype MethodInfo = MethodInfo(
    javaMethod: JavaMethod,
    roles: set<Role>,
    isPrivate: bool,
    returnKind: ReturnKind)

  /** A class with its declared methods, in declaration order. */
  datatype ClassInfo = ClassInfo(name: string, declaredMethods: seq<MethodInfo>)

  /** The interceptor methods of one interceptor class (or of the target
      class acting as its own interceptor), per role. */
  datatype InterceptorMetadata = InterceptorMetadata(
    reference: string,
    isTargetClass: bool,
    methods: map<Role, seq<MethodInfo>>)

  function ParameterCount(m: MethodInfo): nat
  {
    |m.javaMethod.parameterTypes|
  }
}
