/** `InterceptorMetadataUtils`: which declared methods of a class and its
    superclasses act as interceptor methods for which role.

    The hierarchy is a sequence of classes, most derived first, ending with
    the root (`java.lang.Object`): the scan visits every one of them. A
    non-private method whose signature was already seen lower in the
    hierarchy (or earlier in the same class) is overridden and skipped; a
    considered method carrying a role's marker must have the shape that role
    demands, and a class may carry each role on at most one method. Each
    accepted method is put at the front of its role's list, so the lists
    run root class first. */
module MetadataScan {
  import opened Results
  import opened Roles
  import opened Signatures
  import opened ClassModel

  // ---------------------------------------------------------------------
  // Method validation

  /** The method has one parameter, of type `InvocationContext` or a
      subtype (the reflective branch of `hasSingleInvocationContextArgument`). */
  predicate SingleContextParameter(m: MethodInfo)
  {
    |m.javaMethod.parameterTypes| == 1 && m.javaMethod.parameterTypes[0].isInvocationContext
  }

  /** The shape a method needs to serve a role: a lifecycle callback returns
      void and takes no parameter on the target class, one `InvocationContext`
      on an interceptor class; an around method returns `Object` and takes one
      `InvocationContext`. */
  predicate WellShaped(role: Role, m: MethodInfo, forTarget: bool)
  {
    if IsLifecycle(role) then
      m.returnKind == VoidReturn && (if forTarget then ParameterCount(m) == 0 else SingleContextParameter(m))
    else
      m.returnKind == ObjectReturn && SingleContextParameter(m)
  }

  /** `validateInterceptorMethod(type, method, forTargetClass)`: `false` for
      a method without the role's marker, `true` for a marked method of the
      right shape, `InterceptorMethodSignatureException` otherwise. */
  function ValidateInterceptorMethod(role: Role, m: MethodInfo, forTarget: bool): (r: Result<bool>)
    ensures r == Ok(false) <==> role !in m.roles
    ensures r == Ok(true) <==> role in m.roles && WellShaped(role, m, forTarget)
    ensures r.Err? <==> role in m.roles && !WellShaped(role, m, forTarget)
    ensures r.Err? ==> r.fault == MethodSignatureFault
  {
    if role !in m.roles then Ok(false)
    else if IsLifecycle(role) then
      if m.returnKind != VoidReturn then Err(MethodSignatureFault)
      else if forTarget && ParameterCount(m) != 0 then Err(MethodSignatureFault)
      else if !forTarget && ParameterCount(m) != 1 then Err(MethodSignatureFault)
      else if !forTarget && !SingleContextParameter(m) then Err(MethodSignatureFault)
      else Ok(true)
    else
      if m.returnKind != ObjectReturn then Err(MethodSignatureFault)
      else if ParameterCount(m) != 1 then Err(MethodSignatureFault)
      else if !SingleContextParameter(m) then Err(MethodSignatureFault)
      else Ok(true)
  }

  // ---------------------------------------------------------------------
  // Reference definition of the scan's outcome

  /** A hierarchy position: class `i`, declared method `j`. */
  predicate At(h: seq<ClassInfo>, i: int, j: int)
  {
    0 <= i < |h| && 0 <= j < |h[i].declaredMethods|
  }

  function Sig(h: seq<ClassInfo>, i: int, j: int): MethodSignature
    requires At(h, i, j)
  {
    Signatures.Of(h[i].declaredMethods[j].javaMethod)
  }

  /** The signatures met before position (i, j): every method of the more
      derived classes and the earlier methods of class `i`. */
  ghost function SeenBefore(h: seq<ClassInfo>, i: int, j: int): set<MethodSignature>
  {
    set a, b | 0 <= a < |h| && 0 <= b < |h[a].declaredMethods| && (a < i || (a == i && b < j)) :: Sig(h, a, b)
  }

  /** The method at (i, j) is looked at: private, or not overridden. */
  ghost predicate Considered(h: seq<ClassInfo>, i: int, j: int)
    requires At(h, i, j)
  {
    Sig(h, i, j) !in SeenBefore(h, i, j) || h[i].declaredMethods[j].isPrivate
  }

  /** The method at (i, j) is looked at and carries the marker of a
      supported role. */
  ghost predicate Marked(h: seq<ClassInfo>, supported: seq<Role>, i: int, j: int, role: Role)
    requires At(h, i, j)
  {
    Considered(h, i, j) && role in supported && role in h[i].declaredMethods[j].roles
  }

  /** A marked method of the wrong shape. */
  ghost predicate BadAt(h: seq<ClassInfo>, supported: seq<Role>, forTarget: bool, i: int, j: int)
    requires At(h, i, j)
  {
    exists role :: Marked(h, supported, i, j, role) && !WellShaped(role, h[i].declaredMethods[j], forTarget)
  }

  /** A role marked on this method and on an earlier method of the same class. */
  ghost predicate DupAt(h: seq<ClassInfo>, supported: seq<Role>, i: int, j: int)
    requires At(h, i, j)
  {
    exists role, k :: 0 <= k < j && Marked(h, supported, i, k, role) && Marked(h, supported, i, j, role)
  }

  /** No error at any position from class `i`, method `j` on within class
      `i`. */
  ghost predicate ClassCleanFrom(h: seq<ClassInfo>, supported: seq<Role>, forTarget: bool, i: int, j: int)
    requires 0 <= i < |h|
  {
    forall k :: j <= k < |h[i].declaredMethods| && At(h, i, k) ==>
      !BadAt(h, supported, forTarget, i, k) && !DupAt(h, supported, i, k)
  }

  /** No error in classes `i` and above. */
  ghost predicate CleanFrom(h: seq<ClassInfo>, supported: seq<Role>, forTarget: bool, i: int)
  {
    forall a :: i <= a < |h| && 0 <= a ==> ClassCleanFrom(h, supported, forTarget, a, 0)
  }

  /** The whole hierarchy scans without an exception. */
  ghost predicate ErrorFree(h: seq<ClassInfo>, supported: seq<Role>, forTarget: bool)
  {
    CleanFrom(h, supported, forTarget, 0)
  }

  /** No looked-at method anywhere in the hierarchy is malformed for a
      role it carries. */
  ghost predicate NoMalformed(h: seq<ClassInfo>, supported: seq<Role>, forTarget: bool)
  {
    forall a, b :: At(h, a, b) ==> !BadAt(h, supported, forTarget, a, b)
  }

  /** No class of the hierarchy carries a role on two looked-at methods. */
  ghost predicate NoRepeatedRole(h: seq<ClassInfo>, supported: seq<Role>)
  {
    forall a, b :: At(h, a, b) ==> !DupAt(h, supported, a, b)
  }

  /** The marked methods among the first `k` of class `i`, last first. */
  ghost function ClassList(h: seq<ClassInfo>, supported: seq<Role>, i: int, k: int, role: Role): seq<MethodInfo>
    requires 0 <= i < |h| && 0 <= k <= |h[i].declaredMethods|
    decreases k
  {
    if k == 0 then []
    else
      (if Marked(h, supported, i, k - 1, role) then [h[i].declaredMethods[k - 1]] else [])
      + ClassList(h, supported, i, k - 1, role)
  }

  /** The marked methods of the first `n` classes, class `n - 1` first. */
  ghost function Upto(h: seq<ClassInfo>, supported: seq<Role>, n: int, role: Role): seq<MethodInfo>
    requires 0 <= n <= |h|
    decreases n
  {
    if n == 0 then []
    else ClassList(h, supported, n - 1, |h[n - 1].declaredMethods|, role) + Upto(h, supported, n - 1, role)
  }

  /** The list the scan should produce for a role: root class first. */
  ghost function Expected(h: seq<ClassInfo>, supported: seq<Role>, role: Role): seq<MethodInfo>
  {
    Upto(h, supported, |h|, role)
  }

  /** The roles already detected on class `i` before its method `j`. */
  ghost function DetectedBefore(h: seq<ClassInfo>, supported: seq<Role>, i: int, j: int): set<Role>
    requires 0 <= i < |h| && 0 <= j <= |h[i].declaredMethods|
  {
    set role | role in supported && exists k :: 0 <= k < j && Marked(h, supported, i, k, role)
  }

  /** Every map entry that exists holds at least one method. */
  ghost predicate EntriesNonEmpty(lists: map<Role, seq<MethodInfo>>)
  {
    forall role :: role in lists ==> lists[role] != []
  }

  ghost predicate ListsAfterClasses(lists: map<Role, seq<MethodInfo>>, h: seq<ClassInfo>, supported: seq<Role>, n: int)
    requires 0 <= n <= |h|
  {
    EntriesNonEmpty(lists) && forall role :: Lookup(lists, role) == Upto(h, supported, n, role)
  }

  ghost predicate ListsWithin(lists: map<Role, seq<MethodInfo>>, h: seq<ClassInfo>, supported: seq<Role>, i: int, j: int)
    requires 0 <= i < |h| && 0 <= j <= |h[i].declaredMethods|
  {
    EntriesNonEmpty(lists) &&
    forall role :: Lookup(lists, role) == ClassList(h, supported, i, j, role) + Upto(h, supported, i, role)
  }

  // ---------------------------------------------------------------------
  // The scan

  /** The inner loop over the supported roles for one considered method:
      each role the method carries must validate and must not already be
      detected on this class; the method goes to the front of the list of
      every role it carries. */
  function ScanRoles(m: MethodInfo, roles: seq<Role>, forTarget: bool,
                     lists: map<Role, seq<MethodInfo>>, detected: set<Role>)
    : (r: Result<(map<Role, seq<MethodInfo>>, set<Role>)>)
    requires Distinct(roles)
    ensures r.Ok? <==> forall role :: role in roles && role in m.roles ==>
                         WellShaped(role, m, forTarget) && role !in detected
    ensures r.Err? ==> r.fault == MethodSignatureFault || r.fault == MetadataFault
    ensures r.Err? && (forall role :: role in roles && role in m.roles ==> WellShaped(role, m, forTarget))
      ==> r.fault == MetadataFault
    ensures r.Err? && (forall role :: role in roles && role in m.roles ==> role !in detected)
      ==> r.fault == MethodSignatureFault
    ensures r.Ok? ==> forall role :: role in r.value.1 <==> role in detected || (role in roles && role in m.roles)
    ensures r.Ok? ==> forall role :: role in r.value.0 <==> role in lists || (role in roles && role in m.roles)
    ensures r.Ok? ==> forall role :: Lookup(r.value.0, role) ==
                        if role in roles && role in m.roles then [m] + Lookup(lists, role) else Lookup(lists, role)
    decreases |roles|
  {
    if roles == [] then Ok((lists, detected))
    else
      var role := roles[0];
      assert Distinct(roles[1..]) && role !in roles[1..];
      assert forall x :: x in roles <==> x == role || x in roles[1..];
      match ValidateInterceptorMethod(role, m, forTarget)
      case Err(f) => Err(f)
      case Ok(valid) =>
        if !valid then ScanRoles(m, roles[1..], forTarget, lists, detected)
        else if role in detected then Err(MetadataFault)
        else ScanRoles(m, roles[1..], forTarget, lists[role := [m] + Lookup(lists, role)], detected + {role})
  }

  /** The loop over the declared methods of class `i`, from method `j` on;
      `found` holds the signatures seen so far and `detected` the roles
      already taken on this class. Its outcome is stated against the
      reference definition by `ScanMethodsClean` and `ScanMethodsLists`. */
  function ScanMethods(h: seq<ClassInfo>, supported: seq<Role>, forTarget: bool, i: int, j: int,
                       lists: map<Role, seq<MethodInfo>>, found: set<MethodSignature>, detected: set<Role>)
    : (r: Result<(map<Role, seq<MethodInfo>>, set<MethodSignature>)>)
    requires Distinct(supported)
    requires 0 <= i < |h| && 0 <= j <= |h[i].declaredMethods|
    ensures r.Err? ==> r.fault == MethodSignatureFault || r.fault == MetadataFault
    decreases |h[i].declaredMethods| - j
  {
    var methods := h[i].declaredMethods;
    if j == |methods| then Ok((lists, found))
    else
      var m := methods[j];
      var sig := Signatures.Of(m.javaMethod);
      if sig !in found || m.isPrivate then
        match ScanRoles(m, supported, forTarget, lists, detected)
        case Err(f) => Err(f)
        case Ok((lists', detected')) => ScanMethods(h, supported, forTarget, i, j + 1, lists', found + {sig}, detected')
      else
        ScanMethods(h, supported, forTarget, i, j + 1, lists, found, detected)
  }

  /** The do/while loop over the classes, from class `i` on; each class
      starts with no detected role. */
  function ScanClasses(h: seq<ClassInfo>, supported: seq<Role>, forTarget: bool, i: int,
                       lists: map<Role, seq<MethodInfo>>, found: set<MethodSignature>)
    : (r: Result<map<Role, seq<MethodInfo>>>)
    requires Distinct(supported)
    requires 0 <= i <= |h|
    ensures r.Err? ==> r.fault == MethodSignatureFault || r.fault == MetadataFault
    decreases |h| - i
  {
    if i == |h| then Ok(lists)
    else
      match ScanMethods(h, supported, forTarget, i, 0, lists, found, {})
      case Err(f) => Err(f)
      case Ok((lists', found')) => ScanClasses(h, supported, forTarget, i + 1, lists', found')
  }

  /** `buildInterceptorMethodMap(class, forTargetClass)`: succeeds exactly
      when no considered method is malformed for a role it carries and no
      class carries a role twice; then every role's list is the reference
      list (root class first), and a role has an entry exactly when its list
      is non-empty. */
  function BuildInterceptorMethodMap(h: seq<ClassInfo>, supported: seq<Role>, forTarget: bool)
    : (r: Result<map<Role, seq<MethodInfo>>>)
    requires Distinct(supported)
    ensures r.Ok? <==> ErrorFree(h, supported, forTarget)
    ensures r.Err? ==> r.fault == MethodSignatureFault || r.fault == MetadataFault
    ensures r.Err? && NoMalformed(h, supported, forTarget) ==> r.fault == MetadataFault
    ensures r.Err? && NoRepeatedRole(h, supported) ==> r.fault == MethodSignatureFault
    ensures r.Ok? ==> forall role :: Lookup(r.value, role) == Expected(h, supported, role)
    ensures r.Ok? ==> forall role :: role in r.value <==> Expected(h, supported, role) != []
  {
    assert SeenBefore(h, 0, 0) == {};
    ScanClassesClean(h, supported, forTarget, 0, map[], {});
    ScanClassesLists(h, supported, forTarget, 0, map[], {});
    ScanClassesFault(h, supported, forTarget, 0, map[], {});
    ScanClasses(h, supported, forTarget, 0, map[], {})
  }

  /** `readMetadataForInterceptorClass`. */
  function ReadMetadataForInterceptorClass(reference: string, h: seq<ClassInfo>, supported: seq<Role>)
    : (r: Result<InterceptorMetadata>)
    requires Distinct(supported)
    ensures r.Ok? <==> ErrorFree(h, supported, false)
    ensures r.Ok? ==> r.value.reference == reference && !r.value.isTargetClass
    ensures r.Ok? ==> forall role :: Lookup(r.value.methods, role) == Expected(h, supported, role)
  {
    var methods :- BuildInterceptorMethodMap(h, supported, false);
    Ok(InterceptorMetadata(reference, false, methods))
  }

  /** `readMetadataForTargetClass`: the target class acts as its own
      interceptor, with lifecycle callbacks taking no parameter. */
  function ReadMetadataForTargetClass(h: seq<ClassInfo>, supported: seq<Role>)
    : (r: Result<InterceptorMetadata>)
    requires Distinct(supported) && |h| > 0
    ensures r.Ok? <==> ErrorFree(h, supported, true)
    ensures r.Ok? ==> r.value.reference == h[0].name && r.value.isTargetClass
    ensures r.Ok? ==> forall role :: Lookup(r.value.methods, role) == Expected(h, supported, role)
  {
    var methods :- BuildInterceptorMethodMap(h, supported, true);
    Ok(InterceptorMetadata(h[0].name, true, methods))
  }

  // ---------------------------------------------------------------------
  // The scan against the reference definition

  /** The method loop of class `i` finishes without an exception exactly
      when no method from `j` on is malformed or repeats a role. */
  lemma {:induction false} ScanMethodsClean(h: seq<ClassInfo>, supported: seq<Role>, forTarget: bool, i: int, j: int,
                       lists: map<Role, seq<MethodInfo>>, found: set<MethodSignature>, detected: set<Role>)
    requires Distinct(supported)
    requires 0 <= i < |h| && 0 <= j <= |h[i].declaredMethods|
    requires found == SeenBefore(h, i, j)
    requires detected == DetectedBefore(h, supported, i, j)
    ensures ScanMethods(h, supported, forTarget, i, j, lists, found, detected).Ok? <==>
            ClassCleanFrom(h, supported, forTarget, i, j)
    decreases |h[i].declaredMethods| - j, 1
  {
    if j == |h[i].declaredMethods| {
      EndOfClassClean(h, supported, forTarget, i);
    } else if Considered(h, i, j) {
      ScanMethodsCleanConsidered(h, supported, forTarget, i, j, lists, found, detected);
    } else {
      ScanMethodsCleanSkipped(h, supported, forTarget, i, j, lists, found, detected);
    }
  }

  lemma {:induction false} ScanMethodsCleanConsidered(h: seq<ClassInfo>, supported: seq<Role>, forTarget: bool, i: int, j: int,
                       lists: map<Role, seq<MethodInfo>>, found: set<MethodSignature>, detected: set<Role>)
    requires Distinct(supported)
    requires At(h, i, j) && Considered(h, i, j)
    requires found == SeenBefore(h, i, j)
    requires detected == DetectedBefore(h, supported, i, j)
    ensures ScanMethods(h, supported, forTarget, i, j, lists, found, detected).Ok? <==>
            ClassCleanFrom(h, supported, forTarget, i, j)
    decreases |h[i].declaredMethods| - j, 0
  {
    var m := h[i].declaredMethods[j];
    var sig := Signatures.Of(m.javaMethod);
    var r := ScanMethods(h, supported, forTarget, i, j, lists, found, detected);
    SeenStep(h, i, j);
    ClassCleanStep(h, supported, forTarget, i, j);
    var sr := ScanRoles(m, supported, forTarget, lists, detected);
    if sr.Err? {
      ErrorAt(h, supported, forTarget, i, j, detected);
      assert r.Err?;
    } else {
      DetectedStep(h, supported, i, j, detected, sr.value.1);
      NoErrorStep(h, supported, forTarget, i, j, detected);
      ScanMethodsClean(h, supported, forTarget, i, j + 1, sr.value.0, found + {sig}, sr.value.1);
      assert r == ScanMethods(h, supported, forTarget, i, j + 1, sr.value.0, found + {sig}, sr.value.1);
    }
  }

  lemma {:induction false} ScanMethodsCleanSkipped(h: seq<ClassInfo>, supported: seq<Role>, forTarget: bool, i: int, j: int,
                       lists: map<Role, seq<MethodInfo>>, found: set<MethodSignature>, detected: set<Role>)
    requires Distinct(supported)
    requires At(h, i, j) && !Considered(h, i, j)
    requires found == SeenBefore(h, i, j)
    requires detected == DetectedBefore(h, supported, i, j)
    ensures ScanMethods(h, supported, forTarget, i, j, lists, found, detected).Ok? <==>
            ClassCleanFrom(h, supported, forTarget, i, j)
    decreases |h[i].declaredMethods| - j, 0
  {
    SeenStep(h, i, j);
    ClassCleanStep(h, supported, forTarget, i, j);
    SkippedStepClean(h, supported, forTarget, i, j, detected);
    ScanMethodsClean(h, supported, forTarget, i, j + 1, lists, found, detected);
    assert ScanMethods(h, supported, forTarget, i, j, lists, found, detected)
        == ScanMethods(h, supported, forTarget, i, j + 1, lists, found, detected);
  }

  /** When the method loop of class `i` succeeds, it has seen every
      signature of the classes up to `i`. */
  lemma {:induction false} ScanMethodsSeen(h: seq<ClassInfo>, supported: seq<Role>, forTarget: bool, i: int, j: int,
                       lists: map<Role, seq<MethodInfo>>, found: set<MethodSignature>, detected: set<Role>)
    requires Distinct(supported)
    requires 0 <= i < |h| && 0 <= j <= |h[i].declaredMethods|
    requires found == SeenBefore(h, i, j)
    ensures var r := ScanMethods(h, supported, forTarget, i, j, lists, found, detected);
      r.Ok? ==> r.value.1 == SeenBefore(h, i + 1, 0)
    decreases |h[i].declaredMethods| - j
  {
    var methods := h[i].declaredMethods;
    if j == |methods| {
      EndOfClassClean(h, supported, forTarget, i);
    } else {
      var m := methods[j];
      var sig := Signatures.Of(m.javaMethod);
      SeenStep(h, i, j);
      if sig !in found || m.isPrivate {
        var sr := ScanRoles(m, supported, forTarget, lists, detected);
        if sr.Ok? {
          ScanMethodsSeen(h, supported, forTarget, i, j + 1, sr.value.0, found + {sig}, sr.value.1);
        }
      } else {
        ScanMethodsSeen(h, supported, forTarget, i, j + 1, lists, found, detected);
      }
    }
  }

  /** When the method loop of class `i` succeeds, it has seen every
      signature of classes up to `i` and its lists are the reference lists
      of those classes. */
  lemma {:induction false} ScanMethodsLists(h: seq<ClassInfo>, supported: seq<Role>, forTarget: bool, i: int, j: int,
                       lists: map<Role, seq<MethodInfo>>, found: set<MethodSignature>, detected: set<Role>)
    requires Distinct(supported)
    requires 0 <= i < |h| && 0 <= j <= |h[i].declaredMethods|
    requires found == SeenBefore(h, i, j)
    requires detected == DetectedBefore(h, supported, i, j)
    requires ListsWithin(lists, h, supported, i, j)
    ensures var r := ScanMethods(h, supported, forTarget, i, j, lists, found, detected);
      r.Ok? ==> r.value.1 == SeenBefore(h, i + 1, 0) && ListsAfterClasses(r.value.0, h, supported, i + 1)
    decreases |h[i].declaredMethods| - j
  {
    var methods := h[i].declaredMethods;
    if j == |methods| {
      EndOfClass(h, supported, forTarget, i, lists);
    } else {
      var m := methods[j];
      var sig := Signatures.Of(m.javaMethod);
      SeenStep(h, i, j);
      if sig !in found || m.isPrivate {
        var sr := ScanRoles(m, supported, forTarget, lists, detected);
        if sr.Ok? {
          ConsideredStep(h, supported, forTarget, i, j, lists, detected, sr.value.0, sr.value.1);
          ScanMethodsLists(h, supported, forTarget, i, j + 1, sr.value.0, found + {sig}, sr.value.1);
        }
      } else {
        SkippedStep(h, supported, forTarget, i, j, lists, detected);
        ScanMethodsLists(h, supported, forTarget, i, j + 1, lists, found, detected);
      }
    }
  }

  /** The class loop from class `i` succeeds exactly when classes `i` and
      above are free of errors. */
  lemma {:induction false} ScanClassesClean(h: seq<ClassInfo>, supported: seq<Role>, forTarget: bool, i: int,
                       lists: map<Role, seq<MethodInfo>>, found: set<MethodSignature>)
    requires Distinct(supported)
    requires 0 <= i <= |h|
    requires found == SeenBefore(h, i, 0)
    ensures ScanClasses(h, supported, forTarget, i, lists, found).Ok? <==> CleanFrom(h, supported, forTarget, i)
    decreases |h| - i
  {
    if i < |h| {
      assert DetectedBefore(h, supported, i, 0) == {};
      CleanFromStep(h, supported, forTarget, i);
      ScanMethodsClean(h, supported, forTarget, i, 0, lists, found, {});
      ScanMethodsSeen(h, supported, forTarget, i, 0, lists, found, {});
      var sm := ScanMethods(h, supported, forTarget, i, 0, lists, found, {});
      if sm.Ok? {
        ScanClassesClean(h, supported, forTarget, i + 1, sm.value.0, sm.value.1);
      }
    }
  }

  /** When the class loop succeeds, its lists are the reference lists of
      the whole hierarchy. */
  lemma {:induction false} ScanClassesLists(h: seq<ClassInfo>, supported: seq<Role>, forTarget: bool, i: int,
                       lists: map<Role, seq<MethodInfo>>, found: set<MethodSignature>)
    requires Distinct(supported)
    requires 0 <= i <= |h|
    requires found == SeenBefore(h, i, 0)
    requires ListsAfterClasses(lists, h, supported, i)
    ensures var r := ScanClasses(h, supported, forTarget, i, lists, found);
      r.Ok? ==> ListsAfterClasses(r.value, h, supported, |h|)
    decreases |h| - i, 1
  {
    if i < |h| {
      ScanClassesListsStep(h, supported, forTarget, i, lists, found);
    }
  }

  /** The class-loop case of `ScanClassesLists` for a class that remains. */
  lemma {:induction false} ScanClassesListsStep(h: seq<ClassInfo>, supported: seq<Role>, forTarget: bool, i: int,
                       lists: map<Role, seq<MethodInfo>>, found: set<MethodSignature>)
    requires Distinct(supported)
    requires 0 <= i < |h|
    requires found == SeenBefore(h, i, 0)
    requires ListsAfterClasses(lists, h, supported, i)
    ensures var r := ScanClasses(h, supported, forTarget, i, lists, found);
      r.Ok? ==> ListsAfterClasses(r.value, h, supported, |h|)
    decreases |h| - i, 0
  {
    StartOfClass(h, supported, i, lists);
    ScanMethodsLists(h, supported, forTarget, i, 0, lists, found, {});
    ScanClassesUnfold(h, supported, forTarget, i, lists, found);
    var sm := ScanMethods(h, supported, forTarget, i, 0, lists, found, {});
    if sm.Ok? {
      ScanClassesLists(h, supported, forTarget, i + 1, sm.value.0, sm.value.1);
    }
  }

  /** One step of the class loop. */
  lemma ScanClassesUnfold(h: seq<ClassInfo>, supported: seq<Role>, forTarget: bool, i: int,
                          lists: map<Role, seq<MethodInfo>>, found: set<MethodSignature>)
    requires Distinct(supported)
    requires 0 <= i < |h|
    ensures var sm := ScanMethods(h, supported, forTarget, i, 0, lists, found, {});
      ScanClasses(h, supported, forTarget, i, lists, found) ==
        if sm.Err? then Err(sm.fault) else ScanClasses(h, supported, forTarget, i + 1, sm.value.0, sm.value.1)
  {
  }

  /** Which exception the method loop of class `i` raises: where no method
      is malformed, only a repeated role can stop it
      (`InterceptorMetadataException`); where no role repeats, only a
      malformed method can (`InterceptorMethodSignatureException`). */
  lemma {:induction false} ScanMethodsFault(h: seq<ClassInfo>, supported: seq<Role>, forTarget: bool, i: int, j: int,
                       lists: map<Role, seq<MethodInfo>>, found: set<MethodSignature>, detected: set<Role>)
    requires Distinct(supported)
    requires 0 <= i < |h| && 0 <= j <= |h[i].declaredMethods|
    requires found == SeenBefore(h, i, j)
    requires detected == DetectedBefore(h, supported, i, j)
    ensures var r := ScanMethods(h, supported, forTarget, i, j, lists, found, detected);
      && (r.Err? && NoMalformed(h, supported, forTarget) ==> r.fault == MetadataFault)
      && (r.Err? && NoRepeatedRole(h, supported) ==> r.fault == MethodSignatureFault)
    decreases |h[i].declaredMethods| - j
  {
    if j < |h[i].declaredMethods| {
      var m := h[i].declaredMethods[j];
      var sig := Signatures.Of(m.javaMethod);
      SeenStep(h, i, j);
      if Considered(h, i, j) {
        var sr := ScanRoles(m, supported, forTarget, lists, detected);
        if sr.Err? {
          FaultAt(h, supported, forTarget, i, j, detected);
        } else {
          DetectedStep(h, supported, i, j, detected, sr.value.1);
          ScanMethodsFault(h, supported, forTarget, i, j + 1, sr.value.0, found + {sig}, sr.value.1);
        }
      } else {
        SkippedStepClean(h, supported, forTarget, i, j, detected);
        ScanMethodsFault(h, supported, forTarget, i, j + 1, lists, found, detected);
      }
    }
  }

  /** The class loop raises the same kind of exception as the method
      loops it runs. */
  lemma {:induction false} ScanClassesFault(h: seq<ClassInfo>, supported: seq<Role>, forTarget: bool, i: int,
                       lists: map<Role, seq<MethodInfo>>, found: set<MethodSignature>)
    requires Distinct(supported)
    requires 0 <= i <= |h|
    requires found == SeenBefore(h, i, 0)
    ensures var r := ScanClasses(h, supported, forTarget, i, lists, found);
      && (r.Err? && NoMalformed(h, supported, forTarget) ==> r.fault == MetadataFault)
      && (r.Err? && NoRepeatedRole(h, supported) ==> r.fault == MethodSignatureFault)
    decreases |h| - i
  {
    if i < |h| {
      assert DetectedBefore(h, supported, i, 0) == {};
      ScanMethodsFault(h, supported, forTarget, i, 0, lists, found, {});
      ScanMethodsSeen(h, supported, forTarget, i, 0, lists, found, {});
      var sm := ScanMethods(h, supported, forTarget, i, 0, lists, found, {});
      if sm.Ok? {
        ScanClassesFault(h, supported, forTarget, i + 1, sm.value.0, sm.value.1);
      }
    }
  }

  // ---------------------------------------------------------------------
  // Steps of the scan proof

  /** At a looked-at method, a role that fails its shape check is a
      malformed marked role, and a role already detected is a repeat. */
  lemma FaultAt(h: seq<ClassInfo>, supported: seq<Role>, forTarget: bool, i: int, j: int, detected: set<Role>)
    requires At(h, i, j) && Considered(h, i, j)
    requires detected == DetectedBefore(h, supported, i, j)
    ensures forall role :: (role in supported && role in h[i].declaredMethods[j].roles &&
                            !WellShaped(role, h[i].declaredMethods[j], forTarget)) ==> BadAt(h, supported, forTarget, i, j)
    ensures forall role :: (role in supported && role in h[i].declaredMethods[j].roles &&
                            role in detected) ==> DupAt(h, supported, i, j)
  {
    var m := h[i].declaredMethods[j];
    forall role | role in supported && role in m.roles
      ensures Marked(h, supported, i, j, role)
    {
      MarkedWhenConsidered(h, supported, i, j, role);
    }
    forall role | role in supported && role in m.roles && role in detected
      ensures DupAt(h, supported, i, j)
    {
      var k :| 0 <= k < j && Marked(h, supported, i, k, role);
    }
  }

  lemma SeenStep(h: seq<ClassInfo>, i: int, j: int)
    requires At(h, i, j)
    ensures SeenBefore(h, i, j + 1) == SeenBefore(h, i, j) + {Sig(h, i, j)}
  {
    var s1 := SeenBefore(h, i, j + 1);
    var s0 := SeenBefore(h, i, j);
    forall x | x in s1 ensures x in s0 + {Sig(h, i, j)} {
      var a, b :| 0 <= a < |h| && 0 <= b < |h[a].declaredMethods| && (a < i || (a == i && b < j + 1)) && Sig(h, a, b) == x;
      if !(a == i && b == j) {
        assert x in s0;
      }
    }
    assert Sig(h, i, j) in s1;
  }

  lemma ClassCleanStep(h: seq<ClassInfo>, supported: seq<Role>, forTarget: bool, i: int, j: int)
    requires At(h, i, j)
    ensures ClassCleanFrom(h, supported, forTarget, i, j) <==>
      !BadAt(h, supported, forTarget, i, j) && !DupAt(h, supported, i, j) &&
      ClassCleanFrom(h, supported, forTarget, i, j + 1)
  {
  }

  lemma EndOfClassClean(h: seq<ClassInfo>, supported: seq<Role>, forTarget: bool, i: int)
    requires 0 <= i < |h|
    ensures SeenBefore(h, i, |h[i].declaredMethods|) == SeenBefore(h, i + 1, 0)
    ensures ClassCleanFrom(h, supported, forTarget, i, |h[i].declaredMethods|)
  {
    var s1 := SeenBefore(h, i + 1, 0);
    var s0 := SeenBefore(h, i, |h[i].declaredMethods|);
    forall x | x in s1 ensures x in s0 {
      var a, b :| 0 <= a < |h| && 0 <= b < |h[a].declaredMethods| && a < i + 1 && Sig(h, a, b) == x;
    }
  }

  lemma EndOfClass(h: seq<ClassInfo>, supported: seq<Role>, forTarget: bool, i: int, lists: map<Role, seq<MethodInfo>>)
    requires 0 <= i < |h|
    requires ListsWithin(lists, h, supported, i, |h[i].declaredMethods|)
    ensures SeenBefore(h, i, |h[i].declaredMethods|) == SeenBefore(h, i + 1, 0)
    ensures ListsAfterClasses(lists, h, supported, i + 1)
  {
    EndOfClassClean(h, supported, forTarget, i);
  }

  /** A method whose signature was seen and that is not private is not
      looked at, so it raises nothing and detects nothing. */
  lemma SkippedStepClean(h: seq<ClassInfo>, supported: seq<Role>, forTarget: bool, i: int, j: int, detected: set<Role>)
    requires At(h, i, j)
    requires !Considered(h, i, j)
    requires detected == DetectedBefore(h, supported, i, j)
    ensures SeenBefore(h, i, j) + {Sig(h, i, j)} == SeenBefore(h, i, j)
    ensures detected == DetectedBefore(h, supported, i, j + 1)
    ensures !BadAt(h, supported, forTarget, i, j) && !DupAt(h, supported, i, j)
  {
    forall role | role in DetectedBefore(h, supported, i, j + 1) ensures role in detected {
      var k :| 0 <= k < j + 1 && Marked(h, supported, i, k, role);
      assert k != j;
    }
  }

  /** ... and it leaves the lists as they were. */
  lemma SkippedStep(h: seq<ClassInfo>, supported: seq<Role>, forTarget: bool, i: int, j: int,
                    lists: map<Role, seq<MethodInfo>>, detected: set<Role>)
    requires At(h, i, j)
    requires !Considered(h, i, j)
    requires detected == DetectedBefore(h, supported, i, j)
    requires ListsWithin(lists, h, supported, i, j)
    ensures SeenBefore(h, i, j) + {Sig(h, i, j)} == SeenBefore(h, i, j)
    ensures detected == DetectedBefore(h, supported, i, j + 1)
    ensures ListsWithin(lists, h, supported, i, j + 1)
  {
    SkippedStepClean(h, supported, forTarget, i, j, detected);
    forall role ensures ClassList(h, supported, i, j + 1, role) == ClassList(h, supported, i, j, role) {
      assert !Marked(h, supported, i, j, role);
    }
  }

  /** A looked-at method scans clean exactly when it raises no error at its
      position; when it does, the class (hence the hierarchy) is not clean. */
  lemma ErrorAt(h: seq<ClassInfo>, supported: seq<Role>, forTarget: bool, i: int, j: int, detected: set<Role>)
    requires Distinct(supported)
    requires At(h, i, j) && Considered(h, i, j)
    requires detected == DetectedBefore(h, supported, i, j)
    requires !(forall role :: role in supported && role in h[i].declaredMethods[j].roles ==>
                 WellShaped(role, h[i].declaredMethods[j], forTarget) && role !in detected)
    ensures !ClassCleanFrom(h, supported, forTarget, i, j)
  {
    var m := h[i].declaredMethods[j];
    var role :| role in supported && role in m.roles && !(WellShaped(role, m, forTarget) && role !in detected);
    assert Marked(h, supported, i, j, role);
    if !WellShaped(role, m, forTarget) {
      assert BadAt(h, supported, forTarget, i, j);
    } else {
      var k :| 0 <= k < j && Marked(h, supported, i, k, role);
      assert DupAt(h, supported, i, j);
    }
  }

  /** The first method of a class starts with no detected role and the
      lists left by the classes before it. */
  lemma StartOfClass(h: seq<ClassInfo>, supported: seq<Role>, i: int, lists: map<Role, seq<MethodInfo>>)
    requires 0 <= i < |h|
    requires ListsAfterClasses(lists, h, supported, i)
    ensures DetectedBefore(h, supported, i, 0) == {}
    ensures ListsWithin(lists, h, supported, i, 0)
  {
    forall role ensures ClassList(h, supported, i, 0, role) + Upto(h, supported, i, role) == Upto(h, supported, i, role) {
      assert ClassList(h, supported, i, 0, role) == [];
    }
  }

  lemma CleanFromStep(h: seq<ClassInfo>, supported: seq<Role>, forTarget: bool, i: int)
    requires 0 <= i < |h|
    ensures CleanFrom(h, supported, forTarget, i) <==>
      ClassCleanFrom(h, supported, forTarget, i, 0) && CleanFrom(h, supported, forTarget, i + 1)
  {
  }

  /** The roles a looked-at method carries are exactly its marked roles. */
  lemma MarkedWhenConsidered(h: seq<ClassInfo>, supported: seq<Role>, i: int, j: int, role: Role)
    requires At(h, i, j) && Considered(h, i, j)
    ensures Marked(h, supported, i, j, role) <==> role in supported && role in h[i].declaredMethods[j].roles
  {
  }

  /** After a looked-at method scans clean, the detected roles and the lists
      match the reference one position further on. */
  lemma ConsideredStep(h: seq<ClassInfo>, supported: seq<Role>, forTarget: bool, i: int, j: int,
                       lists: map<Role, seq<MethodInfo>>, detected: set<Role>,
                       lists': map<Role, seq<MethodInfo>>, detected': set<Role>)
    requires Distinct(supported)
    requires At(h, i, j) && Considered(h, i, j)
    requires detected == DetectedBefore(h, supported, i, j)
    requires ListsWithin(lists, h, supported, i, j)
    requires ScanRoles(h[i].declaredMethods[j], supported, forTarget, lists, detected) == Ok((lists', detected'))
    ensures detected' == DetectedBefore(h, supported, i, j + 1)
    ensures ListsWithin(lists', h, supported, i, j + 1)
  {
    DetectedStep(h, supported, i, j, detected, detected');
    ListsStep(h, supported, i, j, lists, lists');
  }

  lemma DetectedStep(h: seq<ClassInfo>, supported: seq<Role>, i: int, j: int, detected: set<Role>, detected': set<Role>)
    requires At(h, i, j) && Considered(h, i, j)
    requires detected == DetectedBefore(h, supported, i, j)
    requires forall role :: role in detected' <==> role in detected || (role in supported && role in h[i].declaredMethods[j].roles)
    ensures detected' == DetectedBefore(h, supported, i, j + 1)
  {
    forall role ensures role in detected' <==> role in DetectedBefore(h, supported, i, j + 1) {
      MarkedWhenConsidered(h, supported, i, j, role);
      if role in detected' && role !in detected {
        assert Marked(h, supported, i, j, role);
      }
      if role in DetectedBefore(h, supported, i, j + 1) {
        var k :| 0 <= k < j + 1 && Marked(h, supported, i, k, role);
        if k < j { assert role in detected; }
      }
    }
  }

  lemma ListsStep(h: seq<ClassInfo>, supported: seq<Role>, i: int, j: int,
                  lists: map<Role, seq<MethodInfo>>, lists': map<Role, seq<MethodInfo>>)
    requires At(h, i, j) && Considered(h, i, j)
    requires ListsWithin(lists, h, supported, i, j)
    requires forall role :: role in lists' <==> role in lists || (role in supported && role in h[i].declaredMethods[j].roles)
    requires forall role :: Lookup(lists', role) ==
               if role in supported && role in h[i].declaredMethods[j].roles then [h[i].declaredMethods[j]] + Lookup(lists, role)
               else Lookup(lists, role)
    ensures ListsWithin(lists', h, supported, i, j + 1)
  {
    forall role ensures Lookup(lists', role) == ClassList(h, supported, i, j + 1, role) + Upto(h, supported, i, role) {
      MarkedWhenConsidered(h, supported, i, j, role);
      ClassListStep(h, supported, i, j, role);
    }
    forall role | role in lists' ensures lists'[role] != [] {
      assert Lookup(lists', role) == lists'[role];
      if !(role in supported && role in h[i].declaredMethods[j].roles) {
        assert role in lists && Lookup(lists, role) == lists[role];
      }
    }
  }

  /** One more method of the class extends its list at the front exactly
      when it is marked for the role. */
  lemma ClassListStep(h: seq<ClassInfo>, supported: seq<Role>, i: int, j: int, role: Role)
    requires At(h, i, j)
    ensures var before := ClassList(h, supported, i, j, role);
      var up := Upto(h, supported, i, role);
      ClassList(h, supported, i, j + 1, role) + up ==
        if Marked(h, supported, i, j, role) then [h[i].declaredMethods[j]] + (before + up) else before + up
  {
    var m := h[i].declaredMethods[j];
    var before := ClassList(h, supported, i, j, role);
    var up := Upto(h, supported, i, role);
    var front := if Marked(h, supported, i, j, role) then [m] else [];
    assert ClassList(h, supported, i, j + 1, role) == front + before;
    assert (front + before) + up == front + (before + up);
    assert [] + (before + up) == before + up;
  }

  lemma NoErrorStep(h: seq<ClassInfo>, supported: seq<Role>, forTarget: bool, i: int, j: int, detected: set<Role>)
    requires At(h, i, j) && Considered(h, i, j)
    requires detected == DetectedBefore(h, supported, i, j)
    requires forall role :: role in supported && role in h[i].declaredMethods[j].roles ==>
               WellShaped(role, h[i].declaredMethods[j], forTarget) && role !in detected
    ensures !BadAt(h, supported, forTarget, i, j) && !DupAt(h, supported, i, j)
  {
    var m := h[i].declaredMethods[j];
    forall role | Marked(h, supported, i, j, role)
      ensures WellShaped(role, m, forTarget) && role !in detected
    {
    }
    forall role, k | 0 <= k < j && Marked(h, supported, i, k, role)
      ensures role in detected
    {
    }
  }
}

/** Properties of the hierarchy scan beyond its contract. */
module MetadataScanProperties {
  import opened Results
  import opened Roles
  import opened Signatures
  import opened ClassModel
  import opened MetadataScan

  /** Adding a superclass above the root leaves the verdict on every
      existing method unchanged. */
  lemma SeenStable(h: seq<ClassInfo>, c: ClassInfo, i: int, j: int)
    requires 0 <= i < |h| && 0 <= j <= |h[i].declaredMethods|
    ensures SeenBefore(h + [c], i, j) == SeenBefore(h, i, j)
  {
    var h' := h + [c];
    forall x | x in SeenBefore(h', i, j) ensures x in SeenBefore(h, i, j) {
      var a, b :| 0 <= a < |h'| && 0 <= b < |h'[a].declaredMethods| && (a < i || (a == i && b < j)) && Sig(h', a, b) == x;
      assert h'[a] == h[a];
      assert Sig(h, a, b) == x;
    }
    forall x | x in SeenBefore(h, i, j) ensures x in SeenBefore(h', i, j) {
      var a, b :| 0 <= a < |h| && 0 <= b < |h[a].declaredMethods| && (a < i || (a == i && b < j)) && Sig(h, a, b) == x;
      assert h'[a] == h[a];
      assert Sig(h', a, b) == x;
    }
  }

  lemma {:induction false} ClassListStable(h: seq<ClassInfo>, c: ClassInfo, supported: seq<Role>, i: int, k: int, role: Role)
    requires 0 <= i < |h| && 0 <= k <= |h[i].declaredMethods|
    ensures ClassList(h + [c], supported, i, k, role) == ClassList(h, supported, i, k, role)
    decreases k
  {
    if k > 0 {
      SeenStable(h, c, i, k - 1);
      assert (h + [c])[i] == h[i];
      assert Marked(h + [c], supported, i, k - 1, role) == Marked(h, supported, i, k - 1, role);
      ClassListStable(h, c, supported, i, k - 1, role);
    }
  }

  lemma {:induction false} UptoStable(h: seq<ClassInfo>, c: ClassInfo, supported: seq<Role>, n: int, role: Role)
    requires 0 <= n <= |h|
    ensures Upto(h + [c], supported, n, role) == Upto(h, supported, n, role)
    decreases n
  {
    if n > 0 {
      assert (h + [c])[n - 1] == h[n - 1];
      ClassListStable(h, c, supported, n - 1, |h[n - 1].declaredMethods|, role);
      UptoStable(h, c, supported, n - 1, role);
    }
  }

  /** Root class first: the reference list of a hierarchy extended by one
      more superclass is that superclass's methods followed by the list of
      the hierarchy below it. */
  lemma SuperclassComesFirst(h: seq<ClassInfo>, c: ClassInfo, supported: seq<Role>, role: Role)
    ensures Expected(h + [c], supported, role) ==
            ClassList(h + [c], supported, |h|, |c.declaredMethods|, role) + Expected(h, supported, role)
  {
    UptoStable(h, c, supported, |h|, role);
  }

  /** A method overriding (same signature, not private) a method of a
      superclass hides it: the superclass's method is not looked at, so it
      contributes to no role. */
  lemma OverriddenMethodIgnored(h: seq<ClassInfo>, supported: seq<Role>, d: int, e: int, i: int, j: int, role: Role)
    requires At(h, d, e) && At(h, i, j) && d < i
    requires Sig(h, d, e) == Sig(h, i, j)
    requires !h[i].declaredMethods[j].isPrivate
    ensures !Considered(h, i, j)
    ensures !Marked(h, supported, i, j, role)
  {
    assert Sig(h, d, e) in SeenBefore(h, i, j);
  }

  /** A private method is always looked at, even when a subclass declares
      the same signature. */
  lemma PrivateMethodConsidered(h: seq<ClassInfo>, supported: seq<Role>, i: int, j: int, role: Role)
    requires At(h, i, j) && h[i].declaredMethods[j].isPrivate
    ensures Marked(h, supported, i, j, role) <==> role in supported && role in h[i].declaredMethods[j].roles
  {
  }

  /** Two looked-at methods of one class carrying the same role raise
      `InterceptorMetadataException` when nothing in the hierarchy is
      malformed: the second one finds the role already detected. */
  lemma RepeatedRoleRaisesMetadataFault(h: seq<ClassInfo>, supported: seq<Role>, forTarget: bool,
                                        i: int, j: int, k: int, role: Role)
    requires Distinct(supported)
    requires At(h, i, j) && At(h, i, k) && j < k
    requires Marked(h, supported, i, j, role) && Marked(h, supported, i, k, role)
    requires NoMalformed(h, supported, forTarget)
    ensures BuildInterceptorMethodMap(h, supported, forTarget) == Err(MetadataFault)
  {
    assert DupAt(h, supported, i, k);
    assert !ClassCleanFrom(h, supported, forTarget, i, 0);
  }

  // A target class declaring two well-formed post-construct callbacks.

  const TwiceClass := JavaClass("org.jboss.interceptor.proxy.Twice", false)
  const FirstCallback := MethodInfo(JavaMethod(TwiceClass, "first", []), {PostConstruct}, false, VoidReturn)
  const SecondCallback := MethodInfo(JavaMethod(TwiceClass, "second", []), {PostConstruct}, false, VoidReturn)

  const TwiceHierarchy: seq<ClassInfo> := [
    ClassInfo("org.jboss.interceptor.proxy.Twice", [FirstCallback, SecondCallback]),
    ClassInfo("java.lang.Object", [])
  ]

  /** Reading `Twice` as a target class fails with
      `InterceptorMetadataException`, not a signature exception: both
      callbacks have the right shape, but the class carries the role twice. */
  lemma TwoPostConstructCallbacksRejected()
    ensures BuildInterceptorMethodMap(TwiceHierarchy, AllRoles, true) == Err(MetadataFault)
  {
    var h := TwiceHierarchy;
    assert Distinct(AllRoles);
    assert Sig(h, 0, 0) != Sig(h, 0, 1) by {
      assert h[0].declaredMethods[0].javaMethod.name != h[0].declaredMethods[1].javaMethod.name;
    }
    assert SeenBefore(h, 0, 0) == {};
    assert Considered(h, 0, 0) && Considered(h, 0, 1);
    forall a, b | At(h, a, b) ensures !BadAt(h, AllRoles, true, a, b) {
    }
    RepeatedRoleRaisesMetadataFault(h, AllRoles, true, 0, 0, 1, PostConstruct);
  }

  // The target-class hierarchy of the interception tests: `FootballTeam`
  // extends `Team`, which extends `Object`. Only `getName` and the
  // post-construct and around-invoke callbacks are listed; the echo
  // methods and the passivation callbacks are left out of this fixture.

  const Context := JavaClass("javax.interceptor.InvocationContext", true)
  const FootballTeamClass := JavaClass("org.jboss.interceptor.proxy.FootballTeam", false)
  const TeamClass := JavaClass("org.jboss.interceptor.proxy.Team", false)

  const GetName := MethodInfo(JavaMethod(FootballTeamClass, "getName", []), {}, false, OtherReturn)
  const ItsMe := MethodInfo(JavaMethod(FootballTeamClass, "itsMe", [Context]), {AroundInvoke}, false, ObjectReturn)
  const AfterConstruction := MethodInfo(JavaMethod(FootballTeamClass, "afterConstruction", []), {PostConstruct}, false, VoidReturn)
  const TeamPostConstruct := MethodInfo(JavaMethod(TeamClass, "teamPostConstruct", []), {PostConstruct}, false, VoidReturn)

  const FootballTeamHierarchy: seq<ClassInfo> := [
    ClassInfo("org.jboss.interceptor.proxy.FootballTeam", [GetName, ItsMe, AfterConstruction]),
    ClassInfo("org.jboss.interceptor.proxy.Team", [TeamPostConstruct]),
    ClassInfo("java.lang.Object", [])
  ]

  /** Every method of the hierarchy has its own name, so each is looked at. */
  lemma FootballTeamAllConsidered(i: int, j: int)
    requires At(FootballTeamHierarchy, i, j)
    ensures Considered(FootballTeamHierarchy, i, j)
  {
    var h := FootballTeamHierarchy;
    forall a, b | 0 <= a < |h| && 0 <= b < |h[a].declaredMethods| && (a < i || (a == i && b < j))
      ensures Sig(h, a, b) != Sig(h, i, j)
    {
      assert h[a].declaredMethods[b].javaMethod.name != h[i].declaredMethods[j].javaMethod.name;
    }
  }

  lemma FootballTeamErrorFree()
    ensures ErrorFree(FootballTeamHierarchy, AllRoles, true)
  {
    var h := FootballTeamHierarchy;
    forall a | 0 <= a < |h| ensures ClassCleanFrom(h, AllRoles, true, a, 0) {
      forall k | 0 <= k < |h[a].declaredMethods|
        ensures !BadAt(h, AllRoles, true, a, k) && !DupAt(h, AllRoles, a, k)
      {
        FootballTeamNoError(a, k);
      }
    }
  }

  lemma FootballTeamNoError(a: int, k: int)
    requires At(FootballTeamHierarchy, a, k)
    ensures !BadAt(FootballTeamHierarchy, AllRoles, true, a, k)
    ensures !DupAt(FootballTeamHierarchy, AllRoles, a, k)
  {
    var h := FootballTeamHierarchy;
    FootballTeamAllConsidered(a, k);
    forall role | Marked(h, AllRoles, a, k, role) ensures WellShaped(role, h[a].declaredMethods[k], true) {
    }
    forall role, k' | 0 <= k' < k && Marked(h, AllRoles, a, k', role) ensures !Marked(h, AllRoles, a, k, role) {
    }
  }

  lemma FootballTeamExpected(role: Role)
    ensures Expected(FootballTeamHierarchy, AllRoles, role) ==
      (if role == PostConstruct then [TeamPostConstruct, AfterConstruction]
       else if role == AroundInvoke then [ItsMe] else [])
  {
    var h := FootballTeamHierarchy;
    FootballTeamAllConsidered(0, 0);
    FootballTeamAllConsidered(0, 1);
    FootballTeamAllConsidered(0, 2);
    FootballTeamAllConsidered(1, 0);
    assert ClassList(h, AllRoles, 2, 0, role) == [];
    assert ClassList(h, AllRoles, 1, 1, role) == (if role == PostConstruct then [TeamPostConstruct] else []);
    assert ClassList(h, AllRoles, 0, 3, role) ==
      (if role == PostConstruct then [AfterConstruction] else if role == AroundInvoke then [ItsMe] else []);
  }

  /** Read as a target class, `FootballTeam` has post-construct callbacks
      `Team.teamPostConstruct` then `FootballTeam.afterConstruction` (root
      class first) and the around-invoke method `itsMe`. */
  lemma FootballTeamScan()
    ensures var r := BuildInterceptorMethodMap(FootballTeamHierarchy, AllRoles, true);
      && r.Ok?
      && Lookup(r.value, PostConstruct) == [TeamPostConstruct, AfterConstruction]
      && Lookup(r.value, AroundInvoke) == [ItsMe]
      && Lookup(r.value, PreDestroy) == []
  {
    assert Distinct(AllRoles);
    FootballTeamErrorFree();
    FootballTeamExpected(PostConstruct);
    FootballTeamExpected(AroundInvoke);
    FootballTeamExpected(PreDestroy);
  }
}
