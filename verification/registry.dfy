/** The bookkeeping shared by both revisions of `InterceptionModelImpl`: a
    registry from (role, optional method key) to an ordered list of
    interceptors, with per-method opt-out of the global lists and the
    insertion-ordered set of every interceptor ever bound.

    `K` is the method key (a `MethodSignature` in the builder revision, a
    `MethodReference` in the older one) and `I` the interceptor identity. */
module Registry {
  import opened Results
  import opened Roles

  datatype Registry<K(==,!new), I(==,!new)> = Registry(
    globals: map<Role, seq<I>>,
    methodBound: map<Role, map<K, seq<I>>>,
    ignoringGlobals: set<K>,
    all: seq<I>)

  function Empty<K(==,!new), I(==,!new)>(): Registry<K, I>
  {
    Registry(map[], map[], {}, [])
  }

  /** The global list of a role; an unregistered role has the empty list. */
  function Global<K(==,!new), I(==,!new)>(s: Registry<K, I>, role: Role): seq<I>
  {
    Lookup(s.globals, role)
  }

  /** The list bound to one method for a role. */
  function Bound<K(==,!new), I(==,!new)>(s: Registry<K, I>, role: Role, key: K): seq<I>
  {
    if role in s.methodBound then Lookup(s.methodBound[role], key) else []
  }

  /** The registry's invariant: `all` has no repeats and holds every
      interceptor found in any list. */
  ghost predicate Valid<K(!new), I(!new)>(s: Registry<K, I>)
  {
    && Distinct(s.all)
    && (forall role, x :: x in Global(s, role) ==> x in s.all)
    && (forall role, key, x :: x in Bound(s, role, key) ==> x in s.all)
  }

  /** A query is well formed when a lifecycle role comes without a method
      key and an around role comes with one. */
  predicate WellFormedQuery<K>(role: Role, key: Option<K>)
  {
    IsLifecycle(role) == key.None?
  }

  /** `getInterceptors(type, method)`. */
  function Query<K(==,!new), I(==,!new)>(s: Registry<K, I>, role: Role, key: Option<K>): (r: Result<seq<I>>)
    ensures r.Err? <==> !WellFormedQuery(role, key)
    ensures IsLifecycle(role) && key.Some? ==> r == Err(IllegalArgument(LifecycleWithMethod))
    ensures !IsLifecycle(role) && key.None? ==> r == Err(IllegalArgument(AroundWithoutMethod))
  {
    if IsLifecycle(role) && key.Some? then Err(IllegalArgument(LifecycleWithMethod))
    else if !IsLifecycle(role) && key.None? then Err(IllegalArgument(AroundWithoutMethod))
    else if IsLifecycle(role) then Ok(Global(s, role))
    else
      var globalPart := if key.value !in s.ignoringGlobals then Global(s, role) else [];
      Ok(globalPart + Bound(s, role, key.value))
  }

  /** `validateDuplicateInterceptors`: the first of `ids` already present in
      `list`, checked against `list` as it was before the call, so a repeat
      within `ids` itself is not reported. */
  function FirstDuplicate<I(==,!new)>(list: seq<I>, ids: seq<I>): (r: Option<I>)
    ensures r.None? <==> (forall i :: 0 <= i < |ids| ==> ids[i] !in list)
    ensures r.Some? ==> r.value in ids && r.value in list
    ensures r.Some? ==> exists i :: 0 <= i < |ids| && ids[i] == r.value &&
                          forall j :: 0 <= j < i ==> ids[j] !in list
  {
    if ids == [] then None
    else if ids[0] in list then Some(ids[0])
    else
      var rest := FirstDuplicate(list, ids[1..]);
      assert forall i :: 1 <= i < |ids| ==> ids[i] == ids[1..][i - 1];
      if rest.Some? then
        var i :| 0 <= i < |ids[1..]| && ids[1..][i] == rest.value &&
                 forall j :: 0 <= j < i ==> ids[1..][j] !in list;
        assert ids[i + 1] == rest.value;
        rest
      else rest
  }

  /** `LinkedHashSet.addAll`: appends, in order, each of `ids` not yet in
      `all`. */
  function AddAll<I(==,!new)>(all: seq<I>, ids: seq<I>): (r: seq<I>)
    ensures all <= r
    ensures forall x :: x in r <==> x in all || x in ids
    ensures Distinct(all) ==> Distinct(r)
    decreases |ids|
  {
    if ids == [] then all
    else
      var next := if ids[0] in all then all else all + [ids[0]];
      assert forall x :: x in ids <==> x == ids[0] || x in ids[1..];
      AddAll(next, ids[1..])
  }

  /** Adding one interceptor appends it exactly when it is new. */
  lemma AddAllOne<I(!new)>(all: seq<I>, x: I)
    ensures AddAll(all, [x]) == if x in all then all else all + [x]
  {
    var next := if x in all then all else all + [x];
    assert [x][1..] == [];
    assert AddAll(next, []) == next;
  }

  /** `addAll` of a concatenation is `addAll` of each part in turn: the
      new interceptors are added in the order they are given, one at a
      time, as `AddAllOne` describes. */
  lemma {:induction false} AddAllConcat<I(!new)>(all: seq<I>, a: seq<I>, b: seq<I>)
    ensures AddAll(all, a + b) == AddAll(AddAll(all, a), b)
    decreases |a|
  {
    if a == [] {
      assert a + b == b;
    } else {
      var next := if a[0] in all then all else all + [a[0]];
      assert (a + b)[0] == a[0];
      assert (a + b)[1..] == a[1..] + b;
      AddAllConcat(next, a[1..], b);
    }
  }

  /** `appendInterceptors(type, method, interceptors...)`. A global append
      (`key == None`) is checked against the role's global list only; a
      method-bound append against the role's global list and the method's
      own list. A duplicate raises `dup` and changes nothing observable;
      otherwise the interceptors are appended and added to `all`. */
  function Append<K(==,!new), I(==,!new)>(s: Registry<K, I>, role: Role, key: Option<K>, ids: seq<I>, dup: Fault)
    : (r: Result<Registry<K, I>>)
    ensures r.Err? ==> r.fault == dup
    ensures key.None? ==> (r.Err? <==> exists i :: 0 <= i < |ids| && ids[i] in Global(s, role))
    ensures key.Some? ==> (r.Err? <==> exists i :: 0 <= i < |ids| &&
                                         (ids[i] in Global(s, role) || ids[i] in Bound(s, role, key.value)))
    ensures r.Ok? ==> r.value.all == AddAll(s.all, ids) && r.value.ignoringGlobals == s.ignoringGlobals
    ensures r.Ok? && key.None? ==>
      && Global(r.value, role) == Global(s, role) + ids
      && (forall other :: other != role ==> Global(r.value, other) == Global(s, other))
      && (forall other, k :: Bound(r.value, other, k) == Bound(s, other, k))
    ensures r.Ok? && key.Some? ==>
      && Bound(r.value, role, key.value) == Bound(s, role, key.value) + ids
      && (forall other, k :: (other, k) != (role, key.value) ==> Bound(r.value, other, k) == Bound(s, other, k))
      && (forall other :: Global(r.value, other) == Global(s, other))
  {
    if key.None? then
      if FirstDuplicate(Global(s, role), ids).Some? then Err(dup)
      else Ok(s.(globals := s.globals[role := Global(s, role) + ids], all := AddAll(s.all, ids)))
    else
      var k := key.value;
      var perMethod := if role in s.methodBound then s.methodBound[role] else map[];
      if FirstDuplicate(Global(s, role), ids).Some? then Err(dup)
      else if FirstDuplicate(Bound(s, role, k), ids).Some? then Err(dup)
      else
        var s' := s.(methodBound := s.methodBound[role := perMethod[k := Bound(s, role, k) + ids]],
                     all := AddAll(s.all, ids));
        assert forall other, k' :: (other, k') != (role, k) ==> Bound(s', other, k') == Bound(s, other, k');
        Ok(s')
  }

  /** Marks a method as skipping the global lists. */
  function ExcludeGlobals<K(==,!new), I(==,!new)>(s: Registry<K, I>, key: K): (r: Registry<K, I>)
    ensures key in r.ignoringGlobals
  {
    s.(ignoringGlobals := s.ignoringGlobals + {key})
  }

  /** Marks a method as using the global lists again. */
  function IncludeGlobals<K(==,!new), I(==,!new)>(s: Registry<K, I>, key: K): (r: Registry<K, I>)
    ensures key !in r.ignoringGlobals
  {
    s.(ignoringGlobals := s.ignoringGlobals - {key})
  }

  // ---------------------------------------------------------------------
  // Properties of the registry

  lemma EmptyIsValid<K(!new), I(!new)>()
    ensures Valid(Empty<K, I>())
  {
  }

  /** Appending keeps `all` free of repeats and complete. */
  lemma AppendPreservesValid<K(!new), I(!new)>(s: Registry<K, I>, role: Role, key: Option<K>, ids: seq<I>, dup: Fault)
    requires Valid(s)
    requires Append(s, role, key, ids, dup).Ok?
    ensures Valid(Append(s, role, key, ids, dup).value)
  {
    var s' := Append(s, role, key, ids, dup).value;
    forall other, x | x in Global(s', other)
      ensures x in s'.all
    {
      if key.None? && other == role {
        assert x in Global(s, role) || x in ids;
      }
    }
    forall other, k, x | x in Bound(s', other, k)
      ensures x in s'.all
    {
      if key.Some? && (other, k) == (role, key.value) {
        assert x in Bound(s, role, key.value) || x in ids;
      }
    }
  }

  lemma ExcludePreservesValid<K(!new), I(!new)>(s: Registry<K, I>, key: K, exclude: bool)
    requires Valid(s)
    ensures Valid(if exclude then ExcludeGlobals(s, key) else IncludeGlobals(s, key))
  {
    var s' := if exclude then ExcludeGlobals(s, key) else IncludeGlobals(s, key);
    forall role, x | x in Global(s', role)
      ensures x in s'.all
    {
      assert Global(s', role) == Global(s, role);
    }
    forall role, k, x | x in Bound(s', role, k)
      ensures x in s'.all
    {
      assert Bound(s', role, k) == Bound(s, role, k);
    }
  }

  /** Every interceptor a query returns is one of `all`, so the handler has
      created an instance for it. */
  lemma QueryResultsRegistered<K(!new), I(!new)>(s: Registry<K, I>, role: Role, key: Option<K>)
    requires Valid(s)
    requires Query(s, role, key).Ok?
    ensures forall x :: x in Query(s, role, key).value ==> x in s.all
  {
  }

  /** A lifecycle query returns the role's global list, or the empty list if
      none was registered. */
  lemma LifecycleQueryIsGlobalList<K(!new), I(!new)>(s: Registry<K, I>, role: Role)
    requires IsLifecycle(role)
    ensures Query(s, role, None) == Ok(if role in s.globals then s.globals[role] else [])
  {
  }

  /** An around query returns the global list, unless the method skips it,
      followed by the method's own list. */
  lemma AroundQueryOrder<K(!new), I(!new)>(s: Registry<K, I>, role: Role, key: K)
    requires !IsLifecycle(role)
    ensures key !in s.ignoringGlobals ==> Query(s, role, Some(key)) == Ok(Global(s, role) + Bound(s, role, key))
    ensures key in s.ignoringGlobals ==> Query(s, role, Some(key)) == Ok(Bound(s, role, key))
    ensures Query(s, role, Some(key)) == Ok([]) <==>
      (Bound(s, role, key) == [] && (key in s.ignoringGlobals || Global(s, role) == []))
  {
    assert [] + Bound(s, role, key) == Bound(s, role, key);
  }

  /** After a successful global append, the role's queries see the new
      interceptors right after the old global ones, and every other query
      is unchanged. */
  lemma QueryAfterGlobalAppend<K(!new), I(!new)>(s: Registry<K, I>, role: Role, ids: seq<I>, dup: Fault,
                                            role2: Role, key2: Option<K>)
    requires Append(s, role, None, ids, dup).Ok?
    requires WellFormedQuery(role2, key2)
    ensures var s' := Append(s, role, None, ids, dup).value;
      if role2 != role || (key2.Some? && key2.value in s.ignoringGlobals) then
        Query(s', role2, key2) == Query(s, role2, key2)
      else if key2.None? then
        Query(s', role2, key2) == Ok(Global(s, role) + ids)
      else
        Query(s', role2, key2) == Ok(Global(s, role) + ids + Bound(s, role, key2.value))
  {
  }

  /** After a successful method-bound append, that method's query for the
      role ends with the new interceptors, and every other query is
      unchanged. */
  lemma QueryAfterMethodAppend<K(!new), I(!new)>(s: Registry<K, I>, role: Role, key: K, ids: seq<I>, dup: Fault,
                                            role2: Role, key2: Option<K>)
    requires Append(s, role, Some(key), ids, dup).Ok?
    requires WellFormedQuery(role2, key2)
    ensures var s' := Append(s, role, Some(key), ids, dup).value;
      if role2 == role && key2 == Some(key) then
        Query(s', role2, key2) == Ok(Query(s, role2, key2).value + ids)
      else
        Query(s', role2, key2) == Query(s, role2, key2)
  {
    var s' := Append(s, role, Some(key), ids, dup).value;
    assert s'.ignoringGlobals == s.ignoringGlobals;
    assert Global(s', role2) == Global(s, role2);
    if role2 == role && key2 == Some(key) {
      QueryWithBoundExtended(s, s', role, key, ids);
    } else {
      assert key2.Some? ==> Bound(s', role2, key2.value) == Bound(s, role2, key2.value);
      QueryFromSameParts(s, s', role2, key2);
    }
  }

  /** A query reads only the skip set, the role's global list and the
      method's bound list. */
  lemma QueryFromSameParts<K(!new), I(!new)>(s: Registry<K, I>, t: Registry<K, I>, role: Role, key: Option<K>)
    requires t.ignoringGlobals == s.ignoringGlobals && Global(t, role) == Global(s, role)
    requires key.Some? ==> Bound(t, role, key.value) == Bound(s, role, key.value)
    ensures Query(t, role, key) == Query(s, role, key)
  {
  }

  /** Extending the method's bound list extends its around query alike. */
  lemma QueryWithBoundExtended<K(!new), I(!new)>(s: Registry<K, I>, t: Registry<K, I>, role: Role, key: K, ids: seq<I>)
    requires WellFormedQuery(role, Some(key))
    requires t.ignoringGlobals == s.ignoringGlobals && Global(t, role) == Global(s, role)
    requires Bound(t, role, key) == Bound(s, role, key) + ids
    ensures Query(t, role, Some(key)) == Ok(Query(s, role, Some(key)).value + ids)
  {
    var g := if key !in s.ignoringGlobals then Global(s, role) else [];
    assert g + (Bound(s, role, key) + ids) == (g + Bound(s, role, key)) + ids;
  }

  /** Skipping the global lists removes exactly the global part of that
      method's around queries. */
  lemma QueryAfterExclude<K(!new), I(!new)>(s: Registry<K, I>, key: K, role: Role, key2: Option<K>)
    requires WellFormedQuery(role, key2)
    ensures !IsLifecycle(role) && key2 == Some(key) ==>
      Query(ExcludeGlobals(s, key), role, key2) == Ok(Bound(s, role, key))
    ensures IsLifecycle(role) || key2 != Some(key) ==>
      Query(ExcludeGlobals(s, key), role, key2) == Query(s, role, key2)
  {
    assert [] + Bound(s, role, key) == Bound(s, role, key);
  }

  /** Excluding and then re-including the global lists for a method gives
      that method the global-then-bound order again, whatever its earlier
      setting. */
  lemma ExcludeThenInclude<K(!new), I(!new)>(s: Registry<K, I>, key: K, role: Role)
    requires !IsLifecycle(role)
    ensures Query(IncludeGlobals(ExcludeGlobals(s, key), key), role, Some(key))
         == Ok(Global(s, role) + Bound(s, role, key))
  {
  }
}
