/**
 * The test methods of `HookCallbacksSerializationTest`, stated about the
 * registry: lemmas over one hook's table, and methods that drive a fresh
 * `Filters` registry call by call and return what each `has_filter` answered.
 */
module Scenarios {
  import opened Wrappers
  import opened Identifiers
  import opened Registry

  /** The three registrations of the custom-id test, in order, at `p`, `p + 1` and `p + 2`. */
  function ThreeCustomAdds(t: Table, closure: Callable, invokable: Callable, objMethod: Callable,
                           k1: string, k2: string, k3: string, p: int, a: int, hash: ObjectHash): Table
  {
    var t1 := AfterAdd(t, closure, p, a, Some(k1), hash);
    var t2 := AfterAdd(t1, invokable, p + 1, a, Some(k2), hash);
    AfterAdd(t2, objMethod, p + 2, a, Some(k3), hash)
  }

  /** The shapes the custom-id test registers: a closure, an invokable and an object method. */
  predicate CustomIdShapes(closure: Callable, invokable: Callable, objMethod: Callable) {
    && closure.ObjectCallable? && closure.obj.Closure?
    && invokable.ObjectCallable? && invokable.obj.Instance?
    && objMethod.ArrayCallable? && objMethod.target.ObjectTarget?
  }

  /**
   * A closure, an invokable and an object method registered on one hook under
   * three distinct custom ids are each found at their own priority, each removed
   * by its id and its priority, and removing all three gives back the table as
   * it was, where none of the ids is found.
   */
  lemma {:induction false} CustomIdsIndependent(t: Table, closure: Callable, invokable: Callable, objMethod: Callable,
                                                k1: string, k2: string, k3: string, p: int, a: int, hash: ObjectHash)
    requires ValidTable(t)
    requires CustomIdShapes(closure, invokable, objMethod)
    requires k1 != k2 && k2 != k3 && k1 != k3
    requires Unclaimed(t, k1) && Unclaimed(t, k2) && Unclaimed(t, k3)
    requires Unclaimed(t, OldIdentifier(closure, hash))
    requires Unclaimed(t, OldIdentifier(invokable, hash))
    requires Unclaimed(t, OldIdentifier(objMethod, hash))
    ensures var t3 := ThreeCustomAdds(t, closure, invokable, objMethod, k1, k2, k3, p, a, hash);
            && HasFilter(t3, ById(k1), hash) == Some(p)
            && HasFilter(t3, ById(k2), hash) == Some(p + 1)
            && HasFilter(t3, ById(k3), hash) == Some(p + 2)
    ensures var t3 := ThreeCustomAdds(t, closure, invokable, objMethod, k1, k2, k3, p, a, hash);
            var r1 := RemoveFilter(t3, ById(k1), p, hash);
            var r2 := RemoveFilter(r1.0, ById(k2), p + 1, hash);
            var r3 := RemoveFilter(r2.0, ById(k3), p + 2, hash);
            && r1.1 && r2.1 && r3.1 && r3.0 == t
            && HasFilter(t, ById(k1), hash) == None
            && HasFilter(t, ById(k2), hash) == None
            && HasFilter(t, ById(k3), hash) == None
  {
    var o1, o2, o3 := OldIdentifier(closure, hash), OldIdentifier(invokable, hash), OldIdentifier(objMethod, hash);
    var t1 := Insert(t, k1, o1, Entry(p, a));
    var t2 := Insert(t1, k2, o2, Entry(p + 1, a));
    var t3 := Insert(t2, k3, o3, Entry(p + 2, a));
    assert t3 == ThreeCustomAdds(t, closure, invokable, objMethod, k1, k2, k3, p, a, hash);
    assert t3.callbacks[k1] == Entry(p, a);
    assert t3.callbacks[k2] == Entry(p + 1, a);
    assert t3.callbacks[k3] == Entry(p + 2, a);
    DeleteInsertCommute(t2, k1, k3, o3, Entry(p + 2, a));
    DeleteInsertCommute(t1, k1, k2, o2, Entry(p + 1, a));
    DeleteUndoesInsert(t, k1, o1, Entry(p, a));
    var t23 := Insert(Insert(t, k2, o2, Entry(p + 1, a)), k3, o3, Entry(p + 2, a));
    assert Delete(t3, k1) == t23;
    assert t23.callbacks[k2] == Entry(p + 1, a);
    DeleteInsertCommute(Insert(t, k2, o2, Entry(p + 1, a)), k2, k3, o3, Entry(p + 2, a));
    DeleteUndoesInsert(t, k2, o2, Entry(p + 1, a));
    var t3only := Insert(t, k3, o3, Entry(p + 2, a));
    assert Delete(t23, k2) == t3only;
    DeleteUndoesInsert(t, k3, o3, Entry(p + 2, a));
  }

  /**
   * Line 152 of the test checks `has_filter('init', 'my_custom_hook')`, an id
   * never registered, instead of the closure's id. With the closure's removal
   * left out altogether, all three final checks as written still pass while the
   * closure is still found under its id.
   */
  lemma {:induction false} CustomHookCheckIsVacuous(hash: ObjectHash, h1: Handle, h2: Handle, h3: Handle,
                                                    basename: string, p: int, a: int)
    requires h1 != h2 && h2 != h3 && h1 != h3
    requires WellFormedHashOn(hash, {h1, h2, h3})
    ensures var closure := ObjectCallable(Closure(h1, "", basename));
            var invokable := ObjectCallable(Instance(h2, AnonymousClass(basename)));
            var objMethod := ArrayCallable(ObjectTarget(Instance(h3, Named("ArrayObject"))), "getArrayCopy");
            var t3 := ThreeCustomAdds(EmptyTable, closure, invokable, objMethod, "my_custom_closure_id",
                                      "my_custom_invokable_id", "my_custom_method_id", p, a, hash);
            var r2 := RemoveFilter(t3, ById("my_custom_invokable_id"), p + 1, hash);
            var r3 := RemoveFilter(r2.0, ById("my_custom_method_id"), p + 2, hash);
            && HasFilter(r3.0, ById("my_custom_hook"), hash) == None
            && HasFilter(r3.0, ById("my_custom_invokable_id"), hash) == None
            && HasFilter(r3.0, ById("my_custom_method_id"), hash) == None
            && HasFilter(r3.0, ById("my_custom_closure_id"), hash) == Some(p)
  {
    var closure := ObjectCallable(Closure(h1, "", basename));
    var invokable := ObjectCallable(Instance(h2, AnonymousClass(basename)));
    var objMethod := ArrayCallable(ObjectTarget(Instance(h3, Named("ArrayObject"))), "getArrayCopy");
    var k1, k2, k3 := "my_custom_closure_id", "my_custom_invokable_id", "my_custom_method_id";
    var o1, o2, o3 := hash(h1), hash(h2), hash(h3) + "getArrayCopy";
    assert OldIdentifier(closure, hash) == o1 && OldIdentifier(invokable, hash) == o2;
    assert OldIdentifier(objMethod, hash) == o3;
    assert |o1| == |o2| == HashWidth && |o3| > HashWidth && o1 != o2;
    var t1 := Insert(EmptyTable, k1, o1, Entry(p, a));
    var t2 := Insert(t1, k2, o2, Entry(p + 1, a));
    var t3 := Insert(t2, k3, o3, Entry(p + 2, a));
    assert t3 == ThreeCustomAdds(EmptyTable, closure, invokable, objMethod, k1, k2, k3, p, a, hash);
    assert t3.callbacks[k2] == Entry(p + 1, a);
    DeleteInsertCommute(t2, k2, k3, o3, Entry(p + 2, a));
    DeleteUndoesInsert(t1, k2, o2, Entry(p + 1, a));
    var t13 := Insert(t1, k3, o3, Entry(p + 2, a));
    assert Delete(t3, k2) == t13;
    assert t13.callbacks[k3] == Entry(p + 2, a);
    DeleteUndoesInsert(t1, k3, o3, Entry(p + 2, a));
    assert Delete(t13, k3) == t1;
  }

  // ---------------------------------------------------------------------------
  // The test methods as calls on the registry. Each returns what the test's
  // `has_filter` calls answered, in the test's order, except that the last two
  // answers of `testCheckAndRemoveByNewIdentifier` (both `false`) are asked
  // callable first.

  /** The part the three backward-compatibility tests share, with the queries each one uses. */
  method AddHasRemoveOnRegistry(hash: ObjectHash, cb: Callable, priority: int, args: int,
                                check: Query, wrong: Query, exact: Query)
    returns (observed: seq<Option<int>>)
    requires check in Queries(cb, hash) && wrong in Queries(cb, hash) && exact in Queries(cb, hash)
    ensures observed == [Some(priority), Some(priority), Some(priority), Some(priority), None, None]
  {
    var filters := new Filters(hash);
    var added := filters.Add("an_hook", cb, priority, args, None);
    AddHasRemove(EmptyTable, cb, priority, args, wrong, exact, hash);
    var t1 := AfterAdd(EmptyTable, cb, priority, args, None, hash);
    assert filters.TableFor("an_hook") == t1;
    var a1 := filters.Has("an_hook", check);
    var a2 := filters.Has("an_hook", ByCallable(cb));
    var removed := filters.Remove("an_hook", wrong, priority + 1);
    var a3 := filters.Has("an_hook", check);
    var a4 := filters.Has("an_hook", ByCallable(cb));
    removed := filters.Remove("an_hook", exact, priority);
    assert filters.TableFor("an_hook") == EmptyTable;
    var a5 := filters.Has("an_hook", ByCallable(cb));
    var a6 := filters.Has("an_hook", check);
    observed := [a1, a2, a3, a4, a5, a6];
  }

  /** `testBackWardCompatibilityRemoveByCallback`: checks by legacy id, removes by callable. */
  method RemoveByCallbackTest(hash: ObjectHash, cb: Callable, priority: int, args: int)
    returns (observed: seq<Option<int>>)
    ensures observed == [Some(priority), Some(priority), Some(priority), Some(priority), None, None]
  {
    var identifier := ById(OldIdentifier(cb, hash));
    observed := AddHasRemoveOnRegistry(hash, cb, priority, args, identifier, identifier, ByCallable(cb));
  }

  /** `testBackWardCompatibilityRemoveByIdentifier`: checks and removes by legacy id. */
  method RemoveByIdentifierTest(hash: ObjectHash, cb: Callable, priority: int, args: int)
    returns (observed: seq<Option<int>>)
    ensures observed == [Some(priority), Some(priority), Some(priority), Some(priority), None, None]
  {
    var identifier := ById(OldIdentifier(cb, hash));
    observed := AddHasRemoveOnRegistry(hash, cb, priority, args, identifier, identifier, identifier);
  }

  /** `testCheckAndRemoveByNewIdentifier`: checks and removes by new id. */
  method RemoveByNewIdentifierTest(hash: ObjectHash, cb: Callable, priority: int, args: int)
    returns (observed: seq<Option<int>>)
    ensures observed == [Some(priority), Some(priority), Some(priority), Some(priority), None, None]
  {
    var id := ById(NewIdentifier(cb));
    observed := AddHasRemoveOnRegistry(hash, cb, priority, args, id, id, id);
  }

  /**
   * `testAddThenRemoveHookWithCustomCallbackId`, with the check of line 152
   * made on the closure's id, `my_custom_closure_id`, as intended (line 152
   * queries `my_custom_hook`; see `CustomHookCheckIsVacuous`).
   */
  method CustomCallbackIdTest(hash: ObjectHash, h1: Handle, h2: Handle, h3: Handle,
                              basename: string, priority: int, args: int)
    returns (observed: seq<Option<int>>)
    ensures observed == [Some(priority), Some(priority + 1), Some(priority + 2), None, None, None]
  {
    var closure := ObjectCallable(Closure(h1, "", basename));
    var invokable := ObjectCallable(Instance(h2, AnonymousClass(basename)));
    var objMethod := ArrayCallable(ObjectTarget(Instance(h3, Named("ArrayObject"))), "getArrayCopy");
    var k1, k2, k3 := "my_custom_closure_id", "my_custom_invokable_id", "my_custom_method_id";
    CustomIdsIndependent(EmptyTable, closure, invokable, objMethod, k1, k2, k3, priority, args, hash);
    var filters := new Filters(hash);
    var outcome := filters.Add("init", closure, priority, args, Some(k1));
    outcome := filters.Add("init", invokable, priority + 1, args, Some(k2));
    outcome := filters.Add("init", objMethod, priority + 2, args, Some(k3));
    assert filters.TableFor("init")
        == ThreeCustomAdds(EmptyTable, closure, invokable, objMethod, k1, k2, k3, priority, args, hash);
    var a1 := filters.Has("init", ById(k1));
    var a2 := filters.Has("init", ById(k2));
    var a3 := filters.Has("init", ById(k3));
    var removed := filters.Remove("init", ById(k1), priority);
    removed := filters.Remove("init", ById(k2), priority + 1);
    removed := filters.Remove("init", ById(k3), priority + 2);
    assert filters.TableFor("init") == EmptyTable;
    var a4 := filters.Has("init", ById(k1));
    var a5 := filters.Has("init", ById(k2));
    var a6 := filters.Has("init", ById(k3));
    observed := [a1, a2, a3, a4, a5, a6];
  }

  /** `testAddHookWithNewIdForPlainFunctionIsDoingItWrong`. */
  method PlainFunctionCustomIdTest(hash: ObjectHash, encode: Misuse -> string) returns (outcome: Outcome<Misuse>)
    ensures outcome.Fail? && DoingItWrongMarker <= ExceptionMessage(outcome.error, encode)
  {
    var filters := new Filters(hash);
    outcome := filters.Add("init", StringCallable("strtolower"), 10, 2, Some("my_custom_hook"));
  }

  /** `testAddHookWithNewIdForStaticMethodIsDoingItWrong`. */
  method StaticMethodCustomIdTest(hash: ObjectHash, encode: Misuse -> string) returns (outcome: Outcome<Misuse>)
    ensures outcome.Fail? && DoingItWrongMarker <= ExceptionMessage(outcome.error, encode)
  {
    var filters := new Filters(hash);
    var cb := ArrayCallable(ClassTarget("HookCallbacksSerializationTest"), "assertTrue");
    outcome := filters.Add("init", cb, 10, 2, Some("my_custom_hook"));
  }
}
