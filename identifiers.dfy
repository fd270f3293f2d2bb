/**
 * Identifiers of hook callbacks.
 *
 * A PHP callable is one of three shapes: a string (a function name such as
 * `strtolower` or `Fixtures\a_function`, or a static method written
 * `"Class::method"`), an array `[target, method]` whose target is an object or a
 * class name, or a bare object (a closure or an invokable object).
 *
 * Two identifier formats are built from a callable:
 *  - the legacy one of `_wp_filter_build_unique_id` (WordPress 5.5.1), which
 *    relies on `spl_object_hash` and so changes from run to run;
 *  - the new deterministic one, built from class names and the base name of the
 *    file that defines a closure or an anonymous class.
 */
module Identifiers {

  /** A PHP object handle: what `spl_object_hash` is computed from. */
  type Handle = nat

  /**
   * `spl_object_hash`, a runtime call, seen as a function of the object handle.
   * Which function the runtime uses is left open; `WellFormedHashOn` states the
   * properties the legacy format relies on.
   */
  type ObjectHash = Handle -> string

  /** `spl_object_hash` returns 32 characters. */
  const HashWidth: nat := 32

  /**
   * On the objects alive together, `live`, every token has the same width and
   * distinct objects have distinct tokens. `spl_object_hash` promises no more: a
   * handle freed by the garbage collector may be reused, token and all.
   */
  ghost predicate WellFormedHashOn(hash: ObjectHash, live: set<Handle>) {
    && (forall h | h in live :: |hash(h)| == HashWidth)
    && (forall h1, h2 | h1 in live && h2 in live :: hash(h1) == hash(h2) ==> h1 == h2)
  }

  /** `HashWidth` copies of `c`: a token the witness below hands out. */
  function Token(c: char): (r: string)
    ensures |r| == HashWidth && forall i | 0 <= i < |r| :: r[i] == c
  {
    seq(HashWidth, _ => c)
  }

  /**
   * `WellFormedHashOn` can be met: for any three live objects, tokens of
   * `a`s, `b`s and `c`s (every other handle gets the `c` token) are well formed.
   */
  lemma {:induction false} WellFormedHashOnSatisfiable(h1: Handle, h2: Handle, h3: Handle)
    requires h1 != h2 && h2 != h3 && h1 != h3
    ensures WellFormedHashOn(h => if h == h1 then Token('a') else if h == h2 then Token('b') else Token('c'),
                             {h1, h2, h3})
  {
    var hash: ObjectHash := h => if h == h1 then Token('a') else if h == h2 then Token('b') else Token('c');
    assert Token('a')[0] == 'a' && Token('b')[0] == 'b' && Token('c')[0] == 'c';
    assert Token('a') != Token('b') && Token('b') != Token('c') && Token('a') != Token('c');
    assert hash(h1) == Token('a') && hash(h2) == Token('b') && hash(h3) == Token('c');
  }

  /** The class of an object that is not a closure. */
  datatype ClassRef =
    | Named(name: string)             // fully qualified, e.g. `Fixtures\SomeClass`
    | AnonymousClass(file: string)    // `new class { ... }`, declared in file `file`

  /** A PHP object: a closure, or an instance of a class. */
  datatype Object =
    | Closure(handle: Handle, namespace: string, file: string)
    | Instance(handle: Handle, cls: ClassRef)

  /** The first element of an array callable. */
  datatype Target = ObjectTarget(obj: Object) | ClassTarget(className: string)

  /** The shapes a PHP callable can take. */
  datatype Callable =
    | StringCallable(name: string)
    | ArrayCallable(target: Target, methodName: string)
    | ObjectCallable(obj: Object)

  /** The method PHP calls on an invokable object. */
  const InvokeMethod: string := "__invoke"

  /**
   * The legacy identifier, as `_wp_filter_build_unique_id` builds it: a string is
   * its own identifier; a bare object is treated as `[object, '']`; an object
   * target gives its hash followed by the method name; a class target gives
   * `Class::method`.
   */
  function OldIdentifier(cb: Callable, hash: ObjectHash): (r: string)
    ensures ObjectBased(cb) ==> hash(Receiver(cb).handle) <= r
    ensures !ObjectBased(cb) ==> r == NewIdentifier(cb)
  {
    match cb
    case StringCallable(name) => name
    case ObjectCallable(obj) => hash(obj.handle) + ""
    case ArrayCallable(ObjectTarget(obj), m) => hash(obj.handle) + m
    case ArrayCallable(ClassTarget(cls), m) => cls + "::" + m
  }

  /** `ns\local`, or `local` when `ns` is the global namespace. */
  function Qualified(namespace: string, local: string): string {
    if namespace == "" then local else namespace + "\\" + local
  }

  /** `suffix` is the tail of `s`. */
  predicate EndsWith(s: string, suffix: string) {
    |suffix| <= |s| && s[|s| - |suffix|..] == suffix
  }

  /**
   * The deterministic label of an object's class: a named class's fully
   * qualified name, `class()@file` for an anonymous class, `Closure` for a closure.
   */
  function ClassLabel(obj: Object): (r: string)
    ensures obj.Instance? && obj.cls.Named? ==> r == obj.cls.name
    ensures obj.Instance? && obj.cls.AnonymousClass? ==> "class()@" <= r && EndsWith(r, obj.cls.file)
  {
    match obj
    case Closure(_, _, _) => "Closure"
    case Instance(_, Named(name)) => name
    case Instance(_, AnonymousClass(file)) => "class()@" + file
  }

  /** The new deterministic identifier of a callable. */
  function NewIdentifier(cb: Callable): (r: string)
    ensures cb.StringCallable? ==> r == cb.name
    ensures cb.ArrayCallable? && cb.target.ClassTarget? ==> EndsWith(r, "::" + cb.methodName)
    ensures cb.ArrayCallable? && cb.target.ObjectTarget? ==> EndsWith(r, "->" + cb.methodName)
    ensures cb.ObjectCallable? && cb.obj.Instance? ==> EndsWith(r, "->" + InvokeMethod)
    ensures cb.ObjectCallable? && cb.obj.Closure? ==> EndsWith(r, "function()@" + cb.obj.file)
  {
    match cb
    case StringCallable(name) => name
    case ArrayCallable(ClassTarget(cls), m) => cls + "::" + m
    case ArrayCallable(ObjectTarget(obj), m) => ClassLabel(obj) + "->" + m
    case ObjectCallable(Closure(_, namespace, file)) => Qualified(namespace, "function()@" + file)
    case ObjectCallable(obj) => ClassLabel(obj) + "->" + InvokeMethod
  }

  /** Callables whose identity involves an object: closures, invokables and `[object, method]`. */
  predicate ObjectBased(cb: Callable) {
    cb.ObjectCallable? || (cb.ArrayCallable? && cb.target.ObjectTarget?)
  }

  /** The object an object-based callable is bound to. */
  function Receiver(cb: Callable): Object
    requires ObjectBased(cb)
  {
    if cb.ObjectCallable? then cb.obj else cb.target.obj
  }

  /** The method name the legacy format appends to the object hash (`''` for a bare object). */
  function LegacySuffix(cb: Callable): string
    requires ObjectBased(cb)
  {
    if cb.ObjectCallable? then "" else cb.methodName
  }

  /** The same callable with its object, if any, replaced by one with handle `h`. */
  function WithHandle(cb: Callable, h: Handle): (r: Callable)
    ensures ObjectBased(r) == ObjectBased(cb)
  {
    match cb
    case StringCallable(_) => cb
    case ArrayCallable(ClassTarget(_), _) => cb
    case ArrayCallable(ObjectTarget(obj), m) => ArrayCallable(ObjectTarget(obj.(handle := h)), m)
    case ObjectCallable(obj) => ObjectCallable(obj.(handle := h))
  }

  // ---------------------------------------------------------------------------
  // Legacy identifier

  /** A string callable (plain, namespaced or `"Class::method"`) is its own legacy identifier. */
  lemma LegacyIdOfString(name: string, hash: ObjectHash)
    ensures OldIdentifier(StringCallable(name), hash) == name
  {
  }

  /**
   * `[Class, m]` and the string `"Class::m"` have the same legacy identifier and
   * the same new identifier, and both formats agree on it.
   */
  lemma StaticArrayMatchesString(cls: string, m: string, hash: ObjectHash)
    ensures var asArray := ArrayCallable(ClassTarget(cls), m);
            var asString := StringCallable(cls + "::" + m);
            && OldIdentifier(asArray, hash) == OldIdentifier(asString, hash) == cls + "::" + m
            && NewIdentifier(asArray) == NewIdentifier(asString) == cls + "::" + m
  {
  }

  /** A bare object's legacy identifier is its hash and nothing more. */
  lemma LegacyIdOfBareObject(obj: Object, hash: ObjectHash)
    ensures OldIdentifier(ObjectCallable(obj), hash) == hash(obj.handle)
    ensures OldIdentifier(ObjectCallable(obj), hash) == OldIdentifier(ArrayCallable(ObjectTarget(obj), ""), hash)
  {
  }

  /** The legacy identifier of an object-based callable is its receiver's hash followed by its suffix. */
  lemma LegacyIdOfObjectBased(cb: Callable, hash: ObjectHash)
    requires ObjectBased(cb)
    ensures OldIdentifier(cb, hash) == hash(Receiver(cb).handle) + LegacySuffix(cb)
  {
  }

  /**
   * With tokens that are fixed-width and distinct on the two receivers, two
   * object-based callables have the
   * same legacy identifier exactly when they are bound to the same object handle
   * and carry the same method suffix.
   */
  lemma {:induction false} LegacyIdInjective(cb1: Callable, cb2: Callable, hash: ObjectHash)
    requires ObjectBased(cb1) && ObjectBased(cb2)
    requires WellFormedHashOn(hash, {Receiver(cb1).handle, Receiver(cb2).handle})
    ensures OldIdentifier(cb1, hash) == OldIdentifier(cb2, hash)
            <==> Receiver(cb1).handle == Receiver(cb2).handle && LegacySuffix(cb1) == LegacySuffix(cb2)
  {
    var t1, t2 := hash(Receiver(cb1).handle), hash(Receiver(cb2).handle);
    var s1, s2 := LegacySuffix(cb1), LegacySuffix(cb2);
    LegacyIdOfObjectBased(cb1, hash);
    LegacyIdOfObjectBased(cb2, hash);
    if t1 + s1 == t2 + s2 {
      assert |t1| == |t2| == HashWidth;
      assert t1 == (t1 + s1)[..HashWidth];
      assert t2 == (t2 + s2)[..HashWidth];
      assert s1 == (t1 + s1)[HashWidth..];
      assert s2 == (t2 + s2)[HashWidth..];
    }
  }

  /** Only object-based callables have a legacy identifier that depends on the hash. */
  lemma LegacyIdDependsOnHashOnlyForObjects(cb: Callable, hash1: ObjectHash, hash2: ObjectHash)
    requires !ObjectBased(cb)
    ensures OldIdentifier(cb, hash1) == OldIdentifier(cb, hash2) == NewIdentifier(cb)
  {
  }

  // ---------------------------------------------------------------------------
  // New identifier

  /**
   * The new identifier does not depend on object handles: it is the same from
   * run to run, for every instance of a class and for every closure of a file.
   */
  lemma NewIdIgnoresHandles(cb: Callable, h: Handle)
    ensures NewIdentifier(WithHandle(cb, h)) == NewIdentifier(cb)
  {
  }

  /**
   * The documented trade-off of the new format: two distinct objects bound to
   * the same method share a new identifier, while their legacy identifiers
   * differ when the hash is well formed.
   */
  lemma {:induction false} DistinctObjectsShareNewId(cb: Callable, h1: Handle, h2: Handle, hash: ObjectHash)
    requires ObjectBased(cb) && h1 != h2
    requires WellFormedHashOn(hash, {h1, h2})
    ensures NewIdentifier(WithHandle(cb, h1)) == NewIdentifier(WithHandle(cb, h2))
    ensures OldIdentifier(WithHandle(cb, h1), hash) != OldIdentifier(WithHandle(cb, h2), hash)
  {
    NewIdIgnoresHandles(cb, h1);
    NewIdIgnoresHandles(cb, h2);
    LegacyIdInjective(WithHandle(cb, h1), WithHandle(cb, h2), hash);
  }

  // The thirteen rows of the test data, each callable with its expected new
  // identifier, in three groups. Handles are arbitrary.

  /** Rows whose callable is a string or a static array: plain, namespaced and static. */
  lemma NewIdDataRowsNamed()
    ensures NewIdentifier(StringCallable("strtolower")) == "strtolower"
    ensures NewIdentifier(StringCallable("Fixtures\\a_function")) == "Fixtures\\a_function"
    ensures NewIdentifier(StringCallable("HookCallbacksSerializationTest::noop"))
            == "HookCallbacksSerializationTest::noop"
    ensures NewIdentifier(ArrayCallable(ClassTarget("HookCallbacksSerializationTest"), "noop"))
            == "HookCallbacksSerializationTest::noop"
    ensures NewIdentifier(StringCallable("Fixtures\\SomeClass::a_static_method"))
            == "Fixtures\\SomeClass::a_static_method"
    ensures NewIdentifier(ArrayCallable(ClassTarget("Fixtures\\SomeClass"), "a_static_method"))
            == "Fixtures\\SomeClass::a_static_method"
  {
  }

  /** Rows whose callable is bound to an instance of a named class. */
  lemma NewIdDataRowsObjects(h: Handle)
    ensures NewIdentifier(ArrayCallable(ObjectTarget(Instance(h, Named("ArrayObject"))), "getArrayCopy"))
            == "ArrayObject->getArrayCopy"
    ensures NewIdentifier(ArrayCallable(ObjectTarget(Instance(h, Named("Fixtures\\SomeClass"))), "a_method"))
            == "Fixtures\\SomeClass->a_method"
    ensures NewIdentifier(ObjectCallable(Instance(h, Named("Fixtures\\SomeClass"))))
            == "Fixtures\\SomeClass->__invoke"
  {
    assert ClassLabel(Instance(h, Named("ArrayObject"))) + "->" + "getArrayCopy" == "ArrayObject->getArrayCopy";
    assert ClassLabel(Instance(h, Named("Fixtures\\SomeClass"))) + "->" + "a_method" == "Fixtures\\SomeClass->a_method";
    assert ClassLabel(Instance(h, Named("Fixtures\\SomeClass"))) + "->" + InvokeMethod == "Fixtures\\SomeClass->__invoke";
  }

  /**
   * Rows for closures, which name their defining file: `basename` is the base
   * name of the test file, and `fixtures.php` defines the namespaced closure.
   */
  lemma NewIdDataRowsClosures(basename: string, h: Handle)
    ensures NewIdentifier(ObjectCallable(Closure(h, "", basename))) == "function()@" + basename
    ensures NewIdentifier(ObjectCallable(Closure(h, "Fixtures", "fixtures.php")))
            == "Fixtures\\function()@fixtures.php"
  {
    assert Qualified("Fixtures", "function()@" + "fixtures.php") == "Fixtures\\function()@fixtures.php";
  }

  /** Rows for the anonymous class declared in the test file, whose base name is `basename`. */
  lemma NewIdDataRowsAnonymous(basename: string, h: Handle)
    ensures NewIdentifier(ArrayCallable(ObjectTarget(Instance(h, AnonymousClass(basename))), "a_method"))
            == "class()@" + basename + "->a_method"
    ensures NewIdentifier(ObjectCallable(Instance(h, AnonymousClass(basename))))
            == "class()@" + basename + "->__invoke"
  {
    assert ClassLabel(Instance(h, AnonymousClass(basename))) + "->" + "a_method" == "class()@" + basename + "->a_method";
  }

  /**
   * The new identifier of a closure or object method, by shape: `Class->m` for
   * `[obj, m]`, `Class->__invoke` for an invokable, `[ns\]function()@file` for a
   * closure; and it never starts with a hash token.
   */
  lemma NewIdOfObjectBased(cb: Callable)
    requires ObjectBased(cb)
    ensures cb.ArrayCallable? ==> NewIdentifier(cb) == ClassLabel(cb.target.obj) + "->" + cb.methodName
    ensures cb.ObjectCallable? && cb.obj.Instance? ==> NewIdentifier(cb) == ClassLabel(cb.obj) + "->__invoke"
    ensures cb.ObjectCallable? && cb.obj.Closure? ==>
              NewIdentifier(cb) == Qualified(cb.obj.namespace, "function()@" + cb.obj.file)
  {
  }
}
