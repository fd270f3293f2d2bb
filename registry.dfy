/**
 * The hook registry that `add_filter`, `has_filter` and `remove_filter` drive.
 *
 * Each hook holds a table of callbacks keyed by identifier (the new
 * deterministic identifier, or a custom one chosen by the caller), and a
 * fallback index from legacy identifiers to those keys, so that a callback can
 * be reached by the callable itself, by its new identifier or by its legacy one.
 *
 * The functions below are the specification of one hook's table; the class
 * `Filters` holds the tables of all hooks and changes them in place.
 */
module Registry {
  import opened Wrappers
  import opened Identifiers

  /** What is stored for one callback: its priority and accepted argument count. */
  datatype Entry = Entry(priority: int, acceptedArgs: int)

  /**
   * The callbacks of one hook: `callbacks` maps each identifier to its entry;
   * `legacy` maps the legacy identifier of each registered callable to the key
   * it was registered under.
   */
  datatype Table = Table(callbacks: map<string, Entry>, legacy: map<string, string>)

  /** A hook nothing was added to. */
  const EmptyTable: Table := Table(map[], map[])

  /** Every legacy identifier leads to a registered callback. */
  predicate ValidTable(t: Table) {
    forall l :: l in t.legacy ==> t.legacy[l] in t.callbacks
  }

  /** An identifier that the table knows neither as a key nor as a legacy identifier. */
  predicate Unclaimed(t: Table, id: string) {
    id !in t.callbacks && id !in t.legacy
  }

  /** The second argument of `has_filter` and `remove_filter`: an identifier or a callable. */
  datatype Query = ById(id: string) | ByCallable(cb: Callable)

  /** The identifier a query is first looked up by. */
  function PrimaryId(q: Query): string {
    match q
    case ById(id) => id
    case ByCallable(cb) => NewIdentifier(cb)
  }

  /** The identifier a query falls back to in the legacy index. */
  function LegacyId(q: Query, hash: ObjectHash): string {
    match q
    case ById(id) => id
    case ByCallable(cb) => OldIdentifier(cb, hash)
  }

  /** The three ways the tests address one callable: itself, its legacy id and its new id. */
  function Queries(cb: Callable, hash: ObjectHash): set<Query> {
    {ByCallable(cb), ById(OldIdentifier(cb, hash)), ById(NewIdentifier(cb))}
  }

  /**
   * The key a query resolves to: an exact identifier first, else the key the
   * legacy index gives, else nothing.
   */
  function Find(t: Table, q: Query, hash: ObjectHash): (r: Option<string>)
    requires ValidTable(t)
    ensures r.Some? ==> r.value in t.callbacks
    ensures r.None? <==> PrimaryId(q) !in t.callbacks && LegacyId(q, hash) !in t.legacy
    ensures PrimaryId(q) in t.callbacks ==> r == Some(PrimaryId(q))
    ensures PrimaryId(q) !in t.callbacks && LegacyId(q, hash) in t.legacy ==> r == Some(t.legacy[LegacyId(q, hash)])
  {
    var primary := PrimaryId(q);
    var legacyId := LegacyId(q, hash);
    if primary in t.callbacks then Some(primary)
    else if legacyId in t.legacy then Some(t.legacy[legacyId])
    else None
  }

  /**
   * `has_filter(hook, q)`: the priority of the callback `q` reaches, or `None`
   * (PHP's `false`), which stays distinct from priority 0.
   */
  function HasFilter(t: Table, q: Query, hash: ObjectHash): (r: Option<int>)
    requires ValidTable(t)
    ensures r.None? <==> PrimaryId(q) !in t.callbacks && LegacyId(q, hash) !in t.legacy
    ensures PrimaryId(q) in t.callbacks ==> r == Some(t.callbacks[PrimaryId(q)].priority)
    ensures r.Some? ==> Find(t, q, hash).Some? && r.value == t.callbacks[Find(t, q, hash).value].priority
  {
    match Find(t, q, hash)
    case None => None
    case Some(key) => Some(t.callbacks[key].priority)
  }

  /** The misuse reported when a custom id is given for a callable that has a natural one. */
  datatype Misuse = CustomIdNotAllowed(identifier: string, customId: string)

  /** The marker every misuse exception message starts with. */
  const DoingItWrongMarker: string := "_doing_it_wrong"

  /**
   * The message of the exception `_doing_it_wrong` raises: the marker, then the
   * encoded payload (`json_encode`, a runtime call, is the parameter `encode`).
   */
  function ExceptionMessage(e: Misuse, encode: Misuse -> string): (r: string)
    ensures DoingItWrongMarker <= r
    ensures |r| == |DoingItWrongMarker| + |encode(e)| + 3
  {
    DoingItWrongMarker + ": " + encode(e) + "."
  }

  /**
   * The key a callable is registered under. A custom id is accepted only for
   * object-based callables (closures, invokables, `[object, method]`); plain
   * functions and static methods already have a stable identifier.
   */
  function RegistrationId(cb: Callable, customId: Option<string>): (r: Result<string, Misuse>)
    ensures r.Err? <==> customId.Some? && !ObjectBased(cb)
    ensures r.Ok? && customId.Some? ==> r.value == customId.value
    ensures customId.None? ==> r == Ok(NewIdentifier(cb))
  {
    match customId
    case None => Ok(NewIdentifier(cb))
    case Some(id) =>
      if ObjectBased(cb) then Ok(id) else Err(CustomIdNotAllowed(NewIdentifier(cb), id))
  }

  /** The legacy index without the identifiers that lead to `key`. */
  function DropAliasesOf(legacy: map<string, string>, key: string): (r: map<string, string>)
    ensures forall l :: l in r <==> l in legacy && legacy[l] != key
    ensures forall l :: l in r ==> r[l] == legacy[l]
  {
    map l | l in legacy && legacy[l] != key :: legacy[l]
  }

  /**
   * The table with `entry` stored under `key` (replacing what was there) and
   * `legacyId` leading to `key`; legacy identifiers of a replaced callback no
   * longer lead anywhere.
   */
  function Insert(t: Table, key: string, legacyId: string, entry: Entry): (r: Table)
    ensures ValidTable(t) ==> ValidTable(r)
    ensures r.callbacks == t.callbacks[key := entry]
    ensures legacyId in r.legacy && r.legacy[legacyId] == key
    ensures r.legacy.Keys <= t.legacy.Keys + {legacyId}
    ensures forall l | l in t.legacy && l != legacyId && t.legacy[l] != key :: l in r.legacy && r.legacy[l] == t.legacy[l]
  {
    Table(t.callbacks[key := entry], DropAliasesOf(t.legacy, key)[legacyId := key])
  }

  /** The table without the callback under `key` and without the legacy identifiers leading to it. */
  function Delete(t: Table, key: string): (r: Table)
    ensures ValidTable(t) ==> ValidTable(r)
    ensures r.callbacks.Keys == t.callbacks.Keys - {key}
    ensures forall l :: l in r.legacy ==> r.legacy[l] != key
    ensures forall k | k in r.callbacks :: r.callbacks[k] == t.callbacks[k]
    ensures forall l | l in t.legacy && t.legacy[l] != key :: l in r.legacy && r.legacy[l] == t.legacy[l]
  {
    Table(t.callbacks - {key}, DropAliasesOf(t.legacy, key))
  }

  /**
   * `add_filter(hook, cb, priority, acceptedArgs, customId)` on one table: the
   * new table, or the misuse when a custom id is given for a string or static
   * array callable.
   */
  function AddFilter(t: Table, cb: Callable, priority: int, acceptedArgs: int,
                     customId: Option<string>, hash: ObjectHash): (r: Result<Table, Misuse>)
    ensures r.Err? <==> customId.Some? && !ObjectBased(cb)
    ensures ValidTable(t) && r.Ok? ==> ValidTable(r.value)
  {
    match RegistrationId(cb, customId)
    case Err(e) => Err(e)
    case Ok(key) => Ok(Insert(t, key, OldIdentifier(cb, hash), Entry(priority, acceptedArgs)))
  }

  /** The table after `add_filter`: a failed registration leaves it as it was. */
  function AfterAdd(t: Table, cb: Callable, priority: int, acceptedArgs: int,
                    customId: Option<string>, hash: ObjectHash): (r: Table)
    ensures ValidTable(t) ==> ValidTable(r)
    ensures customId.Some? && !ObjectBased(cb) ==> r == t
  {
    match AddFilter(t, cb, priority, acceptedArgs, customId, hash)
    case Ok(t') => t'
    case Err(_) => t
  }

  /**
   * `remove_filter(hook, q, priority)` on one table: the callback `q` reaches is
   * removed only when its stored priority is exactly `priority`; the boolean
   * says whether anything was removed.
   */
  function RemoveFilter(t: Table, q: Query, priority: int, hash: ObjectHash): (r: (Table, bool))
    requires ValidTable(t)
    ensures ValidTable(r.0)
    ensures r.1 <==> HasFilter(t, q, hash) == Some(priority)
    ensures !r.1 ==> r.0 == t
    ensures r.1 ==> r.0 == Delete(t, Find(t, q, hash).value)
  {
    match Find(t, q, hash)
    case Some(key) =>
      if t.callbacks[key].priority == priority then (Delete(t, key), true) else (t, false)
    case None => (t, false)
  }

  // ---------------------------------------------------------------------------
  // Laws of one table

  /**
   * Removing a callback just stored under a fresh key, with a legacy
   * identifier the index did not know, gives back the table as it was.
   */
  lemma DeleteUndoesInsert(t: Table, key: string, legacyId: string, entry: Entry)
    requires ValidTable(t)
    requires Unclaimed(t, key) && legacyId !in t.legacy
    ensures Delete(Insert(t, key, legacyId, entry), key) == t
  {
  }

  /** Dropping the aliases of `k` does not disturb an alias just added for another key. */
  lemma DropAliasesCommute(legacy: map<string, string>, k: string, key: string, legacyId: string)
    requires k != key
    ensures DropAliasesOf(DropAliasesOf(legacy, key)[legacyId := key], k)
            == DropAliasesOf(DropAliasesOf(legacy, k), key)[legacyId := key]
  {
  }

  /** Storing under one key and removing another key can be done in either order. */
  lemma {:induction false} DeleteInsertCommute(t: Table, k: string, key: string, legacyId: string, entry: Entry)
    requires k != key
    ensures Delete(Insert(t, key, legacyId, entry), k) == Insert(Delete(t, k), key, legacyId, entry)
  {
    var lhs := Delete(Insert(t, key, legacyId, entry), k);
    var rhs := Insert(Delete(t, k), key, legacyId, entry);
    assert lhs.callbacks == rhs.callbacks;
    DropAliasesCommute(t.legacy, k, key, legacyId);
  }

  // ---------------------------------------------------------------------------
  // Properties the tests assert

  /**
   * A string handed to `has_filter` means the same whether it is read as a
   * callable or as an identifier; so does a static array and its `Class::m` id.
   */
  lemma NamedCallableQueryIsIdQuery(t: Table, cb: Callable, hash: ObjectHash)
    requires ValidTable(t)
    requires !ObjectBased(cb)
    ensures HasFilter(t, ByCallable(cb), hash) == HasFilter(t, ById(NewIdentifier(cb)), hash)
    ensures HasFilter(t, ByCallable(cb), hash) == HasFilter(t, ById(OldIdentifier(cb, hash)), hash)
  {
  }

  /**
   * After `add_filter(hook, cb, p, a)`, the callable, its legacy identifier and
   * its new identifier all lead to priority `p` — 0 included, which is never
   * confused with not found — provided the legacy identifier was not already the
   * key of another callback.
   */
  lemma AddThenHas(t: Table, cb: Callable, p: int, a: int, hash: ObjectHash)
    requires ValidTable(t)
    requires OldIdentifier(cb, hash) == NewIdentifier(cb) || OldIdentifier(cb, hash) !in t.callbacks
    ensures AddFilter(t, cb, p, a, None, hash).Ok?
    ensures forall q | q in Queries(cb, hash) :: HasFilter(AfterAdd(t, cb, p, a, None, hash), q, hash) == Some(p)
  {
  }

  /**
   * The scenario of the three backward-compatibility tests: add `cb` at `p`;
   * every way of addressing it finds `p`; removing at `p + 1` (by any of
   * them) changes nothing; removing at `p` (by any of them) succeeds and gives
   * back the table as it was before the add, where none of them finds anything.
   */
  lemma {:induction false} AddHasRemove(t: Table, cb: Callable, p: int, a: int, wrong: Query, exact: Query, hash: ObjectHash)
    requires ValidTable(t)
    requires Unclaimed(t, OldIdentifier(cb, hash)) && Unclaimed(t, NewIdentifier(cb))
    requires wrong in Queries(cb, hash) && exact in Queries(cb, hash)
    ensures AddFilter(t, cb, p, a, None, hash).Ok?
    ensures var t1 := AfterAdd(t, cb, p, a, None, hash);
            && (forall q | q in Queries(cb, hash) :: HasFilter(t1, q, hash) == Some(p))
            && RemoveFilter(t1, wrong, p + 1, hash) == (t1, false)
            && RemoveFilter(t1, exact, p, hash) == (t, true)
    ensures forall q | q in Queries(cb, hash) :: HasFilter(t, q, hash) == None
  {
    var key, legacyId := NewIdentifier(cb), OldIdentifier(cb, hash);
    var t1 := AfterAdd(t, cb, p, a, None, hash);
    AddThenHas(t, cb, p, a, hash);
    assert Find(t1, exact, hash) == Some(key);
    DeleteUndoesInsert(t, key, legacyId, Entry(p, a));
  }

  /**
   * Adding a callback leaves every other callback's entry as it was: a
   * registration only touches the key it is stored under.
   */
  lemma AddKeepsOtherEntries(t: Table, cb: Callable, p: int, a: int,
                                                customId: Option<string>, hash: ObjectHash, other: string)
    requires ValidTable(t)
    requires RegistrationId(cb, customId) != Ok(other)
    requires other in t.callbacks
    ensures HasFilter(AfterAdd(t, cb, p, a, customId, hash), ById(other), hash) == HasFilter(t, ById(other), hash)
  {
  }

  /**
   * After a second `add_filter` of another callable, the first one is still
   * reached at its own priority by itself, its legacy id and its new id,
   * provided the second one's new id is not the first one's legacy id.
   */
  lemma AddKeepsEarlierReachable(cb1: Callable, cb2: Callable, p1: int, p2: int, a: int, hash: ObjectHash)
    requires NewIdentifier(cb1) != NewIdentifier(cb2)
    requires OldIdentifier(cb1, hash) != OldIdentifier(cb2, hash)
    requires OldIdentifier(cb1, hash) != NewIdentifier(cb2)
    ensures var t2 := AfterAdd(AfterAdd(EmptyTable, cb1, p1, a, None, hash), cb2, p2, a, None, hash);
            forall q | q in Queries(cb1, hash) :: HasFilter(t2, q, hash) == Some(p1)
  {
  }

  /**
   * A custom id for a string callable (plain function or `"Class::m"`) or a
   * static array is a misuse: the registration fails with an exception whose
   * message starts with `_doing_it_wrong` and the table is left as it was.
   * Closures, invokables and object methods accept one.
   */
  lemma {:induction false} CustomIdMisuse(t: Table, cb: Callable, p: int, a: int, customId: string,
                                          hash: ObjectHash, encode: Misuse -> string)
    ensures var r := AddFilter(t, cb, p, a, Some(customId), hash);
            (r.Err? <==> cb.StringCallable? || (cb.ArrayCallable? && cb.target.ClassTarget?))
            && (r.Err? ==> DoingItWrongMarker <= ExceptionMessage(r.error, encode))
            && (r.Err? ==> AfterAdd(t, cb, p, a, Some(customId), hash) == t)
  {
  }

  // ---------------------------------------------------------------------------
  // The registry of all hooks

  /** `$GLOBALS['wp_filter']`: the tables of all hooks, changed in place. */
  class Filters {
    /** The `spl_object_hash` of the running process. */
    const hash: ObjectHash
    /** Each hook's table; a hook absent from the map has no callbacks. */
    var hooks: map<string, Table>

    ghost predicate Valid()
      reads this
    {
      forall h :: h in hooks ==> ValidTable(hooks[h])
    }

    /** The table of `hook`. */
    function TableFor(hook: string): (t: Table)
      reads this
      requires Valid()
      ensures ValidTable(t)
      ensures hook !in hooks ==> t == EmptyTable
    {
      if hook in hooks then hooks[hook] else EmptyTable
    }

    /** A registry with no callbacks, as the tests' `setUp` leaves it. */
    constructor (hash: ObjectHash)
      ensures Valid() && this.hash == hash && hooks == map[]
    {
      this.hash := hash;
      hooks := map[];
    }

    /**
     * `add_filter`: registers `cb` on `hook`, or reports the misuse and changes
     * nothing; no other hook changes.
     */
    method Add(hook: string, cb: Callable, priority: int, acceptedArgs: int, customId: Option<string>)
      returns (outcome: Outcome<Misuse>)
      requires Valid()
      modifies this
      ensures Valid()
      ensures match AddFilter(old(TableFor(hook)), cb, priority, acceptedArgs, customId, hash)
              case Ok(t) => outcome == Pass && hooks == old(hooks)[hook := t]
              case Err(e) => outcome == Fail(e) && hooks == old(hooks)
    {
      var r := AddFilter(TableFor(hook), cb, priority, acceptedArgs, customId, hash);
      match r
      case Ok(t) =>
        hooks := hooks[hook := t];
        outcome := Pass;
      case Err(e) =>
        outcome := Fail(e);
    }

    /** `has_filter`: the priority `q` reaches on `hook`, or `None`. */
    method Has(hook: string, q: Query) returns (priority: Option<int>)
      requires Valid()
      ensures priority == HasFilter(TableFor(hook), q, hash)
    {
      priority := HasFilter(TableFor(hook), q, hash);
    }

    /**
     * `remove_filter`: removes the callback `q` reaches on `hook` when its
     * priority is exactly `priority`; otherwise nothing changes.
     */
    method Remove(hook: string, q: Query, priority: int) returns (removed: bool)
      requires Valid()
      modifies this
      ensures Valid()
      ensures removed == RemoveFilter(old(TableFor(hook)), q, priority, hash).1
      ensures hooks == if removed then old(hooks)[hook := RemoveFilter(old(TableFor(hook)), q, priority, hash).0]
                       else old(hooks)
    {
      var r := RemoveFilter(TableFor(hook), q, priority, hash);
      removed := r.1;
      if removed {
        hooks := hooks[hook := r.0];
      }
    }
  }
}
