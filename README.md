# Hook callback identifiers and the hook registry

This project models the behaviour that the `HookCallbacksSerializationTest`
suite of `wp-hooks-tests` pins down for WordPress-style hooks
(`add_filter`, `has_filter`, `remove_filter`):

- **Identifiers** (`identifiers.dfy`): a PHP callable is a string (plain or
  namespaced function, or `"Class::method"`), an array `[target, method]`
  whose target is an object or a class name, or a bare object (closure or
  invokable). `OldIdentifier` is the test's copy of WordPress 5.5.1
  `_wp_filter_build_unique_id`. `NewIdentifier` is the deterministic format the
  data provider expects: `name`, `Class::method`, `Class->method`,
  `[Namespace\]function()@<basename>`, `class()@<basename>->method` and
  `Class->__invoke`.
- **Registry** (`registry.dfy`): one hook's state is a `Table` holding a map from
  identifier to `Entry(priority, acceptedArgs)`, plus a fallback index from the
  legacy identifier of each registered callable to its key. `AddFilter`,
  `HasFilter` and `RemoveFilter` are the specification functions. The class
  `Filters` stands for `$GLOBALS['wp_filter']`: a map from hook name to table
  that its methods `Add`, `Has` and `Remove` update in place. The constructor
  is the empty registry that the tests' `setUp` leaves.
- **Scenarios** (`scenarios.dfy`): lemmas for the test methods, and methods that
  drive a fresh `Filters` call by call. Each method returns what that test's
  `has_filter` calls answer, and its postcondition is the test's assertions.

WordPress's own `add_filter` code is not in the repository; the registry
below is specified by the tests' assertions. Its design choices:

- **Lookup order.** A query is first looked up as an exact identifier. A query
  given by a callable uses its new identifier. Failing that, the query is
  looked up in the legacy index.
- **Stale legacy ids.** Registering under a key drops legacy identifiers that
  led to the callback it replaces. Removing a callback drops those that led to
  it.
- **Misuse.** A custom id is accepted only for closures, invokables and
  `[object, method]` callables. A custom id for a string or static-array
  callable fails with a `Misuse` and leaves the registry unchanged. The
  fixture's `_doing_it_wrong` stub throws (tests/fixtures.php:8-11), so it
  aborts the registration, rather than warning and proceeding.
- **Not found.** `has_filter`'s `false` is `None`, so priority 0
  (`Some(0)`) can never be confused with it.

Runtime collaborators become parameters:

- `spl_object_hash` is `hash: nat -> string` over object handles.
  `WellFormedHashOn(hash, live)` states what the legacy format relies on, for
  the objects `live` that are alive together: every token is 32 characters
  wide and distinct handles have distinct tokens. `spl_object_hash` promises
  uniqueness only among live objects, and no function could give distinct
  32-character tokens to all handles. `WellFormedHashOnSatisfiable` exhibits
  such a hash for any three distinct handles.
- `json_encode` of the `_doing_it_wrong` payload is `encode`.
- `basename(__FILE__)` is a string parameter.
- `rand` / `random_int` priorities are quantified integers.

## Model

| member | source | states |
|---|---|---|
| `Identifiers.OldIdentifier` | tests/cases/HookCallbacksSerializationTest.php:237-257 | the legacy id of an object-based callable starts with its receiver's token; for strings and static arrays it equals the new id |
| `Identifiers.ClassLabel` | tests/cases/HookCallbacksSerializationTest.php:196-218 | a named class is labelled by its fully qualified name (`ArrayObject`, `Fixtures\SomeClass`); an anonymous class by a label that starts with `class()@` and ends with its file |
| `Identifiers.NewIdentifier` | tests/cases/HookCallbacksSerializationTest.php:175-228 | a string is its own new id; a static array ends in `::m`, an object method in `->m`, an invokable in `->__invoke`, a closure in `function()@<file>` |
| `Identifiers.WellFormedHashOnSatisfiable` | tests/cases/HookCallbacksSerializationTest.php:252 | some token function is fixed-width and injective on any three live handles, so lemmas that assume one are not vacuous |
| `Identifiers.LegacyIdOfString` | tests/cases/HookCallbacksSerializationTest.php:239-241 | a string callable (plain, namespaced or `"Class::m"`) is its own legacy id |
| `Identifiers.StaticArrayMatchesString` | tests/cases/HookCallbacksSerializationTest.php:253-255 | `[Class, m]` and `"Class::m"` have the same legacy id and the same new id, both `Class::m` |
| `Identifiers.LegacyIdOfBareObject` | tests/cases/HookCallbacksSerializationTest.php:243-252 | a bare closure or invokable is treated as `[obj, '']`: its legacy id is exactly its object token |
| `Identifiers.LegacyIdOfObjectBased` | tests/cases/HookCallbacksSerializationTest.php:250-252 | the legacy id of any object-based callable is its receiver's token followed by its method suffix |
| `Identifiers.LegacyIdInjective` | tests/cases/HookCallbacksSerializationTest.php:250-252 | with tokens fixed-width and distinct on the two receivers, two object-based callables share a legacy id iff same handle and same method suffix |
| `Identifiers.LegacyIdDependsOnHashOnlyForObjects` | tests/cases/HookCallbacksSerializationTest.php:239-256 | for strings and static arrays, the legacy id is independent of the token function and equals the new id |
| `Identifiers.NewIdIgnoresHandles` | tests/cases/HookCallbacksSerializationTest.php:175-228 | the new id does not depend on object identity, so it is stable from run to run |
| `Identifiers.DistinctObjectsShareNewId` | tests/cases/HookCallbacksSerializationTest.php:188-191 | two distinct objects bound to the same method share a new id while their legacy ids differ (the format's trade-off) |
| `Identifiers.NewIdDataRowsNamed` | tests/cases/HookCallbacksSerializationTest.php:176-187 | data rows for plain, namespaced and static callables (as string and as array) give the expected new ids, including rows 204-207 and 220-227 |
| `Identifiers.NewIdDataRowsObjects` | tests/cases/HookCallbacksSerializationTest.php:188-219 | `ArrayObject->getArrayCopy`, `Fixtures\SomeClass->a_method` and `Fixtures\SomeClass->__invoke` rows |
| `Identifiers.NewIdDataRowsClosures` | tests/cases/HookCallbacksSerializationTest.php:192-211 | the closure rows give `function()@<basename>` and `Fixtures\function()@fixtures.php` |
| `Identifiers.NewIdDataRowsAnonymous` | tests/cases/HookCallbacksSerializationTest.php:196-203 | the anonymous-class rows give `class()@<basename>->a_method` and `class()@<basename>->__invoke` |
| `Identifiers.NewIdOfObjectBased` | tests/cases/HookCallbacksSerializationTest.php:188-203 | by shape: `[obj, m]` gives `Class->m`, an invokable `Class->__invoke`, a closure `[ns\]function()@file` |
| `Registry.Find` | tests/cases/HookCallbacksSerializationTest.php:36-37 | a query resolves to a registered key exactly when its primary id is a key or its legacy id is indexed; an exact key wins, otherwise the key the legacy index gives |
| `Registry.HasFilter` | tests/cases/HookCallbacksSerializationTest.php:36-37 | `has_filter` is `None` (false) exactly when nothing is reached, otherwise the priority stored under the key `Find` resolves to, by exact id or by legacy id |
| `Registry.ExceptionMessage` | tests/fixtures.php:8-11 | the misuse exception message starts with `_doing_it_wrong` |
| `Registry.RegistrationId` | tests/cases/HookCallbacksSerializationTest.php:111-126 | registration fails iff a custom id is given for a non-object callable; otherwise the key is the custom id or the new id |
| `Registry.Insert` | tests/cases/HookCallbacksSerializationTest.php:34 | `key` holds `entry` (replacing any earlier entry), `legacyId` leads to `key`, no other key is added, other legacy ids keep their targets unless they led to `key`, and the index keeps pointing only at registered keys |
| `Registry.Delete` | tests/cases/HookCallbacksSerializationTest.php:45 | removing a key keeps every other entry and every legacy id not leading to it, leaves no legacy id leading to it, and keeps the index valid |
| `Registry.AddFilter` | tests/cases/HookCallbacksSerializationTest.php:34 | `add_filter` fails iff a custom id is given for a string or static callable, and preserves the table invariant |
| `Registry.AfterAdd` | tests/cases/HookCallbacksSerializationTest.php:115 | a failed registration leaves the table unchanged; the invariant is preserved |
| `Registry.RemoveFilter` | tests/cases/HookCallbacksSerializationTest.php:40-45 | `remove_filter` removes iff `has_filter` reports exactly that priority; otherwise the table is unchanged |
| `Registry.DeleteUndoesInsert` | tests/cases/HookCallbacksSerializationTest.php:45-48 | removing a callback just added under a fresh key gives back the previous table |
| `Registry.DropAliasesCommute` | tests/cases/HookCallbacksSerializationTest.php:148-150 | dropping one key's legacy ids commutes with adding a legacy id for another key |
| `Registry.DeleteInsertCommute` | tests/cases/HookCallbacksSerializationTest.php:148-150 | removing one key and storing another commute, so removals are independent |
| `Registry.NamedCallableQueryIsIdQuery` | tests/cases/HookCallbacksSerializationTest.php:36-37 | for strings and static arrays, querying by callable, by legacy id and by new id give the same answer |
| `Registry.AddThenHas` | tests/cases/HookCallbacksSerializationTest.php:29-37 | after `add(h, cb, p, a)` the callable, its legacy id and its new id all give exactly `p` (0 included) |
| `Registry.AddHasRemove` | tests/cases/HookCallbacksSerializationTest.php:27-106 | add then find `p` by all three queries; remove at `p + 1` changes nothing; remove at `p` succeeds and restores the table, where nothing is found |
| `Registry.AddKeepsOtherEntries` | tests/cases/HookCallbacksSerializationTest.php:140-146 | adding under one key leaves every other key's `has_filter` answer unchanged |
| `Registry.AddKeepsEarlierReachable` | tests/cases/HookCallbacksSerializationTest.php:140-146 | after a second add of another callable, the first is still found at its priority by callable, legacy id and new id |
| `Registry.CustomIdMisuse` | tests/cases/HookCallbacksSerializationTest.php:111-126 | a custom id fails iff the callable is a string or static array; the message starts with `_doing_it_wrong` and the table is unchanged |
| `Registry.Filters.TableFor` | tests/cases/HookCallbacksSerializationTest.php:20 | a hook never added to has the empty table |
| `Registry.Filters.constructor` | tests/cases/HookCallbacksSerializationTest.php:17-21 | `setUp`: the registry starts empty |
| `Registry.Filters.Add` | tests/cases/HookCallbacksSerializationTest.php:34 | updates only the named hook's table to `AddFilter`'s result, or reports the misuse and changes nothing |
| `Registry.Filters.Has` | tests/cases/HookCallbacksSerializationTest.php:36 | answers `HasFilter` on the hook's table and changes nothing |
| `Registry.Filters.Remove` | tests/cases/HookCallbacksSerializationTest.php:40 | updates only the named hook's table to `RemoveFilter`'s result, and only when something was removed |
| `Scenarios.CustomIdsIndependent` | tests/cases/HookCallbacksSerializationTest.php:131-154 | closure, invokable and object method under distinct custom ids are found at `p`, `p + 1`, `p + 2`, removed independently, and the table is restored |
| `Scenarios.CustomHookCheckIsVacuous` | tests/cases/HookCallbacksSerializationTest.php:152 | with the closure never removed, line 152's check and the two checks after it still pass while the closure is still found |
| `Scenarios.AddHasRemoveOnRegistry` | tests/cases/HookCallbacksSerializationTest.php:27-106 | on a fresh `Filters`, the add/has/remove sequence answers `p, p, p, p, false, false` |
| `Scenarios.RemoveByCallbackTest` | tests/cases/HookCallbacksSerializationTest.php:27-49 | `testBackWardCompatibilityRemoveByCallback`'s six assertions hold |
| `Scenarios.RemoveByIdentifierTest` | tests/cases/HookCallbacksSerializationTest.php:55-77 | `testBackWardCompatibilityRemoveByIdentifier`'s six assertions hold |
| `Scenarios.RemoveByNewIdentifierTest` | tests/cases/HookCallbacksSerializationTest.php:83-106 | `testCheckAndRemoveByNewIdentifier`'s six assertions hold |
| `Scenarios.CustomCallbackIdTest` | tests/cases/HookCallbacksSerializationTest.php:131-155 | the custom-id test answers `p, p + 1, p + 2, false, false, false`, with the line-152 check made on the closure id |
| `Scenarios.PlainFunctionCustomIdTest` | tests/cases/HookCallbacksSerializationTest.php:111-116 | a custom id for `strtolower` fails with a `_doing_it_wrong` message |
| `Scenarios.StaticMethodCustomIdTest` | tests/cases/HookCallbacksSerializationTest.php:121-126 | a custom id for `[HookCallbacksSerializationTest, 'assertTrue']` fails with a `_doing_it_wrong` message |

## Left out

- Invoking callbacks, the meaning of the accepted-argument count and dispatch in priority order: no test exercises them.
- `has_filter` called without a callback (whether a hook has any callbacks at all): no test exercises it.
- `spl_object_hash`, `json_encode`, `basename`, `getenv`/`include` of the fixture file, `rand` and `random_int`: runtime calls. They become parameters, as listed above.
- The PHPUnit harness and the `$GLOBALS` plumbing. `setUp` is modelled only as the empty registry.
- The body of the `_doing_it_wrong` payload (its `function`, `message` and `version` fields and their JSON). The model keeps only the offending identifier and custom id, and the `_doing_it_wrong` prefix of the message.
- `oldIdentifier` returning nothing when an array's first element is neither object nor string (line 256 falls through). The closed `Target` type rules that case out.
- The WordPress implementation of `add_filter` and `remove_filter` is not part of this model. The lookup order and the handling of stale legacy ids are this model's choices.
- An array callable whose target is a closure gets the class label `Closure`. No test pins this case.
- The same `[obj, m]` added first without a custom id and then under a custom id is stored twice, under its new id and under the custom id. Its legacy id then leads to the custom key, so `has_filter` by callable gives the first priority and by legacy id the second. No test exercises this.
- Anonymous classes declared inside a namespace are not distinguished. No test pins their new id.
- Registry.AddThenHas: requires that the legacy id, when it differs from the new id, is not already a key. Otherwise an exact key takes precedence. The tests start from an empty registry, which meets this.
- Registry.AddHasRemove: requires that neither identifier of the callable is already known to the table. The tests' empty registry meets this.
- Scenarios.CustomIdsIndependent: requires that the three custom ids and the three legacy ids are unknown to the table. The tests' empty registry meets this.

## Findings

| source | as written | input that shows it | evidently intended | confidence | as-written member | corrected member |
|---|---|---|---|---|---|---|
| tests/cases/HookCallbacksSerializationTest.php:152 | `assertFalse(has_filter('init', 'my_custom_hook'))`, an id never registered | Leave out the closure's removal at line 148. Lines 152-154 still pass, while `has_filter('init', 'my_custom_closure_id')` is still the priority | `assertFalse(has_filter('init', 'my_custom_closure_id'))` | not executed | `Scenarios.CustomHookCheckIsVacuous` | `Scenarios.CustomIdsIndependent` |
