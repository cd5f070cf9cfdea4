# ModelWatcher, modelled in Dafny

`ModelWatcher` (pytest_django_mixins/model_watcher.py) is a test helper for Django. A test
calls `set_watcher(Model)`. From then on, every `post_save` of that model appends the
saved instance to `created[Model]` when the save created it, and to `updated[Model]`
otherwise. Every `post_delete` appends to `deleted[Model]`. While a model is watched, the
manager methods that write without sending signals are replaced by a stand-in that raises
`NotImplementedError`. Those methods are `update`, `bulk_create` and `_update`. The
replaced callables are kept in `_mocked_methods`, and `unset_watchers` puts them back.
`clean_watchers` empties lists. `created_count`, `updated_count` and `deleted_count` sum
list lengths over a `selected_models` / `exclude` filter. `updated_unique` gives the
updated instances of a model, one per primary key.

The model is a functional state machine. `ModelWatcher.Sys` has two parts:

- the watcher's own attributes (`Watcher`): the watched set, the three dictionaries and the guard record;
- the part of Django the watcher changes (`Env`): the method tables of every model's managers and the receiver lists of both signals.

Every public operation is a pure function from one `Sys` to the next. Signals arrive as
explicit `SaveEvent` / `DeleteEvent` values. Each one is dispatched to the live
connections in connection order, the way Django's `Signal.send` does it.

Files, one module each:

- `outcomes.dfy` (`Outcomes`): `Option`, `Result` and the Python exceptions the code can raise.
- `registry.dfy` (`ChangeRegistry`): instances, per-model lists, and sums of list lengths.
- `dedupe.dfy` (`Dedupe`): the `{inst.pk: inst for inst in ...}.values()` idiom, with Python's dict ordering.
- `guard.dfy` (`BypassGuard`): `NOT_SUPPORTED_METHODS`, `_mock_forbidden_methods` and `_unmock_forbidden_methods`.
- `signals.dfy` (`Signals`): receiver tables keyed by `(receiver, sender)`, `connect`, `disconnect`, liveness.
- `watcher.dfy` (`ModelWatcher`): the state, `set_watcher`, `clean_watchers`, `unset_watchers`, the two receivers and the invariants `Valid` and `Tidy`.
- `queries.dfy` (`Queries`): `_get_filtered_models`, the three counts and `updated_unique`.
- `invariants.dfy` (`WatcherInvariants`): every operation preserves `Valid` and `Tidy`.
- `properties.dfy` (`WatcherProperties`): guarding, restoring, routing and capture order across operations.
- `unwatch.dfy` (`UnwatchRoundTrip`): watch-then-unwatch round trips, as written and as intended (see Findings).

There are two invariants:

- `Valid`:
  - the three dictionaries have the same keys;
  - the watched models have lists and exactly the guard records;
  - the receivers are the watcher's own closures, for models that have lists;
  - watched models have their methods guarded and a live receiver on each signal.
- `Tidy` adds one more condition: each watched model has exactly one receiver per signal, and no other model has any. The code as written does not keep `Tidy` (see Findings).

## Model

| member | source | states |
|---|---|---|
| BypassGuard.AllGuarded | pytest_django_mixins/model_watcher.py:12 | `NOT_SUPPORTED_METHODS` names every method the guard is about: `update`, `bulk_create` and `_update` |
| BypassGuard.Block | pytest_django_mixins/model_watcher.py:28-36 | after the inner loop, each listed method of the manager is the stand-in and every other attribute keeps its value |
| BypassGuard.BlockAll | pytest_django_mixins/model_watcher.py:26-36 | every manager of the model keeps its name, and every guarded method of each one becomes the stand-in |
| BypassGuard.SnapshotAll | pytest_django_mixins/model_watcher.py:25-35 | the record has one entry per manager name, holding that manager's prior callable for each guarded method |
| BypassGuard.Mock | pytest_django_mixins/model_watcher.py:17-37 | afterwards every guarded method of every manager raises, and the record keeps exactly the callables that were replaced |
| BypassGuard.Unmock | pytest_django_mixins/model_watcher.py:39-43 | each manager named in the popped record gets back its saved callables; other managers and methods are left as they are |
| BypassGuard.RestoreSnapshot | pytest_django_mixins/model_watcher.py:34-43 | writing a snapshot back over any table gives exactly the table the snapshot was taken from. `Snapshot` models the `getattr` reads at :34-35 and `Restore` the `setattr` loop at :42-43 |
| BypassGuard.UnmockWithoutRecord | pytest_django_mixins/model_watcher.py:40 | with no record (`pop(model, {})`), unmocking leaves the managers unchanged |
| BypassGuard.MockThenUnmock | pytest_django_mixins/model_watcher.py:17-43 | guarding and then restoring from the record gives back exactly the original manager tables |
| Signals.Disconnect | pytest_django_mixins/model_watcher.py:120-121 | `disconnect` deletes the first connection stored under the given key, keeping all others in their order, if the key is present; otherwise the table is unchanged |
| Signals.LiveCount | pytest_django_mixins/model_watcher.py:82-83 | the number of receivers a send for the model reaches is zero exactly when no connection of the table is live for it |
| Signals.LiveCountAppend | pytest_django_mixins/model_watcher.py:82-83 | connecting adds up: the receivers reached in two concatenated tables are the sum of each |
| Signals.ConnectOnePerModel | pytest_django_mixins/model_watcher.py:82-83 | connecting a receiver for a model that has none keeps "one receiver per watched model" with that model added |
| Signals.DropHooks | pytest_django_mixins/model_watcher.py:112 | disconnecting the watcher's closures for a set of models keeps exactly the connections that are not one of those closures |
| Signals.DropOnePerModel | pytest_django_mixins/model_watcher.py:112 | dropping the closures of some models keeps one receiver for each remaining watched model and none for any other |
| Signals.OnePerModelCount | pytest_django_mixins/model_watcher.py:82-83 | with one connection per watched model, a send reaches exactly one receiver for a watched model and none for any other |
| Signals.ConnectThenDrop | pytest_django_mixins/model_watcher.py:82-83 | connecting a model's closure and dropping that model's closures gives back the original table |
| ModelWatcher.SetWatcher | pytest_django_mixins/model_watcher.py:52-90 | watching an already watched model changes nothing. Otherwise the model joins the set, gets three empty lists (other lists untouched), and one save and one delete receiver are appended |
| ModelWatcher.SetWatcherGuards | pytest_django_mixins/model_watcher.py:90 | after watching, every guarded method of every manager of the model raises and its record holds the exact prior callables; other models' managers are untouched |
| ModelWatcher.CleanWatchers | pytest_django_mixins/model_watcher.py:92-108 | the named models (every key when none is named) get empty lists, adding keys that were missing; other lists are unchanged, and the watched set, guard record and Django state are untouched. `ChangeRegistry.ResetLists` does the per-dictionary reset |
| ModelWatcher.UnsetTargets | pytest_django_mixins/model_watcher.py:117-118 | the models acted on are exactly the watched ones among those named, or all watched ones when none is named |
| ModelWatcher.UnsetBulk | pytest_django_mixins/model_watcher.py:118-122 | unwatched models leave the set and the record and get their recorded methods back; lists, receivers and other managers are unchanged |
| ModelWatcher.UnsetOneIsBulk | pytest_django_mixins/model_watcher.py:118-122 | one loop iteration equals the bulk update of that one model, because the `disconnect` calls find no key |
| ModelWatcher.UnsetBulkCompose | pytest_django_mixins/model_watcher.py:117-122 | unwatching two disjoint sets in turn is unwatching their union |
| ModelWatcher.UnsetBulkEmpty | pytest_django_mixins/model_watcher.py:117 | unwatching no model leaves the state as it is |
| ModelWatcher.UnsetLoopIsBulk | pytest_django_mixins/model_watcher.py:117-122 | the loop over any sequence of models equals the bulk update of the watched ones among them, so visiting order does not matter |
| ModelWatcher.UnsetWatchers | pytest_django_mixins/model_watcher.py:110-122 | fails exactly when nothing was ever watched (`AttributeError` without arguments, `TypeError` with them); otherwise it is the bulk unwatch of the targets |
| ModelWatcher.UnsetWatchersIntended | pytest_django_mixins/model_watcher.py:110-122 | fails exactly when nothing was ever watched (`AttributeError` without arguments, `TypeError` with them); otherwise the bulk unwatch of the targets, and in addition the watcher's own receivers for the targets are dropped from both signals |
| ModelWatcher.WithLists | pytest_django_mixins/model_watcher.py:86-88 | replacing one of the three dictionaries leaves the other two, the watched set and the record alone |
| ModelWatcher.Fire | pytest_django_mixins/model_watcher.py:73-80 | a receiver firing never changes the dictionaries' keys, the watched set or the record |
| ModelWatcher.Send | pytest_django_mixins/model_watcher.py:73-83 | dispatching a signal never changes the dictionaries' keys, the watched set or the record |
| ModelWatcher.SendAppends | pytest_django_mixins/model_watcher.py:73-83 | a send appends the instance to the routed list of its model once per live receiver, and changes nothing else |
| ModelWatcher.Save | pytest_django_mixins/model_watcher.py:73-77 | a save appends the instance to `created[m]` when it is new and to `updated[m]` otherwise, once per live save receiver; Django's state is unchanged |
| ModelWatcher.Delete | pytest_django_mixins/model_watcher.py:79-80 | a delete appends the instance to `deleted[m]` once per live delete receiver and changes nothing else |
| ModelWatcher.Step | pytest_django_mixins/model_watcher.py:73-80 | an event never changes Django's state, the watched set, the record or which models have lists |
| ModelWatcher.Run | pytest_django_mixins/model_watcher.py:73-80 | a sequence of events keeps the receivers tracked and changes only list contents |
| WatcherInvariants.InitTidy | pytest_django_mixins/model_watcher.py:7-15 | a fresh watcher in a world without its receivers is `Tidy` |
| WatcherInvariants.SetWatcherKeepsValid | pytest_django_mixins/model_watcher.py:52-90 | `set_watcher` preserves `Valid` |
| WatcherInvariants.SetWatcherKeepsTidy | pytest_django_mixins/model_watcher.py:52-90 | `set_watcher` preserves `Tidy`: the new model gets exactly one receiver per signal |
| WatcherInvariants.CleanKeepsValid | pytest_django_mixins/model_watcher.py:92-108 | `clean_watchers` preserves `Valid` |
| WatcherInvariants.CleanKeepsTidy | pytest_django_mixins/model_watcher.py:92-108 | `clean_watchers` preserves `Tidy` |
| WatcherInvariants.StepKeepsTidy | pytest_django_mixins/model_watcher.py:73-80 | a single event preserves `Tidy` |
| WatcherInvariants.RunKeepsTidy | pytest_django_mixins/model_watcher.py:73-80 | any sequence of events preserves `Tidy` |
| WatcherInvariants.RunKeepsValid | pytest_django_mixins/model_watcher.py:73-80 | any sequence of events preserves `Valid` |
| WatcherInvariants.UnsetBulkKeepsValid | pytest_django_mixins/model_watcher.py:118-122 | unwatching watched models preserves `Valid` |
| WatcherInvariants.UnsetKeepsValid | pytest_django_mixins/model_watcher.py:110-122 | `unset_watchers` as written preserves `Valid` |
| WatcherInvariants.UnsetIntendedKeepsTidy | pytest_django_mixins/model_watcher.py:110-122 | the corrected `unset_watchers` preserves `Tidy` |
| WatcherProperties.BlockedWhileWatched | pytest_django_mixins/model_watcher.py:55-56 | in every valid state, calling any guarded method of any manager of a watched model raises `NotImplementedError`. `BypassGuard.Invoke` is what a call does: the stand-in raises, any other callable runs |
| WatcherProperties.InitRestorable | pytest_django_mixins/model_watcher.py:14-15 | initially the managers can be brought back to the original world |
| WatcherProperties.SetWatcherKeepsRestorable | pytest_django_mixins/model_watcher.py:52-90 | after `set_watcher`, unmocking from the record still gives the original managers, so a watch never loses an original |
| WatcherProperties.SetWatcherChangesOnly | pytest_django_mixins/model_watcher.py:90 | watching a model guards only that model's managers and records only for that model |
| WatcherProperties.UnsetBulkKeepsRestorable | pytest_django_mixins/model_watcher.py:118-122 | unwatching models restores their originals and keeps the others restorable |
| WatcherProperties.RunAndCleanKeepRestorable | pytest_django_mixins/model_watcher.py:73-108 | events and `clean_watchers` never touch managers or records |
| WatcherProperties.UnsetKeepsRestorable | pytest_django_mixins/model_watcher.py:110-122 | both the as-written and the corrected `unset_watchers` keep the originals restorable |
| WatcherProperties.UnsetAllRestores | pytest_django_mixins/model_watcher.py:110-122 | `unset_watchers()` on a valid state gives back exactly the original manager tables, empties the watched set and clears the record |
| WatcherProperties.WatchAll | pytest_django_mixins/model_watcher.py:52-90 | watching a list of models in turn watches exactly those and the ones already watched |
| WatcherProperties.WatchAllKeepsInvariants | pytest_django_mixins/model_watcher.py:52-90 | watching a list of models in turn keeps `Tidy` and keeps the originals restorable |
| WatcherProperties.WatchSessionRestoresManagers | pytest_django_mixins/model_watcher.py:52-122 | watch any models, apply any events, clean any lists, then `unset_watchers()`: it succeeds, every manager table equals its original, and the record is empty |
| WatcherProperties.TidyLiveCounts | pytest_django_mixins/model_watcher.py:82-83 | in a tidy state a send reaches one receiver for a watched model and none for any other |
| WatcherProperties.AppendOnceOrNever | pytest_django_mixins/model_watcher.py:73-80 | one firing appends to exactly one list; none leaves the watcher unchanged |
| WatcherProperties.TidyModel | pytest_django_mixins/model_watcher.py:69-83 | in a tidy state a watched model has all three lists and one receiver on each signal |
| WatcherProperties.WatchedHaveLists | pytest_django_mixins/model_watcher.py:69-71 | in a valid state every watched model has its three lists |
| WatcherProperties.SaveRoutesOnce | pytest_django_mixins/model_watcher.py:73-77 | in a tidy state a save of a watched model appends once to `created[m]` or `updated[m]`, as the flag says, and never to the other list; an unwatched model's save changes nothing |
| WatcherProperties.DeleteRoutesOnce | pytest_django_mixins/model_watcher.py:79-80 | in a tidy state a delete of a watched model appends once to `deleted[m]` only; an unwatched model's delete changes nothing |
| WatcherProperties.StepRoutesOnce | pytest_django_mixins/model_watcher.py:73-80 | in a tidy state every event is routed once to its own list, or ignored when unwatched |
| WatcherProperties.TidyRoutesAll | pytest_django_mixins/model_watcher.py:73-80 | from a tidy state every event of any sequence is routed once |
| WatcherProperties.RoutedRunCaptures | pytest_django_mixins/model_watcher.py:73-80 | when every event is routed once, a watched model's list grows by exactly its own events of that kind, in arrival order |
| WatcherProperties.RunCapturesInOrder | pytest_django_mixins/model_watcher.py:73-80 | from a tidy state, a model's `k` list grows by exactly its events of kind `k` in arrival order if it is watched, and stays the same otherwise |
| WatcherProperties.StepCaptures | pytest_django_mixins/model_watcher.py:73-80 | a routed event adds its instance to its own model's list of its own kind and nothing to any other list |
| WatcherProperties.CleanKeepsCapturing | pytest_django_mixins/model_watcher.py:92-108 | cleaning keeps the watcher tidy and capturing: the next save lands in the emptied list (or after the kept entries) |
| Queries.ResolveFilter | pytest_django_mixins/model_watcher.py:142-150 | both filters given fail the assertion. A given exclusion list gives the watched models not in it. Otherwise a class is a one-element list, a list is used as given, and no filter gives every watched model. `TypeError` exactly when the result has to be drawn from a watched set that does not exist yet (no `selected`, or a given `exclude`), or when the exclusion is a single class and some model is watched |
| Queries.Count | pytest_django_mixins/model_watcher.py:124-140 | both filters given fail the assertion and every other filter error is passed on; the count succeeds exactly when the filter resolves and every resolved model has a list, and raises `KeyError` when one is missing; a successful count is the sum of the list lengths over the resolved models |
| Queries.CountBeforeWatching | pytest_django_mixins/model_watcher.py:146-149 | before the first `set_watcher`, an unfiltered or excluding count raises `TypeError` |
| Queries.CountAllWatched | pytest_django_mixins/model_watcher.py:148-149 | the unfiltered count is the total length of the watched models' lists, and is zero exactly when all of them are empty |
| Queries.CountExcludeComplements | pytest_django_mixins/model_watcher.py:146-147 | the unfiltered count equals the count excluding a list plus the lengths of the excluded watched models |
| Queries.CountSingleAsList | pytest_django_mixins/model_watcher.py:144-145 | counting a single class equals counting the one-element list, namely that model's list length, or `KeyError` |
| Queries.CountDistinctList | pytest_django_mixins/model_watcher.py:131-140 | a list without repetitions counts each of its models once, like the set of them |
| Queries.CountAfterCleanAll | pytest_django_mixins/model_watcher.py:92-108 | after `clean_watchers()` the unfiltered count is zero |
| Queries.UpdatedUnique | pytest_django_mixins/model_watcher.py:152-154 | raises `KeyError` exactly when the model has no `updated` list (see Left out for a dictionary that is still `None`). Otherwise it gives one instance per distinct primary key, each the last one recorded with that key, in order of first appearance; its length is the number of distinct keys |
| Dedupe.FirstIndex | pytest_django_mixins/model_watcher.py:154 | the position where a key first appears (where a dict comprehension places it), or -1 when it is absent |
| Dedupe.LastIndex | pytest_django_mixins/model_watcher.py:154 | the position where a key last appears (the entry a dict comprehension keeps), or -1 when it is absent |
| Dedupe.Pks | pytest_django_mixins/model_watcher.py:154 | exactly the primary keys occurring in the list |
| Dedupe.InsertRepresents | pytest_django_mixins/model_watcher.py:154 | one more assignment `d[inst.pk] = inst` keeps the dict's keys in first-appearance order, with each key's last instance |
| Dedupe.DictByPk | pytest_django_mixins/model_watcher.py:154 | the comprehension's dict has each distinct key once, in first-appearance order, with the last instance for each key |
| Dedupe.UniqueByPk | pytest_django_mixins/model_watcher.py:154 | one instance per distinct key, each the last with that key, ordered by first appearance; never longer than the input. `Dedupe.Values` reads the dict out in key order, as `.values()` does |
| Dedupe.UniqueByPkLength | pytest_django_mixins/model_watcher.py:154 | the result is exactly as long as the number of distinct primary keys |
| Dedupe.SamePkKeepsLast | pytest_django_mixins/model_watcher.py:154 | when every entry has the same key, the result is the last entry alone |
| ChangeRegistry.SumLensSplit | pytest_django_mixins/model_watcher.py:131-140 | a count over a set is the count over a part plus the count over the rest |
| ChangeRegistry.SumLensZero | pytest_django_mixins/model_watcher.py:131-140 | a count over a set is zero exactly when all its lists are empty |
| ChangeRegistry.SumListedDistinct | pytest_django_mixins/model_watcher.py:131-140 | summing over a list without repetitions equals summing over the set of its models |
| UnwatchRoundTrip.WatchThenUnwatchManagers | pytest_django_mixins/model_watcher.py:17-43 | watching and then unwatching a model gives back exactly the pre-watch manager tables |
| UnwatchRoundTrip.WatchThenUnwatchBulk | pytest_django_mixins/model_watcher.py:52-122 | watch-then-unwatch restores managers, record and watched set, and leaves the model's emptied lists and both appended receivers in place |
| UnwatchRoundTrip.WatchThenUnwatchIsBulk | pytest_django_mixins/model_watcher.py:110-122 | in a valid state, `unset_watchers(m)` right after `set_watcher(m)` is the bulk unwatch of `m` |
| UnwatchRoundTrip.UnwatchLeavesReceivers | pytest_django_mixins/model_watcher.py:120-121 | as written, unwatching restores managers, record and watched set, but both receivers stay connected and the state is no longer tidy |
| UnwatchRoundTrip.SaveAppendsPerReceiver | pytest_django_mixins/model_watcher.py:73-83 | a save appends one copy of the instance per live save receiver |
| UnwatchRoundTrip.AfterUnwatch | pytest_django_mixins/model_watcher.py:120-121 | as written, after unwatching, the unwatched model still has one live save receiver and empty lists |
| UnwatchRoundTrip.CaptureAfterUnwatch | pytest_django_mixins/model_watcher.py:120-121 | as written, a save of a model that was unwatched is still recorded |
| UnwatchRoundTrip.RewatchCapturesTwice | pytest_django_mixins/model_watcher.py:120-121 | as written, watching a model again after unwatching records each save twice |
| UnwatchRoundTrip.DoubleCaptureExample | pytest_django_mixins/model_watcher.py:120-121 | concrete case: watch model 1, unwatch it, watch it again, save a new instance, and `created[1]` holds it twice |
| UnwatchRoundTrip.UnwatchIntendedRestoresWorld | pytest_django_mixins/model_watcher.py:110-122 | with the corrected unwatch, watch-then-unwatch gives back the world exactly (managers and receivers), the record and the watched set, and stays tidy |
| UnwatchRoundTrip.UnwatchIntendedStopsCapture | pytest_django_mixins/model_watcher.py:110-122 | with the corrected unwatch, a later save of the unwatched model changes nothing |
| UnwatchRoundTrip.RewatchIntendedCapturesOnce | pytest_django_mixins/model_watcher.py:110-122 | with the corrected unwatch, watching again records each save once |
| UnwatchRoundTrip.UnsetIgnoresUnwatched | pytest_django_mixins/model_watcher.py:118 | naming only models that are not watched leaves the state unchanged |

## Left out

- `pytest_django_mixins/fixtures.py` (the pytest fixture that creates the watcher, yields it and unwatches everything on teardown) is not part of this model. `WatcherProperties.WatchSessionRestoresManagers` states the teardown's outcome.
- `setup.py` is packaging metadata and is not modelled.
- `_get_model_managers` (lines 45-50): how Django's `Manager` and `ManagerDescriptor` are found through `vars` and `getattr` is not modelled. `ModelWatcher.ManagersOf` takes a model's managers, keyed by name, from a given map. A model missing from the map has none.
- `getattr(manager, method)` raising `AttributeError` is not modelled. Each manager is a table holding the three guarded methods, which every Django manager has. Attributes other than these three are never touched, so they are not represented.
- The error message of the stand-in is not modelled, only that calling it raises `NotImplementedError`. The closure binds `method` late, so the message can name the wrong method.
- Django's real dispatch is not modelled: weak references, the dispatch cache, `dispatch_uid` and receivers other than the watcher's own. A send reaches the live connections of a `(receiver, sender)` table in order.
- Instances are values, an identity token plus a primary key. Aliasing and later mutation of a saved instance are not modelled.
- Queries.UpdatedUnique: the default `selected_model=None` is not modelled as its own case; a model with no `updated` list raises `KeyError`, and `None` is such a key. Before the first `set_watcher` or `clean_watchers`, `updated` is still `None` (model_watcher.py:10) and Python raises `TypeError` at :154. The model holds the missing dictionary as an empty map and reports `KeyError` there.
- Queries.Count: likewise, a count whose dictionary is still `None` raises `TypeError` in Python at :132, :136 or :140. Here it is reported as `KeyError`, because the missing dictionary is modelled as an empty map.
- `ModelWatcher.UnsetWatchers`: `watched_models.copy()` is iterated in an unspecified order. The function picks one order. `ModelWatcher.UnsetLoopIsBulk` shows that the result does not depend on the order when the tables hold only the watcher's closures. For that reason `UnsetWatchers` is a ghost function.
- Two behaviours of the code that a reader might not expect. The model follows the code:
  - A count whose `exclude` is a single model class raises `TypeError` once any model is watched. The `m not in exclude` test at model_watcher.py:147 runs on the class, which is not a container. The class is not treated as a one-element exclusion, unlike a single class passed as `selected_models` (:144-145).
  - `unset_watchers` does not remove the watcher's receivers, although its docstring says "unset signals" (model_watcher.py:112). See Findings.

## Findings

| source | as written | input that shows it | evidently intended | confidence | as-written member | corrected member |
|---|---|---|---|---|---|---|
| pytest_django_mixins/model_watcher.py:120-121 | `post_save.disconnect(model)` and `post_delete.disconnect(model)` pass the model class as the receiver. The receivers were connected as `(receiver_save, sender=model)`, so no key matches, nothing is disconnected, and the closures keep recording after the model is unwatched | `set_watcher(M)`, `unset_watchers(M)`, `set_watcher(M)`, then save a new `M` instance: `created[M]` holds it twice | the docstring says "unset signals": the model's `receiver_save` and `receiver_delete` should be disconnected, so that a later save is not recorded and a re-watch records each save once | not executed | UnwatchRoundTrip.DoubleCaptureExample | UnwatchRoundTrip.RewatchIntendedCapturesOnce |

- As written: `ModelWatcher.UnsetWatchers` models the code. `UnwatchRoundTrip.UnwatchLeavesReceivers`, `UnwatchRoundTrip.CaptureAfterUnwatch` and `UnwatchRoundTrip.RewatchCapturesTwice` show the consequences for every tidy state.
- Corrected: `ModelWatcher.UnsetWatchersIntended` drops the watcher's own connections for each unwatched model. `UnwatchRoundTrip.UnwatchIntendedRestoresWorld`, `UnwatchRoundTrip.UnwatchIntendedStopsCapture` and `WatcherInvariants.UnsetIntendedKeepsTidy` prove the intended behaviour for it.
