# Adapter mock over an abstract store

This project models `createAdapterMock`, the in-memory stand-in for a
home-automation adapter that unit tests run adapter code against. The mock
maps the adapter API onto a shared database mock:

- it builds its namespace `name.instance` once, from the options (`"test"`
  and `0` by default);
- local object and state operations qualify an id that does not start with
  the namespace as `namespace + "." + id` (a plain prefix test, so `test.0x`
  counts as already namespaced); foreign operations pass the id through;
- `set*NotExists` write only when nothing is stored, `set*StateChanged`
  publish only when the stored value differs, the two `extend*` operations
  merge a partial object into the stored record;
- a state payload is either a bare value or a `{ val, ack }` object;
- five handler slots (ready, message, objectChange, stateChange, unload) live
  in the options record and are driven by `on`, `removeListener` and
  `removeAllListeners`;
- `terminate` always throws.

Layout:

- `values.dfy` (`Values`): JavaScript values, records, truthiness.
- `namespace.dfy` (`Namespaces`): the namespace and id normalisation.
- `store.dfy` (`Store`): the database mock as a value `Db` (object table keyed by
  each record's `_id`, state table, list of state publications) held by the
  class `Database` that the mock shares with the test.
- `calls.dfy` (`Calls`): the trailing callback, the state payload rule, the
  termination reason.
- `events.dfy` (`Events`): the five event slots and their names.
- `operations.dfy` (`Operations`): the effect on the store and the callback
  arguments of every store-changing operation, as functions.
- `properties.dfy` (`Properties`): lemmas relating several operations.
- `adapter.dfy` (`AdapterMocks`): the classes `Options` and `AdapterMock`. Each
  store-changing `AdapterMock` method updates the shared `Database` in place
  and is proved against the matching `Operations` function.
- `scenarios.dfy` (`Scenarios`): call sequences on a fresh mock and what a test
  observes.

A callback is modelled by what it receives. A method returns
`Some(arguments)` when its last argument is a function and `None` when no
callback is invoked. Behaviours of the source worth knowing, kept as written:

- `setForeignObjectNotExists` checks the id as given but writes through the
  local `setObject`, so under the namespaced id. It can overwrite a record
  stored there (`Properties.SetForeignObjectNotExistsOverwrites`).
- `extendObject` does not stamp `_id`. On an absent id, a partial object
  without `_id` is handed to `publishObject` without an `_id`; the modelled
  store keys it by `undefined` (`Properties.ExtendObjectAbsentUnstamped`).
- `extendForeignObject` assigns into the stored record itself. If the merge
  changes `_id`, the entry at the original id also holds the merged record.
  The model copies the merge into those two entries only (see "Left out").
- The five handler properties are read through `AdapterMock.Handler`, which
  reads the options record each time, so a later write to the options is seen.
- `setState` and the other state setters take the callback after the `ack`
  argument, and `getForeignObjects` takes it after the type argument.
- `getAdapterObjects` calls its argument unconditionally, with the result as
  the only argument. Anything but a function makes it throw.

## Model

| member | source | states |
|---|---|---|
| `Namespaces.NormaliseId` | build/tests/unit/mocks/mockAdapter.js:73-74 | the result always starts with the namespace; an id that already starts with it is unchanged; any other id comes back as namespace, a dot, then the id |
| `Namespaces.NormaliseIdIdempotent` | build/tests/unit/mocks/mockAdapter.js:88-97 | normalising an already normalised id changes nothing, which the re-entry from `setObjectNotExists` into `setObject` relies on |
| `Namespaces.NormaliseIdQualifiedAlias` | build/tests/unit/mocks/mockAdapter.js:73-74 | for an `x` that does not start with the namespace, `x` and `namespace.x` reach the same store entry |
| `Namespaces.NormaliseIdInjectiveOnShortIds` | build/tests/unit/mocks/mockAdapter.js:73-74 | two ids without the namespace prefix reach the same entry exactly when they are equal |
| `Namespaces.NormaliseIdDotlessPrefix` | build/tests/unit/mocks/mockAdapter.js:73 | with namespace `test.0`, `test.0x` is left as it is while `x` becomes `test.0.x` |
| `Namespaces.AdapterName` | build/tests/unit/mocks/mockAdapter.js:47 | the name is never empty; a non-empty option is used as given, otherwise `"test"` |
| `Namespaces.AdapterInstance` | build/tests/unit/mocks/mockAdapter.js:49 | the instance option is used when given, 0 otherwise |
| `Namespaces.MakeNamespace` | build/tests/unit/mocks/mockAdapter.js:50 | the namespace is the name, a dot, and the decimal rendering of the instance |
| `Namespaces.DecimalStringRoundTrip` | build/tests/unit/mocks/mockAdapter.js:50 | the rendering of the instance number in the namespace can be parsed back to that number |
| `Namespaces.DefaultNamespace` | build/tests/unit/mocks/mockAdapter.js:47-50 | without options the namespace is `test.0` |
| `Namespaces.NamespaceSeparatesInstances` | build/tests/unit/mocks/mockAdapter.js:50 | two different instance numbers give two different namespaces |
| `Calls.GetCallback` | build/tests/unit/mocks/mockAdapter.js:35-39 | a callback is found exactly when the last argument is a function, and it is that argument |
| `Calls.CallbackIsLastArgument` | build/tests/unit/mocks/mockAdapter.js:35-39 | a function passed last is the callback whatever precedes it; any other last value hides an earlier function |
| `Calls.Deliver` | build/tests/unit/mocks/mockAdapter.js:75-77 | the callback is invoked, with the given arguments, exactly when the trailing arguments end in a function |
| `Calls.CallbackArgumentForwards` | build/tests/unit/mocks/mockAdapter.js:91-97 | handing the found callback (or `undefined`) on as the single trailing argument of `setObject` keeps it the callback |
| `Calls.ResolveState` | build/tests/unit/mocks/mockAdapter.js:164-172 | an object payload stores its own `val` and the truthiness of its `ack`; a bare value is stored as `val`, acknowledged only by a boolean `true` argument |
| `Calls.ResolveStateIgnoresAckForObjects` | build/tests/unit/mocks/mockAdapter.js:169-172 | for an object payload the separate `ack` argument makes no difference |
| `Calls.ResolveStateRoundTrip` | build/tests/unit/mocks/mockAdapter.js:169-173 | a state read back as `{ val, ack }` and set again is stored unchanged, whatever `ack` argument comes with it |
| `Calls.TerminateReason` | build/tests/unit/mocks/mockAdapter.js:298 | the attached reason is always truthy: the reason itself when truthy, `"no reason given!"` otherwise |
| `Events.SlotOf` | build/tests/unit/mocks/mockAdapter.js:304-320 | an event selects a slot only when it is that slot's name; any other value selects none |
| `Events.SlotOfName` | build/tests/unit/mocks/mockAdapter.js:304-320 | each slot is selected by its own name, and distinct slots have distinct names |
| `Operations.Stamp` | build/tests/unit/mocks/mockAdapter.js:82 | stamping sets `_id` to the id and keeps every other property |
| `Operations.Merge` | build/tests/unit/mocks/mockAdapter.js:106-107 | the merge holds every key of the stored record and of the partial object; the partial object's values win on conflicts, the stored values are kept elsewhere |
| `Operations.SetObject` | build/tests/unit/mocks/mockAdapter.js:79-87 | only the entry at the normalised id changes, to the record stamped with that id; states untouched; reports `{ id }` with the normalised id |
| `Operations.SetForeignObject` | build/tests/unit/mocks/mockAdapter.js:131-137 | only the entry at the id as given changes, to the record stamped with that id; reports `{ id }` |
| `Operations.SetObjectNotExists` | build/tests/unit/mocks/mockAdapter.js:88-99 | an existing record leaves the store unchanged; an absent one is written as by `setObject`; `{ id }` is reported either way |
| `Operations.SetForeignObjectNotExists` | build/tests/unit/mocks/mockAdapter.js:138-147 | a record at the id as given leaves the store unchanged and reports that id; otherwise the record is written and reported under the normalised id |
| `Operations.ExtendObject` | build/tests/unit/mocks/mockAdapter.js:103-112 | the merged record has every key of the stored record (or `{}`) and of the partial object, and is stored under its own `_id`; reports `{ id: _id, value }` and the normalised id |
| `Operations.ExtendForeignObject` | build/tests/unit/mocks/mockAdapter.js:148-155 | the merged record replaces the stored record in place at the id as given and is published under its own `_id`; reports `{ id: _id, value }` and the id |
| `Operations.DelObject` | build/tests/unit/mocks/mockAdapter.js:113-120 | afterwards no record is stored at the normalised id; everything else is unchanged; reports a single `undefined` |
| `Operations.DelForeignObject` | build/tests/unit/mocks/mockAdapter.js:157-162 | afterwards no record is stored at the id as given; everything else is unchanged; reports a single `undefined` |
| `Operations.SetState` | build/tests/unit/mocks/mockAdapter.js:163-176 | the resolved state is stored and published once at the normalised id; objects untouched; reports the bare id |
| `Operations.SetForeignState` | build/tests/unit/mocks/mockAdapter.js:193-204 | the resolved state is stored and published once at the id as given; reports the bare id |
| `Operations.SetStateChanged` | build/tests/unit/mocks/mockAdapter.js:177-192 | publishes at the normalised id if and only if no state is stored there or its value differs; otherwise the store is unchanged; reports the id either way |
| `Operations.SetForeignStateChanged` | build/tests/unit/mocks/mockAdapter.js:205-218 | publishes at the id as given if and only if no state is stored there or its value differs; otherwise the store is unchanged; reports the id either way |
| `Operations.DelState` | build/tests/unit/mocks/mockAdapter.js:243-250 | afterwards no state is stored at the normalised id; everything else is unchanged; reports a single `undefined` |
| `Operations.DelForeignState` | build/tests/unit/mocks/mockAdapter.js:251-256 | afterwards no state is stored at the id as given; everything else is unchanged; reports a single `undefined` |
| `Properties.LocalIsForeignOnNormalisedId` | build/tests/unit/mocks/mockAdapter.js:79-256 | `setObject`, `delObject`, `setState`, `setStateChanged` and `delState` act exactly as their foreign counterparts on the normalised id |
| `Properties.GetObjectAfterSetObject` | build/tests/unit/mocks/mockAdapter.js:72-87 | `getObject` after `setObject` on the same local id returns the record stamped with the normalised id |
| `Properties.SetObjectNotExistsKeepsFirst` | build/tests/unit/mocks/mockAdapter.js:88-99 | of two `setObjectNotExists` calls with different payloads the second changes nothing, and the stored record is the earlier one or else the first payload |
| `Properties.SetForeignObjectNotExistsOverwrites` | build/tests/unit/mocks/mockAdapter.js:138-147 | when the id as given is absent but its namespaced form is stored, that stored record is overwritten |
| `Properties.GetStateAfterSetState` | build/tests/unit/mocks/mockAdapter.js:163-176 | `getState` after `setState` on the same local id returns the resolved `{ val, ack }` |
| `Properties.SetStateChangedPublishesOnce` | build/tests/unit/mocks/mockAdapter.js:177-192 | repeating `setStateChanged` with the same payload is a no-op, so the store sees at most one publication |
| `Properties.SetForeignStateChangedPublishesOnce` | build/tests/unit/mocks/mockAdapter.js:205-218 | the same for `setForeignStateChanged` |
| `Properties.ExtendObjectTwice` | build/tests/unit/mocks/mockAdapter.js:103-112 | two `extendObject` calls on a record written by `setObject` with partial objects that carry no `_id`, keep every key of the record and of both partial objects, the later one winning |
| `Properties.ExtendObjectAbsentUnstamped` | build/tests/unit/mocks/mockAdapter.js:103-112 | on an absent id a partial object without `_id` is handed to `publishObject` without an `_id`, so the modelled store (keyed by `_id`) files it under `undefined`; it is reported with `id: undefined` |
| `Properties.ExtendForeignAgreesWithExtend` | build/tests/unit/mocks/mockAdapter.js:103-155 | on a record whose `_id` is its key, and a partial object without `_id`, `extendForeignObject` on the normalised id has the same effect and report as `extendObject` |
| `AdapterMocks.Options.constructor` | build/tests/unit/mocks/mockAdapter.js:43 | an options record with the given name, instance and config and no handlers |
| `AdapterMocks.AdapterMock.constructor` | build/tests/unit/mocks/mockAdapter.js:43-61 | the mock keeps the store and the options record it is given and fixes name, instance, namespace and config from the options |
| `AdapterMocks.AdapterMock.Handler` | build/tests/unit/mocks/mockAdapter.js:383-422 | the property named after a slot (`readyHandler` for `"ready"` and so on) returns the options field of that name, read at each call, so a later write to the options is seen |
| `AdapterMocks.AdapterMock.SetHandler` | build/tests/unit/mocks/mockAdapter.js:382-423 | writing a handler property writes that slot of the options record and leaves the other four alone |
| `AdapterMocks.AdapterMock.On` | build/tests/unit/mocks/mockAdapter.js:302-322 | exactly the slot the event names gets the handler; an unknown event changes nothing; returns the mock |
| `AdapterMocks.AdapterMock.RemoveListener` | build/tests/unit/mocks/mockAdapter.js:323-343 | exactly the slot the event names is cleared, whatever listener is passed; returns the mock |
| `AdapterMocks.AdapterMock.RemoveAllListeners` | build/tests/unit/mocks/mockAdapter.js:344-361 | a falsy event clears all five slots, otherwise only the slot it names; returns the mock |
| `AdapterMocks.AdapterMock.Terminate` | build/tests/unit/mocks/mockAdapter.js:294-300 | the call always throws, with the reason attached when truthy and `"no reason given!"` otherwise |
| `AdapterMocks.AdapterMock.GetObject` | build/tests/unit/mocks/mockAdapter.js:72-78 | the callback receives the record at the normalised id, or `null` |
| `AdapterMocks.AdapterMock.GetForeignObject` | build/tests/unit/mocks/mockAdapter.js:121-125 | the callback receives the record at the id as given, or `null` |
| `AdapterMocks.AdapterMock.GetForeignObjects` | build/tests/unit/mocks/mockAdapter.js:126-130 | the store answers the pattern and type as given |
| `AdapterMocks.AdapterMock.GetAdapterObjects` | build/tests/unit/mocks/mockAdapter.js:100-102 | the store is asked for `namespace.*`; the answer is the callback's only argument; a non-function argument throws |
| `AdapterMocks.AdapterMock.SetObject` | build/tests/unit/mocks/mockAdapter.js:79-87 | the shared store changes as `Operations.SetObject` says, and the callback gets its report |
| `AdapterMocks.AdapterMock.SetObjectNotExists` | build/tests/unit/mocks/mockAdapter.js:88-99 | as `Operations.SetObjectNotExists`, re-entering `SetObject` for an absent record |
| `AdapterMocks.AdapterMock.ExtendObject` | build/tests/unit/mocks/mockAdapter.js:103-112 | as `Operations.ExtendObject` |
| `AdapterMocks.AdapterMock.DelObject` | build/tests/unit/mocks/mockAdapter.js:113-120 | as `Operations.DelObject` |
| `AdapterMocks.AdapterMock.SetForeignObject` | build/tests/unit/mocks/mockAdapter.js:131-137 | as `Operations.SetForeignObject` |
| `AdapterMocks.AdapterMock.SetForeignObjectNotExists` | build/tests/unit/mocks/mockAdapter.js:138-147 | as `Operations.SetForeignObjectNotExists`, through the local `SetObject` |
| `AdapterMocks.AdapterMock.ExtendForeignObject` | build/tests/unit/mocks/mockAdapter.js:148-155 | as `Operations.ExtendForeignObject`, assigning into the stored record first |
| `AdapterMocks.AdapterMock.DelForeignObject` | build/tests/unit/mocks/mockAdapter.js:157-162 | as `Operations.DelForeignObject` |
| `AdapterMocks.AdapterMock.SetState` | build/tests/unit/mocks/mockAdapter.js:163-176 | as `Operations.SetState` |
| `AdapterMocks.AdapterMock.SetStateChanged` | build/tests/unit/mocks/mockAdapter.js:177-192 | as `Operations.SetStateChanged` |
| `AdapterMocks.AdapterMock.SetForeignState` | build/tests/unit/mocks/mockAdapter.js:193-204 | as `Operations.SetForeignState` |
| `AdapterMocks.AdapterMock.SetForeignStateChanged` | build/tests/unit/mocks/mockAdapter.js:205-218 | as `Operations.SetForeignStateChanged` |
| `AdapterMocks.AdapterMock.GetState` | build/tests/unit/mocks/mockAdapter.js:219-225 | the callback receives the state at the normalised id, or `undefined` |
| `AdapterMocks.AdapterMock.GetForeignState` | build/tests/unit/mocks/mockAdapter.js:226-230 | the callback receives the state at the id as given, or `undefined` |
| `AdapterMocks.AdapterMock.GetStates` | build/tests/unit/mocks/mockAdapter.js:231-237 | the store matches the pattern after it is normalised like an id |
| `AdapterMocks.AdapterMock.GetForeignStates` | build/tests/unit/mocks/mockAdapter.js:238-242 | the store matches the pattern as given |
| `AdapterMocks.AdapterMock.DelState` | build/tests/unit/mocks/mockAdapter.js:243-250 | as `Operations.DelState` |
| `AdapterMocks.AdapterMock.DelForeignState` | build/tests/unit/mocks/mockAdapter.js:251-256 | as `Operations.DelForeignState` |
| `Scenarios.HandlerSlotLifecycle` | build/tests/unit/mocks/mockAdapter.js:302-423 | a `stateChange` handler given in the options is the slot's handler; `on` replaces it; a later write to the options shows through the slot; `removeAllListeners()` clears it |
| `Scenarios.SetObjectNotExistsTwice` | build/tests/unit/mocks/mockAdapter.js:72-99 | after two `setObjectNotExists` calls on a fresh mock, `getObject` returns the first payload, stamped with `test.0.<id>` |
| `Scenarios.SetStateChangedTwice` | build/tests/unit/mocks/mockAdapter.js:177-192 | two `setStateChanged` calls with the same value on a fresh mock publish exactly once and both report the id |
| `Scenarios.ExtendObjectTwice` | build/tests/unit/mocks/mockAdapter.js:79-112 | `extendObject` with `{a: 1}` and then `{b: 2}` on a record from `setObject` leaves both properties stored |
| `Scenarios.TerminateReasons` | build/tests/unit/mocks/mockAdapter.js:294-300 | `terminate("disk full")` throws with reason `"disk full"`; `terminate()` throws with `"no reason given!"` |

## Left out

- The database mock (`./mockObjects` and the store behind it) is not part of this model. It is replaced by the value `Db` with these assumptions: `publishObject` keys a record by its `_id` field; `publishState` upserts and is recorded in `stateLog`; a missing object reads as `null` and a missing state as `undefined`; the record passed to `publishObject` is stored as it is.
- Wildcard matching in `getObjects` and `getStates` lives in the store. It is a parameter of `Database` (`matchObjects`, `matchStates`), so only the pattern that reaches the store is modelled.
- The deep merge of `extend` from `alcalzone-shared/objects` is a foreign library. `Operations.Merge` models it as key-wise override, the same as the shallow `Object.assign` of `extendForeignObject`. Merge of nested objects is not modelled.
- Record identity is not modelled: the store holds record values, not references. `extendForeignObject` writes the merge into the entry at its id and into the entry at the merge's `_id`, which is where the in-place `Object.assign` is seen in the simple case. The write `obj._id = id` into the caller's record in `setObject` and `setForeignObject` is not observable in a value model. Later mutation of a published record by its holder is not modelled either.
- Operations.ExtendForeignObject: only the entries at `id` and at the merged record's `_id` change. In JavaScript every other entry holding the same record object also sees the assignment. Such an entry arises when an earlier `extendForeignObject` moved a record's `_id`, so that one object sits under two keys. A later extend through one key is then visible through the other in the source, but not here.
- AdapterMocks.AdapterMock.ExtendForeignObject: proved equal to `Operations.ExtendForeignObject`, so it has the same gap. Entries other than `id` and the new `_id` that alias the assigned record are not updated.
- Structural equality stands in for `!==` in `setStateChanged`. Two distinct JavaScript objects with equal contents count as different there, but equal here.
- Numbers are integers. Floating point, `NaN` and `-0` are not modelled. The options `name` and `instance` are modelled as an optional string and an optional integer; other JavaScript types there are not modelled. The instance is assumed to be a safe integer (at most 2^53 in magnitude): above that, two different integers can be the same JavaScript number, and from 1e21 up the number renders in exponent form (`1e+21`). So `Namespaces.NamespaceSeparatesInstances` and `Namespaces.DecimalStringRoundTrip` hold for the source only on safe integers.
- The many `sinon` stubs (`getPort`, `sendTo`, `subscribeStates`, the file and enum methods and so on) are inert stand-ins with no behaviour. So are the constant fields `host`, `common`, `systemConfig`, `adapterDir`, `ioPack`, `pack`, `version`, `states` and `connected`.
- `resetMockHistory`, `resetMockBehavior`, `resetMock` and `stubAndPromisifyImplementedMethods` record calls and wrap methods in promises. They come from `./tools`, which is not part of this model, and the logger mock is not part of it either. The promise-returning form of each method is therefore left out. So is a test overriding `setObject`, which the re-entry from `setObjectNotExists` would reach.
- The text of the error thrown by `terminate` is not modelled, only its `terminateReason`.
- `this` binding and prototype augmentation are not modelled. The mock is a fresh object whose handler properties read and write the options record. In the source they are defined on `this`, so the factory must be called with a receiver.
- Exceptions raised inside a callback, and a non-string id reaching `startsWith`, are not modelled. Ids are strings. The payload of `setObject` and `setForeignObject` is typed `Record`. That leaves out the `TypeError` the strict-mode assignment `obj._id = id` throws when `obj` is `null`, `undefined` or a primitive. The partial objects of the two `extend` operations are records too. A `null` or primitive partial object is not modelled.
