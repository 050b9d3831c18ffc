# react-router-redux, location sync core, in Dafny

This project models how react-router-redux keeps a Redux store and a history
object in step. The library comes in several historical variants, and four
parts are modelled:

- **`syncHistoryWithStore`** (`src/sync.js`), module `SyncEngine`, plus its
  reducer in module `SyncReducer`.
  - History notifications become `LOCATION_CHANGE` actions in the store.
  - A store change that the bridge did not cause drives history back with
    `transitionTo`. Such a change is a devtools replay, reset or toggle.
  - The enhanced history's `listen` reads locations from the store.
  - `dispose` tears the bridge down.
  - The closure state is modelled as fields of a `SyncedHistory` class:
    `initialLocation`, `currentLocation`, `isTimeTraveling` and the two
    subscriptions.
- **`syncReduxAndRouter`** (`src/index.js`), the oldest bridge, in modules
  `LegacyReducer` and `LegacySync`. It consists of:
  - the `UPDATE_PATH` action and its builder;
  - the `routeReducer` (`update`);
  - `locationToString`;
  - a pair of callbacks that compare path strings to cut echoes.
- **`routerMiddleware`** (`src/middleware.js`), module `Middleware`. It
  forwards ordinary actions to `next`. It turns an `UPDATE_LOCATION` intent
  into the call `history[method](...args)`.
- **The payload-merge `routerReducer`** (`modules/reducer.js`), module
  `ModernReducer`.

JavaScript values are modelled in module `Js`:
- Objects carry an identity, so `===` on locations is identity, as in the
  source.
- Plain objects are maps from keys to values, and a missing key reads as
  `undefined`.
- Truthiness, `||` and the copy made by object spread are written out.

The reducers are pure functions. Their fold properties ("the slice holds the
last reported location") are proved by induction over action sequences.

The two bridges are classes over small synchronous mocks of the store and
the history:
- `Store.Reduce` applies the reducer.
- `History.TransitionTo` and `History.Push` hand out a new location object
  whose identity is history's `nextId`. The invariant `SyncEngine.IdsPredate`
  makes that identity new. It is part of `SyncedHistory.Valid()` and says
  that every location the store, history, the closure and the listeners
  hold has a smaller identity. The entry points require the same of the
  objects the application brings in: the routing slice, history's starting
  location, dispatched actions and forced slices. This is how the model
  keeps two distinct JavaScript objects from ever being `===`.
- Callback delivery is written out as method calls on the bridge. This makes
  the re-entrant chain visible: `handleStoreChange` calls
  `history.transitionTo`, which calls `handleLocationChange`, which returns at
  once while `isTimeTraveling` is set.
- Each bridge method is proved to move a snapshot of store, history and
  closure (`SyncEngine.Bridge`, `LegacySync.World`) exactly as a pure function
  of the old snapshot says.

Lemmas about those functions state what the bridges promise, both for single
steps and for any run of application events (`Run`).

Some tests in the repository, and reducers of other variants, expect
behaviour this code does not have. The model follows the code:
- The code has no `changeId` counter, though test/createTests.js and
  test/index.js assert one.
- The code has no deep equality of locations. `src/sync.js` compares
  location objects by identity, and `src/index.js` compares path strings.
- test/node/reducer.js dispatches location changes with the location under
  `payload`. The reducer in `src/sync.js` does not read `payload`; it reads
  `locationBeforeTransitions` from the action itself
  (`SyncReducer.PayloadShapedActionLeavesNoLocation`).

## Model

| member | source | states |
|---|---|---|
| SyncReducer.LocationChange | src/sync.js:112-115 | the action `handleLocationChange` dispatches is a LOCATION_CHANGE carrying the location under `locationBeforeTransitions` |
| SyncReducer.RouterReducer | src/sync.js:19-25 | on LOCATION_CHANGE: the slice's keys plus the location key, the location read from the action, every other key kept; otherwise the slice itself; an absent slice is `{locationBeforeTransitions: null}` |
| SyncReducer.ReplayHoldsLastLocation | src/sync.js:13-25 | after any sequence of actions the slice holds the location of the last LOCATION_CHANGE, or the starting one when there is none |
| SyncReducer.ReplayKeepsOtherKeys | src/sync.js:20-21 | over any sequence of actions, every key other than the location keeps its presence and value |
| SyncReducer.InitialStateHoldsNoLocation | src/sync.js:7-9 | the default slice holds a falsy location, and an unrelated action returns it unchanged |
| SyncReducer.PayloadShapedActionLeavesNoLocation | src/sync.js:19-21 | a LOCATION_CHANGE with its location under `payload` leaves the location undefined |
| SyncEngine.LocationInStoreFallback | src/sync.js:62-66 | `getLocationInStore` (`SyncEngine.LocationInStore`, which `SyncEngine.SyncedHistory.GetLocationInStore` reads on the live store and closure): a location held by the store wins; an empty store gives the initial location only with the fallback, so a reset slice reads as the initial location; once the initial location is known the fallback never gives a falsy location |
| SyncEngine.StepKeepsIdsPredate | src/sync.js:72-82 | every event keeps every held location older than history's next object, so the `===` at src/sync.js:72 never mistakes history's new object for one held before |
| SyncEngine.RunKeepsIdsPredate | src/sync.js:72-82 | the same over any run of events that brings in only objects already existing |
| SyncEngine.StoreHandlerSettles | src/sync.js:70-84 | after `handleStoreChange` the current location is the store's (falling back to the initial one); history was driven exactly when it differed; a second run changes nothing |
| SyncEngine.LocationChangeNeverDrivesHistory | src/sync.js:91-116 | a location history reports is recorded as current, and the store change it dispatches never calls `transitionTo` or moves history |
| SyncEngine.FirstNotificationCapturesInitial | src/sync.js:100-109 | the first notification fixes the initial location; a location already in the store is respected (no dispatch, slice unchanged), otherwise the location is dispatched and stored |
| SyncEngine.TimeTravelDrivesHistory | src/sync.js:68-84 | a store state forced to a location the bridge has not seen drives history to a copy of it with action PUSH, once, records it as current and tells every live listener |
| SyncEngine.ResetReturnsToInitialLocation | test/_createSyncTest.js:190-202 | a reset to the initial slice drives history back to the initial location and tells the listeners that location |
| SyncEngine.PushReachesStoreAndListeners | test/_createSyncTest.js:150-166 | a push puts the new location object in the store with one LOCATION_CHANGE, calls every live listener with it even for a repeated path, and does not drive history back |
| SyncEngine.PersistedLocationIsTransitionedAgain | src/sync.js:69-109 | installed over a persisted location, the bridge drives history to a copy of it, and the next store change, even an unrelated one, drives history to it a second time |
| SyncEngine.StoreChangeCallsLiveListeners | src/sync.js:129-133 | each store change calls every listener that has not unsubscribed exactly once, with the store's location, and no other |
| SyncEngine.ListenCallsAtOnce | src/sync.js:122-124 | the enhanced `listen` calls the new listener at once with the store's location and leaves the other listeners alone |
| SyncEngine.InstalledSubscribes | src/sync.js:86-117 | once installed, the history listener is registered, and the store subscription exists exactly when `adjustUrlOnReplay` is set |
| SyncEngine.InitialLocationIsFixed | src/sync.js:100-104 | once truthy, the initial location never changes over any run of events |
| SyncEngine.DisposedBridgeIsInert | src/sync.js:143-148 | after `dispose`, no run of events drives history or changes the current location, and the store receives only the application's own dispatches |
| SyncEngine.UnsubscribedListenerIsNeverCalled | src/sync.js:126-139 | after its unsubscribe function runs, a listener receives no further call over any run of events |
| SyncEngine.SyncedHistory.constructor | src/sync.js:55-117 | the bridge starts from an empty closure, runs `handleStoreChange` under `adjustUrlOnReplay`, then listens to history (which may report at once) |
| SyncEngine.SyncedHistory.HandleStoreChange | src/sync.js:70-84 | moves store, history and closure as `StoreHandlerRan` says; the notification history sends back changes nothing; `isTimeTraveling` is false afterwards |
| SyncEngine.SyncedHistory.HandleLocationChange | src/sync.js:91-116 | while `isTimeTraveling` is set nothing changes; otherwise the state moves as `LocationChanged` says |
| SyncEngine.SyncedHistory.Dispatch | src/sync.js:112-115 | the reducer, then the store's subscribers, as `Dispatched` says |
| SyncEngine.SyncedHistory.NotifyStoreSubscribers | src/sync.js:129-133 | the bridge's store handler (when subscribed), then every live listener with the store's location |
| SyncEngine.SyncedHistory.Push | src/sync.js:117-120 | a push on the enhanced history moves history, then runs the history listener when registered |
| SyncEngine.SyncedHistory.ReplaceStoreState | src/sync.js:68-69 | a state forced on the store runs the subscribers, as `Replaced` says |
| SyncEngine.SyncedHistory.Listen | src/sync.js:122-140 | appends a listener already called with the store's location, and returns its handle |
| SyncEngine.SyncedHistory.Unsubscribe | src/sync.js:136-139 | marks exactly that listener as unsubscribed |
| SyncEngine.SyncedHistory.Dispose | src/sync.js:143-148 | removes the history listener, and the store subscription when `adjustUrlOnReplay` is set |
| SyncEngine.SyncHistoryWithStore | src/sync.js:39-53 | throws the documented error, with store and history untouched, exactly when the routing slice is undefined; otherwise returns the installed bridge |
| LegacyReducer.UpdatePath | src/index.js:8-12 | the action is exactly `{type: UPDATE_PATH, path, noRouterUpdate}` |
| LegacyReducer.UpdateSetsPathKeepsRest | src/index.js:18-23 | `update`, exported as `routeReducer` (`LegacyReducer.Update`): on UPDATE_PATH the slice gains `path` and `noRouterUpdate` from the action and keeps every other key |
| LegacyReducer.UpdateIgnoresOtherActions | src/index.js:16-24 | `LegacyReducer.Update` on any other action returns the slice unchanged; an absent slice is `{}` |
| LegacyReducer.UpdatePathRoundTrip | src/index.js:8-23 | what `updatePath` carries is what the reduced slice holds |
| LegacyReducer.LocationToString | src/index.js:29 | the path is pathname, search and hash, concatenated with nothing added or dropped |
| LegacyReducer.ParsePathRoundTrip | src/index.js:29 | printing the location the mock history makes of a path gives that path back |
| LegacyReducer.LocationRoundTrip | src/index.js:29 | parsing the printed path of a well-formed location gives the location back |
| LegacySync.ListenerSyncsStore | src/index.js:39-45 | the history listener dispatches exactly when the store's path differs, and then exactly `updatePath(path)`, which clears `noRouterUpdate`; afterwards the paths agree, and it never pushes or moves history |
| LegacySync.SubscriberPushesOnlyWhenNeeded | src/index.js:53-56 | the store subscriber pushes the store's path if the path differs from history's and `noRouterUpdate` is falsy, and otherwise neither pushes nor moves history |
| LegacySync.QuietDispatchLeavesHistory | src/index.js:47-57 | a dispatch that leaves `noRouterUpdate` truthy, or the path history already shows, never pushes or moves history |
| LegacySync.HistoryNavigationReachesStoreOnce | test/index.js:60-75 | a push on history is copied into the store with at most one dispatch and no push back |
| LegacySync.StoreNavigationReachesHistoryOnce | src/index.js:47-57 | a new path dispatched to the store pushes history exactly once, onto that path, and the listener's answer dispatches nothing |
| LegacySync.StepSyncs | src/index.js:39-57 | with both callbacks registered, every event leaves the store's path equal to history's, unless `noRouterUpdate` is set |
| LegacySync.RunStaysInSync | src/index.js:39-57 | being in sync holds after any run of events |
| LegacySync.RouterSync.constructor | src/index.js:39-57 | registers the listener, which history may call at once, and then the subscriber |
| LegacySync.RouterSync.HandleLocation | src/index.js:39-45 | moves store and history as `LocationHeard` says |
| LegacySync.RouterSync.Dispatch | src/index.js:43 | the reducer, then the subscriber when registered |
| LegacySync.RouterSync.HandleStoreChange | src/index.js:47-57 | moves store and history as `StoreChanged` says: a push of the store's path only when it differs from history's and `noRouterUpdate` is falsy (`SubscriberPushesOnlyWhenNeeded`) |
| LegacySync.RouterSync.PushState | src/index.js:55 | history moves to the parsed path, then the listener runs |
| LegacySync.SyncReduxAndRouter | src/index.js:31-37 | throws the documented error, registering nothing, exactly when `routing` is absent; otherwise both callbacks are registered |
| Middleware.Decide | src/middleware.js:9-16 | non-intents are forwarded; an intent becomes the call of the method its payload names, with the spread args; a nullish payload, a missing method or args that cannot be spread throw |
| Middleware.IntentInvokesNamedMethod | src/middleware.js:14-15 | a well-formed intent calls exactly the named history method with its arguments in order |
| Middleware.PushAndReplaceIntents | test/middleware.spec.js:20-28 | a push intent reaches `history.push` and a replace intent `history.replace` |
| Middleware.MalformedIntentsThrow | src/middleware.js:14-15 | an intent with no payload, or naming a method the history lacks, throws |
| Middleware.RouterMiddleware | src/middleware.js:8-17 | forwards to `next` and returns its result with history untouched; or makes exactly one history call, returns undefined and leaves `next` uncalled; or throws TypeError |
| ModernReducer.RouterReducer | modules/reducer.js:7-13 | on LOCATION_CHANGE: keys of slice and payload, payload values win, other slice keys kept; otherwise the slice itself |
| ModernReducer.DefaultsGiveInitialState | modules/reducer.js:3-7 | with neither state nor action the result is `{location: null}` |
| ModernReducer.MergeIsIdempotent | modules/reducer.js:8-10 | applying the same LOCATION_CHANGE twice equals applying it once |
| ModernReducer.RouterDispatchIsRecorded | modules/reducer.js:8-10 | after the router's `{action, location}` payload, the slice's `location` and `action` are the dispatched ones |
| ModernReducer.ReplayLastWriteWins | modules/reducer.js:7-13 | over any sequence of actions, each key holds the value from the last payload that set it, or its starting value |

## Left out

- The history library, the Redux store internals and devtools `instrument` are replaced by synchronous mocks:
  - subscriber order is the bridge's handler first, then the listeners in the order they were added;
  - a devtools reset or toggle is a state forced on the store (`ReplaceStoreState`).
- `selectLocationState` is not a parameter. The store mock holds the selected routing slice directly.
- A null or non-object routing slice is not represented. The slice is absent or a plain object, and an absent slice stands for every falsy `routing` in `src/index.js`.
- `window.location` (src/index.js:53) is the mock history's current location.
- The mock history parses a pushed path with no defaults. The pathname is everything before the first `?` or `#`.
- Exceptions thrown by listeners, subscribers or history mid-chain are not modelled. That includes `isTimeTraveling` staying set after a throw inside `transitionTo` (src/sync.js:77-83).
- Listeners and subscribers other than the bridge's own are recorded, not run.
- `UPDATE_LOCATION` is the default export of `src/actions.js` (src/middleware.js:1), which is not part of this model. The model assumes that default export is `"@@router/UPDATE_LOCATION"`, as the constant's name suggests. The tests import a named export instead.
- The builders `push`, `replace`, `go`, `goBack` and `goForward` are also in `src/actions.js`. Only the intent shape they produce appears, as `Middleware.NavigationIntent`.
- `changeId`, `avoidRouterUpdate` and the `payload`-reading reducer belong to variants whose code is not part of this model.
- NaN, non-integer numbers, symbols, inherited properties and getters are not modelled. Numbers are integers (`Js.Num(int)`).
- Object spread of a string or an array copies no properties here.
- `modules/ConnectedRouter.js`, the examples, the build configuration and the type declarations are UI, demo code or tooling. They are not part of this model.
- LegacyReducer.LocationToString: a location is three strings, so a location lacking a part, which `locationToString` prints as `"undefined"` (src/index.js:29), is not represented. "No normalisation" holds for locations whose parts are all strings.
- Actions are plain objects. A `null` or non-object action throws a TypeError at `action.type` (src/middleware.js:10) or at the destructuring (src/sync.js:19, modules/reducer.js:7). The model does not represent those actions or that error.
- SyncEngine.SyncHistoryWithStore: `adjustUrlOnReplay` is a required argument. The default `true` and the `= {}` options default (src/sync.js:39-42) are not modelled. Passing `true` is the default case.
- Slices are values, so the identity of the state object that the reducers return unchanged (src/sync.js:24, src/index.js:24, modules/reducer.js:12) is not modelled. Only equal contents are.
- Js.ToJsString: states only that a string converts to itself, because the other cases are the conversion table itself.
