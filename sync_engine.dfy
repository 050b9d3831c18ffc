/**
 * `syncHistoryWithStore` (src/sync.js): history notifications flow into the
 * store as LOCATION_CHANGE actions; a store change that did not come from
 * history (a replay, a devtools reset or toggle) drives history back with
 * `transitionTo`; the enhanced history's `listen` reads locations from the
 * store.
 *
 * The store and the history are small synchronous mocks. Callback delivery
 * is written out as method calls on `SyncedHistory`, so the re-entrant chain
 * handleStoreChange -> history.transitionTo -> handleLocationChange (which
 * returns at once because `isTimeTraveling` is set) is visible. Every method
 * is proved against a pure function on a snapshot (`Bridge`), and the
 * properties of the bridge are lemmas about those functions.
 */
module SyncEngine {
  import opened Js
  import opened SyncReducer

  /** A listener given to the enhanced `listen`: its `unsubscribed` flag and the locations it was called with. */
  datatype Listener = Listener(unsubscribed: bool, received: seq<Value>)

  /** "What does the store say about the current location?" */
  function LocationInStore(slice: Record, initialLocation: Value, useInitialIfEmpty: bool): Value {
    Or(Get(slice, LOCATION_KEY), if useInitialIfEmpty then initialLocation else Undefined)
  }

  /** `Object.assign({}, location, { action: 'PUSH' })`, the argument of `transitionTo`. */
  function WithPushAction(location: Value): Record {
    OwnProps(location)["action" := Str("PUSH")]
  }

  /** One store notification as a listener sees it: called unless it has unsubscribed. */
  function Deliver(l: Listener, location: Value): Listener {
    if l.unsubscribed then l else l.(received := l.received + [location])
  }

  function Notified(ls: seq<Listener>, location: Value): seq<Listener> {
    seq(|ls|, i requires 0 <= i < |ls| => Deliver(ls[i], location))
  }

  /** Everything the bridge can observe or change, between two callbacks. */
  datatype Bridge = Bridge(
    // the store: the routing slice and the actions it has reduced
    slice: Record, dispatched: seq<Record>,
    // the history: its location object, the next object identity it hands
    // out, and the descriptors passed to transitionTo and to push
    location: Value, nextId: nat, transitions: seq<Record>, pushes: seq<Record>,
    // the closure of syncHistoryWithStore
    initialLocation: Value, currentLocation: Value,
    storeSubscribed: bool, historySubscribed: bool,
    listeners: seq<Listener>)

  function InStore(b: Bridge, useInitialIfEmpty: bool): Value {
    LocationInStore(b.slice, b.initialLocation, useInitialIfEmpty)
  }

  /** `v` is not an object, or an object made before identity `n` was handed out. */
  predicate OlderThan(v: Value, n: nat) {
    v.Obj? ==> v.id < n
  }

  /**
   * Every location object the store, history, the closure and the listeners
   * hold was made before history's next one. History's new objects are
   * therefore never `===` to any of them, as distinct JavaScript objects
   * never are.
   */
  predicate IdsPredate(b: Bridge) {
    && OlderThan(Get(b.slice, LOCATION_KEY), b.nextId)
    && OlderThan(b.location, b.nextId)
    && OlderThan(b.initialLocation, b.nextId)
    && OlderThan(b.currentLocation, b.nextId)
    && forall i, j :: 0 <= i < |b.listeners| && 0 <= j < |b.listeners[i].received| ==>
         OlderThan(b.listeners[i].received[j], b.nextId)
  }

  /**
   * `handleStoreChange`: when the store's location (or the initial one, if
   * the store holds none) is not the object last seen, remember it and make
   * history transition to a copy of it. The notification history sends back
   * is ignored, so it does not appear here.
   */
  function StoreHandlerRan(b: Bridge): Bridge {
    var target := InStore(b, true);
    if StrictEquals(b.currentLocation, target) then b
    else b.(currentLocation := target,
            location := Obj(b.nextId, WithPushAction(target)), nextId := b.nextId + 1,
            transitions := b.transitions + [WithPushAction(target)])
  }

  /** The store's subscribers after a change: the bridge's handler first, then every live listener. */
  function StoreChanged(b: Bridge): Bridge {
    var handled := if b.storeSubscribed then StoreHandlerRan(b) else b;
    handled.(listeners := Notified(handled.listeners, InStore(handled, true)))
  }

  /** `store.dispatch(action)`. */
  function Dispatched(b: Bridge, action: Record): Bridge {
    StoreChanged(b.(slice := RouterReducer(Some(b.slice), action), dispatched := b.dispatched + [action]))
  }

  /**
   * `handleLocationChange(location)` outside time travel: remember the
   * location; the first one is also kept as the initial location, and is not
   * dispatched when the store already holds a location of its own.
   */
  function LocationChanged(b: Bridge, location: Value): Bridge {
    var seen := b.(currentLocation := location);
    if !Truthy(b.initialLocation) then
      var first := seen.(initialLocation := location);
      if Truthy(InStore(first, false)) then first else Dispatched(first, LocationChange(location))
    else Dispatched(seen, LocationChange(location))
  }

  /** `history.push(desc)` on the enhanced history: history moves, then its listener runs. */
  function Pushed(b: Bridge, desc: Record): Bridge {
    var moved := b.(location := Obj(b.nextId, desc), nextId := b.nextId + 1, pushes := b.pushes + [desc]);
    if b.historySubscribed then LocationChanged(moved, moved.location) else moved
  }

  /** The store's state replaced from outside (a devtools reset or toggle), then its subscribers. */
  function Replaced(b: Bridge, slice: Record): Bridge {
    StoreChanged(b.(slice := slice))
  }

  /** The enhanced `listen`: the listener is called at once with the store's location. */
  function Listened(b: Bridge): Bridge {
    b.(listeners := b.listeners + [Listener(false, [InStore(b, true)])])
  }

  /** The function `listen` returned for listener `handle`. */
  function Unsubscribed(b: Bridge, handle: nat): Bridge {
    if handle < |b.listeners|
    then b.(listeners := b.listeners[handle := b.listeners[handle].(unsubscribed := true)])
    else b
  }

  /** `dispose`: the store subscription exists (and is removed) only with adjustUrlOnReplay. */
  function Disposed(b: Bridge, adjustUrlOnReplay: bool): Bridge {
    b.(storeSubscribed := if adjustUrlOnReplay then false else b.storeSubscribed, historySubscribed := false)
  }

  /** The body of `syncHistoryWithStore` after its guard, from a bridge with an empty closure. */
  function Installed(b: Bridge, adjustUrlOnReplay: bool, notifiesOnListen: bool): Bridge {
    var replayed := if adjustUrlOnReplay then StoreHandlerRan(b.(storeSubscribed := true)) else b;
    var listening := replayed.(historySubscribed := true);
    if notifiesOnListen then LocationChanged(listening, listening.location) else listening
  }

  // ---------------------------------------------------------------------
  // Properties of single steps

  /**
   * `getLocationInStore`: a location the store holds always wins; an empty
   * store yields the initial location only when asked to, so a reset slice
   * reads as the initial location; and once the initial location is known,
   * asking with the fallback never yields a falsy location.
   */
  lemma LocationInStoreFallback(slice: Record, initialLocation: Value)
    ensures Truthy(Get(slice, LOCATION_KEY)) ==>
      && LocationInStore(slice, initialLocation, true) == Get(slice, LOCATION_KEY)
      && LocationInStore(slice, initialLocation, false) == Get(slice, LOCATION_KEY)
    ensures !Truthy(Get(slice, LOCATION_KEY)) ==>
      && LocationInStore(slice, initialLocation, true) == initialLocation
      && LocationInStore(slice, initialLocation, false) == Undefined
    ensures Truthy(LocationInStore(slice, initialLocation, false)) <==> Truthy(Get(slice, LOCATION_KEY))
    ensures LocationInStore(InitialState, initialLocation, true) == initialLocation
    ensures Truthy(initialLocation) ==> Truthy(LocationInStore(slice, initialLocation, true))
  {
  }

  /**
   * After `handleStoreChange` the bridge's current location is the store's
   * (with the initial fallback), history was driven exactly when it was not
   * already that object, and running the handler again does nothing.
   */
  lemma StoreHandlerSettles(b: Bridge)
    ensures var after := StoreHandlerRan(b);
      && StrictEquals(after.currentLocation, InStore(b, true))
      && (after.transitions == b.transitions + [WithPushAction(InStore(b, true))]
          <==> !StrictEquals(b.currentLocation, InStore(b, true)))
      && (after.transitions == b.transitions <==> StrictEquals(b.currentLocation, InStore(b, true)))
      && StoreHandlerRan(after) == after
  {
    StrictEqualsIsEquivalence(b.currentLocation, InStore(b, true), InStore(b, true));
  }

  /**
   * No echo: a location reported by history is dispatched, and the store
   * change it causes never drives history, since the store now holds the
   * very object the bridge saw last.
   */
  lemma LocationChangeNeverDrivesHistory(b: Bridge, location: Value)
    requires location.Obj?
    ensures LocationChanged(b, location).transitions == b.transitions
    ensures LocationChanged(b, location).location == b.location
    ensures LocationChanged(b, location).currentLocation == location
  {
  }

  /**
   * The first history notification fixes the initial location; when the
   * store already holds a location it is respected and nothing is
   * dispatched, otherwise the location is.
   */
  lemma FirstNotificationCapturesInitial(b: Bridge, location: Value)
    requires !Truthy(b.initialLocation) && location.Obj?
    ensures LocationChanged(b, location).initialLocation == location
    ensures Truthy(Get(b.slice, LOCATION_KEY)) ==>
      LocationChanged(b, location).dispatched == b.dispatched
      && LocationChanged(b, location).slice == b.slice
    ensures !Truthy(Get(b.slice, LOCATION_KEY)) ==>
      LocationChanged(b, location).dispatched == b.dispatched + [LocationChange(location)]
      && Get(LocationChanged(b, location).slice, LOCATION_KEY) == location
  {
  }

  /** A devtools reset of the slice sends history back to the initial location. */
  lemma ResetReturnsToInitialLocation(b: Bridge)
    requires b.storeSubscribed && Truthy(b.initialLocation)
    requires !StrictEquals(b.currentLocation, b.initialLocation)
    ensures var after := Replaced(b, InitialState);
      && after.transitions == b.transitions + [WithPushAction(b.initialLocation)]
      && after.location == Obj(b.nextId, WithPushAction(b.initialLocation))
      && after.currentLocation == b.initialLocation
      && after.listeners == Notified(b.listeners, b.initialLocation)
  {
  }

  /**
   * Time travel (a devtools toggle or reset) that leaves the store at a
   * location the bridge has not seen drives history there, once, and every
   * live listener is told that location.
   */
  lemma TimeTravelDrivesHistory(b: Bridge, slice: Record)
    requires b.storeSubscribed
    requires !StrictEquals(b.currentLocation, LocationInStore(slice, b.initialLocation, true))
    ensures var target := LocationInStore(slice, b.initialLocation, true);
      var after := Replaced(b, slice);
      && after.transitions == b.transitions + [WithPushAction(target)]
      && after.location == Obj(b.nextId, WithPushAction(target))
      && after.currentLocation == target
      && after.listeners == Notified(b.listeners, target)
      && after.dispatched == b.dispatched
  {
  }

  /**
   * Once the initial location is known, a push on the enhanced history puts
   * the new location object in the store and calls every live listener with
   * it, even when the path is the same as before, and history is not driven
   * back.
   */
  lemma PushReachesStoreAndListeners(b: Bridge, desc: Record)
    requires b.historySubscribed && Truthy(b.initialLocation)
    ensures var location := Obj(b.nextId, desc);
      var after := Pushed(b, desc);
      && Get(after.slice, LOCATION_KEY) == location
      && after.dispatched == b.dispatched + [LocationChange(location)]
      && after.listeners == Notified(b.listeners, location)
      && after.transitions == b.transitions
      && after.pushes == b.pushes + [desc]
  {
  }

  /**
   * Installing over a store that already holds a location `persisted`
   * (with adjustUrlOnReplay, and a history that reports at once on
   * `listen`): history is driven to a copy of it, and the bridge then
   * remembers history's new object, not `persisted`. The next store change,
   * even one that does not touch the routing slice, finds the two different
   * objects and drives history to a copy of `persisted` a second time.
   */
  lemma PersistedLocationIsTransitionedAgain(b: Bridge, action: Record)
    requires !b.storeSubscribed && !b.historySubscribed && b.listeners == []
    requires b.initialLocation == Undefined && b.currentLocation == Undefined
    requires IdsPredate(b) && Get(b.slice, LOCATION_KEY).Obj?
    requires !IsLocationChange(action)
    ensures var persisted := Get(b.slice, LOCATION_KEY);
      var installed := Installed(b, true, true);
      var after := Dispatched(installed, action);
      && installed.transitions == b.transitions + [WithPushAction(persisted)]
      && after.transitions == installed.transitions + [WithPushAction(persisted)]
      && after.slice == b.slice
  {
  }

  /**
   * Every store change calls each listener that has not unsubscribed exactly
   * once more, with the store's location after the change, and no other.
   */
  lemma StoreChangeCallsLiveListeners(b: Bridge, i: nat)
    requires i < |b.listeners|
    ensures var after := StoreChanged(b);
      && |after.listeners| == |b.listeners|
      && after.listeners[i].unsubscribed == b.listeners[i].unsubscribed
      && after.listeners[i].received
         == b.listeners[i].received + (if b.listeners[i].unsubscribed then [] else [InStore(after, true)])
  {
  }

  /** The enhanced `listen` calls the new listener once, at once, with the store's location. */
  lemma ListenCallsAtOnce(b: Bridge)
    ensures var after := Listened(b);
      && |after.listeners| == |b.listeners| + 1
      && after.listeners[|b.listeners|] == Listener(false, [InStore(b, true)])
      && after.listeners[..|b.listeners|] == b.listeners
  {
  }

  /** With the guard passed, the bridge starts with both subscriptions the options ask for. */
  lemma InstalledSubscribes(b: Bridge, adjustUrlOnReplay: bool, notifiesOnListen: bool)
    requires !b.storeSubscribed && !b.historySubscribed && b.listeners == []
    ensures Installed(b, adjustUrlOnReplay, notifiesOnListen).historySubscribed
    ensures Installed(b, adjustUrlOnReplay, notifiesOnListen).storeSubscribed == adjustUrlOnReplay
  {
  }

  // ---------------------------------------------------------------------
  // Properties of every run of events

  /** What the application can do to a synced history and its store. */
  datatype Event =
    | Push(desc: Record)
    | Dispatch(action: Record)
    | Replace(slice: Record)
    | Listen
    | Unsubscribe(handle: nat)
    | Dispose

  function Step(b: Bridge, adjustUrlOnReplay: bool, e: Event): Bridge {
    match e
    case Push(desc) => Pushed(b, desc)
    case Dispatch(action) => Dispatched(b, action)
    case Replace(slice) => Replaced(b, slice)
    case Listen => Listened(b)
    case Unsubscribe(handle) => Unsubscribed(b, handle)
    case Dispose => Disposed(b, adjustUrlOnReplay)
  }

  function Run(b: Bridge, adjustUrlOnReplay: bool, events: seq<Event>): Bridge
    decreases |events|
  {
    if |events| == 0 then b else Run(Step(b, adjustUrlOnReplay, events[0]), adjustUrlOnReplay, events[1..])
  }

  lemma StepKeepsInitialLocation(b: Bridge, adjustUrlOnReplay: bool, e: Event)
    requires Truthy(b.initialLocation)
    ensures Step(b, adjustUrlOnReplay, e).initialLocation == b.initialLocation
  {
  }

  /** Once captured, the initial location never changes again. */
  lemma {:induction false} InitialLocationIsFixed(b: Bridge, adjustUrlOnReplay: bool, events: seq<Event>)
    requires Truthy(b.initialLocation)
    ensures Run(b, adjustUrlOnReplay, events).initialLocation == b.initialLocation
    decreases |events|
  {
    if |events| > 0 {
      StepKeepsInitialLocation(b, adjustUrlOnReplay, events[0]);
      InitialLocationIsFixed(Step(b, adjustUrlOnReplay, events[0]), adjustUrlOnReplay, events[1..]);
    }
  }

  /** The location objects an event brings in from the application already exist. */
  predicate EventPredates(e: Event, n: nat) {
    match e
    case Dispatch(action) => OlderThan(Get(action, LOCATION_KEY), n)
    case Replace(slice) => OlderThan(Get(slice, LOCATION_KEY), n)
    case _ => true
  }

  lemma NotifiedKeepsIdsPredate(b: Bridge, location: Value)
    requires IdsPredate(b) && OlderThan(location, b.nextId)
    ensures IdsPredate(b.(listeners := Notified(b.listeners, location)))
  {
    var ls := Notified(b.listeners, location);
    forall i, j | 0 <= i < |ls| && 0 <= j < |ls[i].received|
      ensures OlderThan(ls[i].received[j], b.nextId)
    {
      if !b.listeners[i].unsubscribed && j == |b.listeners[i].received| {
        assert ls[i].received[j] == location;
      } else {
        assert ls[i].received[j] == b.listeners[i].received[j];
      }
    }
  }

  lemma StoreHandlerKeepsIdsPredate(b: Bridge)
    requires IdsPredate(b)
    ensures IdsPredate(StoreHandlerRan(b)) && StoreHandlerRan(b).nextId >= b.nextId
  {
  }

  lemma StoreChangedKeepsIdsPredate(b: Bridge)
    requires IdsPredate(b)
    ensures IdsPredate(StoreChanged(b)) && StoreChanged(b).nextId >= b.nextId
  {
    var handled := if b.storeSubscribed then StoreHandlerRan(b) else b;
    StoreHandlerKeepsIdsPredate(b);
    NotifiedKeepsIdsPredate(handled, InStore(handled, true));
  }

  lemma LocationChangedKeepsIdsPredate(b: Bridge, location: Value)
    requires IdsPredate(b) && OlderThan(location, b.nextId)
    ensures IdsPredate(LocationChanged(b, location)) && LocationChanged(b, location).nextId >= b.nextId
  {
    var seen := b.(currentLocation := location);
    var first := seen.(initialLocation := location);
    StoreChangedKeepsIdsPredate(seen.(slice := RouterReducer(Some(seen.slice), LocationChange(location)),
                                      dispatched := seen.dispatched + [LocationChange(location)]));
    StoreChangedKeepsIdsPredate(first.(slice := RouterReducer(Some(first.slice), LocationChange(location)),
                                       dispatched := first.dispatched + [LocationChange(location)]));
  }

  /** History's move to a new object keeps the invariant. */
  lemma MovedKeepsIdsPredate(b: Bridge, desc: Record)
    requires IdsPredate(b)
    ensures IdsPredate(b.(location := Obj(b.nextId, desc), nextId := b.nextId + 1, pushes := b.pushes + [desc]))
  {
    forall i, j | 0 <= i < |b.listeners| && 0 <= j < |b.listeners[i].received|
      ensures OlderThan(b.listeners[i].received[j], b.nextId + 1)
    {
      assert OlderThan(b.listeners[i].received[j], b.nextId);
    }
  }

  lemma PushedKeepsIdsPredate(b: Bridge, desc: Record)
    requires IdsPredate(b)
    ensures IdsPredate(Pushed(b, desc)) && Pushed(b, desc).nextId >= b.nextId
  {
    var moved := b.(location := Obj(b.nextId, desc), nextId := b.nextId + 1, pushes := b.pushes + [desc]);
    MovedKeepsIdsPredate(b, desc);
    if b.historySubscribed {
      assert Pushed(b, desc) == LocationChanged(moved, moved.location);
      LocationChangedKeepsIdsPredate(moved, moved.location);
    } else {
      assert Pushed(b, desc) == moved;
    }
  }

  /** Every event keeps the invariant: the objects history makes stay distinct from all others. */
  lemma StepKeepsIdsPredate(b: Bridge, adjustUrlOnReplay: bool, e: Event)
    requires IdsPredate(b) && EventPredates(e, b.nextId)
    ensures IdsPredate(Step(b, adjustUrlOnReplay, e)) && Step(b, adjustUrlOnReplay, e).nextId >= b.nextId
  {
    match e
    case Push(desc) =>
      PushedKeepsIdsPredate(b, desc);
    case Dispatch(action) =>
      StoreChangedKeepsIdsPredate(b.(slice := RouterReducer(Some(b.slice), action), dispatched := b.dispatched + [action]));
    case Replace(slice) =>
      StoreChangedKeepsIdsPredate(b.(slice := slice));
    case Listen =>
    case Unsubscribe(handle) =>
    case Dispose =>
  }

  /**
   * Over any run whose events bring in only objects that already existed at
   * its start, the invariant holds throughout.
   */
  lemma {:induction false} RunKeepsIdsPredate(b: Bridge, adjustUrlOnReplay: bool, events: seq<Event>)
    requires IdsPredate(b)
    requires forall k :: 0 <= k < |events| ==> EventPredates(events[k], b.nextId)
    ensures IdsPredate(Run(b, adjustUrlOnReplay, events)) && Run(b, adjustUrlOnReplay, events).nextId >= b.nextId
    decreases |events|
  {
    if |events| > 0 {
      var next := Step(b, adjustUrlOnReplay, events[0]);
      assert EventPredates(events[0], b.nextId);
      StepKeepsIdsPredate(b, adjustUrlOnReplay, events[0]);
      forall k | 0 <= k < |events[1..]|
        ensures EventPredates(events[1..][k], next.nextId)
      {
        assert EventPredates(events[k + 1], b.nextId);
      }
      RunKeepsIdsPredate(next, adjustUrlOnReplay, events[1..]);
    }
  }

  /** The actions the application itself dispatches in `events`. */
  function AppActions(events: seq<Event>): seq<Record>
    decreases |events|
  {
    if |events| == 0 then []
    else (if events[0].Dispatch? then [events[0].action] else []) + AppActions(events[1..])
  }

  lemma StepWhenDisposed(b: Bridge, adjustUrlOnReplay: bool, e: Event)
    requires !b.storeSubscribed && !b.historySubscribed
    ensures var after := Step(b, adjustUrlOnReplay, e);
      && !after.storeSubscribed && !after.historySubscribed
      && after.transitions == b.transitions
      && after.currentLocation == b.currentLocation
      && after.dispatched == b.dispatched + (if e.Dispatch? then [e.action] else [])
  {
  }

  /**
   * After `dispose` the bridge is inert: history pushes no longer reach the
   * store, store changes no longer drive history, and the store only holds
   * what the application dispatches itself.
   */
  lemma {:induction false} DisposedBridgeIsInert(b: Bridge, adjustUrlOnReplay: bool, events: seq<Event>)
    requires b.storeSubscribed ==> adjustUrlOnReplay
    ensures var d := Disposed(b, adjustUrlOnReplay);
      var after := Run(d, adjustUrlOnReplay, events);
      && after.transitions == d.transitions
      && after.currentLocation == d.currentLocation
      && after.dispatched == d.dispatched + AppActions(events)
  {
    InertRun(Disposed(b, adjustUrlOnReplay), adjustUrlOnReplay, events);
  }

  lemma {:induction false} InertRun(d: Bridge, adjustUrlOnReplay: bool, events: seq<Event>)
    requires !d.storeSubscribed && !d.historySubscribed
    ensures var after := Run(d, adjustUrlOnReplay, events);
      && after.transitions == d.transitions
      && after.currentLocation == d.currentLocation
      && after.dispatched == d.dispatched + AppActions(events)
    decreases |events|
  {
    if |events| > 0 {
      var next := Step(d, adjustUrlOnReplay, events[0]);
      StepWhenDisposed(d, adjustUrlOnReplay, events[0]);
      InertRun(next, adjustUrlOnReplay, events[1..]);
      assert d.dispatched + AppActions(events)
          == next.dispatched + AppActions(events[1..]);
    }
  }

  lemma StepKeepsUnsubscribed(b: Bridge, adjustUrlOnReplay: bool, e: Event, handle: nat)
    requires handle < |b.listeners| && b.listeners[handle].unsubscribed
    ensures var after := Step(b, adjustUrlOnReplay, e);
      handle < |after.listeners| && after.listeners[handle] == b.listeners[handle]
  {
  }

  /** A listener that has unsubscribed is never called again, whatever happens next. */
  lemma {:induction false} UnsubscribedListenerIsNeverCalled(b: Bridge, adjustUrlOnReplay: bool, handle: nat, events: seq<Event>)
    requires handle < |b.listeners|
    ensures var u := Unsubscribed(b, handle);
      var after := Run(u, adjustUrlOnReplay, events);
      handle < |after.listeners| && after.listeners[handle] == u.listeners[handle]
  {
    SilentRun(Unsubscribed(b, handle), adjustUrlOnReplay, handle, events);
  }

  lemma {:induction false} SilentRun(b: Bridge, adjustUrlOnReplay: bool, handle: nat, events: seq<Event>)
    requires handle < |b.listeners| && b.listeners[handle].unsubscribed
    ensures var after := Run(b, adjustUrlOnReplay, events);
      handle < |after.listeners| && after.listeners[handle] == b.listeners[handle]
    decreases |events|
  {
    if |events| > 0 {
      StepKeepsUnsubscribed(b, adjustUrlOnReplay, events[0], handle);
      SilentRun(Step(b, adjustUrlOnReplay, events[0]), adjustUrlOnReplay, handle, events[1..]);
    }
  }

  // ---------------------------------------------------------------------
  // The mocks and the bridge itself

  /** Mock store holding the routing slice (what `selectLocationState(store.getState())` yields). */
  class Store {
    var slice: Option<Record>
    var dispatched: seq<Record>

    constructor (slice: Option<Record>)
      ensures this.slice == slice && dispatched == []
    {
      this.slice := slice;
      dispatched := [];
    }

    /** The reducer half of `dispatch`; the subscribers are run by the bridge. */
    method Reduce(action: Record)
      modifies this
      ensures slice == Some(RouterReducer(old(slice), action)) && dispatched == old(dispatched) + [action]
    {
      slice := Some(RouterReducer(slice, action));
      dispatched := dispatched + [action];
    }

    /** A state forced from outside, as devtools do on reset or toggle. */
    method Replace(newSlice: Record)
      modifies this
      ensures slice == Some(newSlice) && dispatched == old(dispatched)
    {
      slice := Some(newSlice);
    }
  }

  /** Mock history: each navigation makes a new location object with a fresh identity. */
  class History {
    var location: Value
    var nextId: nat
    var transitions: seq<Record>
    var pushes: seq<Record>
    /** whether `listen` calls the new listener at once with the current location */
    const notifiesOnListen: bool

    constructor (start: Record, firstId: nat, notifiesOnListen: bool)
      ensures location == Obj(firstId, start) && nextId == firstId + 1
      ensures transitions == [] && pushes == [] && this.notifiesOnListen == notifiesOnListen
    {
      location := Obj(firstId, start);
      nextId := firstId + 1;
      transitions := [];
      pushes := [];
      this.notifiesOnListen := notifiesOnListen;
    }

    /** The navigation half of `transitionTo`; the listeners are run by the bridge. */
    method TransitionTo(desc: Record) returns (loc: Value)
      modifies this
      ensures loc == Obj(old(nextId), desc) && location == loc && nextId == old(nextId) + 1
      ensures transitions == old(transitions) + [desc] && pushes == old(pushes)
    {
      loc := Obj(nextId, desc);
      location := loc;
      nextId := nextId + 1;
      transitions := transitions + [desc];
    }

    /** The navigation half of `push`; the listeners are run by the bridge. */
    method Push(desc: Record) returns (loc: Value)
      modifies this
      ensures loc == Obj(old(nextId), desc) && location == loc && nextId == old(nextId) + 1
      ensures pushes == old(pushes) + [desc] && transitions == old(transitions)
    {
      loc := Obj(nextId, desc);
      location := loc;
      nextId := nextId + 1;
      pushes := pushes + [desc];
    }
  }

  /**
   * The enhanced history `syncHistoryWithStore` returns, with the closure it keeps.
   *
   * The four callbacks call one another: HandleLocationChange dispatches
   * (Dispatch), a dispatch runs the subscribers (NotifyStoreSubscribers),
   * which run HandleStoreChange, which calls HandleLocationChange through
   * history. Their `decreases` constants rank that chain, 4 > 3 > 2 > 1, and
   * the last call, HandleStoreChange -> HandleLocationChange, is made while
   * `isTimeTraveling` is set, when HandleLocationChange ranks 0 and returns
   * at once.
   */
  class SyncedHistory {
    const store: Store
    const history: History
    const adjustUrlOnReplay: bool
    var initialLocation: Value
    var currentLocation: Value
    var isTimeTraveling: bool
    /** `handleStoreChange` is subscribed to the store */
    var storeSubscribed: bool
    /** `handleLocationChange` is listening to history */
    var historySubscribed: bool
    var listeners: seq<Listener>

    ghost predicate Valid()
      reads this, store, history
    {
      store.slice.Some? && (storeSubscribed ==> adjustUrlOnReplay) && IdsPredate(Snap())
    }

    ghost function Snap(): Bridge
      reads this, store, history
      requires store.slice.Some?
    {
      Bridge(store.slice.value, store.dispatched,
             history.location, history.nextId, history.transitions, history.pushes,
             initialLocation, currentLocation, storeSubscribed, historySubscribed, listeners)
    }

    /** `getLocationInStore`. */
    function GetLocationInStore(useInitialIfEmpty: bool): Value
      reads this, store
      requires store.slice.Some?
    {
      LocationInStore(store.slice.value, initialLocation, useInitialIfEmpty)
    }

    /** The body of `syncHistoryWithStore` once its guard has passed. */
    constructor (history: History, store: Store, adjustUrlOnReplay: bool)
      requires store.slice.Some?
      requires OlderThan(Get(store.slice.value, LOCATION_KEY), history.nextId)
      requires OlderThan(history.location, history.nextId)
      modifies store, history
      ensures this.store == store && this.history == history && this.adjustUrlOnReplay == adjustUrlOnReplay
      ensures Valid() && !isTimeTraveling
      ensures var before := Bridge(old(store.slice.value), old(store.dispatched),
                                   old(history.location), old(history.nextId), old(history.transitions),
                                   old(history.pushes), Undefined, Undefined, false, false, []);
        Snap() == Installed(before, adjustUrlOnReplay, history.notifiesOnListen)
    {
      this.store := store;
      this.history := history;
      this.adjustUrlOnReplay := adjustUrlOnReplay;
      initialLocation := Undefined;
      currentLocation := Undefined;
      isTimeTraveling := false;
      storeSubscribed := false;
      historySubscribed := false;
      listeners := [];
      new;
      if adjustUrlOnReplay {
        storeSubscribed := true;
        HandleStoreChange();
      }
      historySubscribed := true;
      if history.notifiesOnListen {
        HandleLocationChange(history.location);
      }
    }

    /** `handleStoreChange`, the store subscriber. */
    method HandleStoreChange()
      requires Valid() && !isTimeTraveling
      modifies this, store, history
      decreases 1
      ensures Valid() && !isTimeTraveling
      ensures Snap() == StoreHandlerRan(old(Snap()))
    {
      var locationInStore := GetLocationInStore(true);
      if StrictEquals(currentLocation, locationInStore) {
        return;
      }
      isTimeTraveling := true;
      currentLocation := locationInStore;
      var location := history.TransitionTo(WithPushAction(locationInStore));
      if historySubscribed {
        HandleLocationChange(location);
      }
      isTimeTraveling := false;
    }

    /** `handleLocationChange`, the history listener; it returns at once during time travel. */
    method HandleLocationChange(location: Value)
      requires Valid() && OlderThan(location, history.nextId)
      modifies this, store, history
      decreases if isTimeTraveling then 0 else 4
      ensures Valid() && isTimeTraveling == old(isTimeTraveling)
      ensures Snap() == if old(isTimeTraveling) then old(Snap()) else LocationChanged(old(Snap()), location)
    {
      if isTimeTraveling {
        return;
      }
      currentLocation := location;
      if !Truthy(initialLocation) {
        initialLocation := location;
        if Truthy(GetLocationInStore(false)) {
          return;
        }
      }
      Dispatch(LocationChange(location));
    }

    /** `store.dispatch(action)`: the reducer, then the subscribers. */
    method Dispatch(action: Record)
      requires Valid() && !isTimeTraveling
      requires OlderThan(Get(action, LOCATION_KEY), history.nextId)
      modifies this, store, history
      decreases 3
      ensures Valid() && !isTimeTraveling
      ensures Snap() == Dispatched(old(Snap()), action)
    {
      store.Reduce(action);
      NotifyStoreSubscribers();
    }

    /** The store runs its subscribers: the bridge's handler, then the listeners of the enhanced `listen`. */
    method NotifyStoreSubscribers()
      requires Valid() && !isTimeTraveling
      modifies this, store, history
      decreases 2
      ensures Valid() && !isTimeTraveling
      ensures Snap() == StoreChanged(old(Snap()))
    {
      if storeSubscribed {
        HandleStoreChange();
      }
      listeners := Notified(listeners, GetLocationInStore(true));
    }

    /** `push` on the enhanced history, which is the original history's. */
    method Push(desc: Record)
      requires Valid() && !isTimeTraveling
      modifies this, store, history
      ensures Valid() && !isTimeTraveling
      ensures Snap() == Pushed(old(Snap()), desc)
    {
      var location := history.Push(desc);
      MovedKeepsIdsPredate(old(Snap()), desc);
      assert Snap() == old(Snap()).(location := location, nextId := old(history.nextId) + 1,
                                    pushes := old(history.pushes) + [desc]);
      if historySubscribed {
        HandleLocationChange(location);
      }
    }

    /** Devtools force the store's state (reset, toggle), then the store runs its subscribers. */
    method ReplaceStoreState(slice: Record)
      requires Valid() && !isTimeTraveling
      requires OlderThan(Get(slice, LOCATION_KEY), history.nextId)
      modifies this, store, history
      ensures Valid() && !isTimeTraveling
      ensures Snap() == Replaced(old(Snap()), slice)
    {
      store.Replace(slice);
      NotifyStoreSubscribers();
    }

    /** The enhanced `listen`; the handle names the unsubscribe function it returns. */
    method Listen() returns (handle: nat)
      requires Valid() && !isTimeTraveling
      modifies this
      ensures Valid() && !isTimeTraveling
      ensures handle == |old(listeners)|
      ensures Snap() == Listened(old(Snap()))
    {
      handle := |listeners|;
      listeners := listeners + [Listener(false, [GetLocationInStore(true)])];
    }

    /** The unsubscribe function `listen` returned. */
    method Unsubscribe(handle: nat)
      requires Valid() && !isTimeTraveling && handle < |listeners|
      modifies this
      ensures Valid() && !isTimeTraveling
      ensures Snap() == Unsubscribed(old(Snap()), handle)
    {
      listeners := listeners[handle := listeners[handle].(unsubscribed := true)];
    }

    /** `dispose`. */
    method Dispose()
      requires Valid() && !isTimeTraveling
      modifies this
      ensures Valid() && !isTimeTraveling
      ensures !storeSubscribed && !historySubscribed
      ensures Snap() == Disposed(old(Snap()), adjustUrlOnReplay)
    {
      if adjustUrlOnReplay {
        storeSubscribed := false;
      }
      historySubscribed := false;
    }
  }

  const MISSING_ROUTING_STATE: string :=
    "Expected the routing state to be available either as `state.routing` or as the custom expression "
    + "you can specify as `selectLocationState` in the `syncHistoryWithStore()` options. Ensure you have "
    + "added the `routerReducer` to your store's reducers via `combineReducers` or whatever method you "
    + "use to isolate your reducers."

  /**
   * `syncHistoryWithStore(history, store, { adjustUrlOnReplay })`: throws,
   * before subscribing to anything, when the routing slice is undefined.
   */
  method SyncHistoryWithStore(history: History, store: Store, adjustUrlOnReplay: bool)
    returns (r: Completion<SyncedHistory>)
    requires store.slice.Some? ==> OlderThan(Get(store.slice.value, LOCATION_KEY), history.nextId)
    requires OlderThan(history.location, history.nextId)
    modifies store, history
    ensures r.Threw? <==> old(store.slice).None?
    ensures r.Threw? ==> r.error == MISSING_ROUTING_STATE && unchanged(store) && unchanged(history)
    ensures r.Returned? ==>
      (r.value.store == store && r.value.history == history && r.value.Valid()
       && !r.value.isTimeTraveling && r.value.historySubscribed
       && r.value.storeSubscribed == adjustUrlOnReplay)
    ensures r.Returned? ==>
      r.value.Snap() == Installed(Bridge(old(store.slice).value, old(store.dispatched),
                                         old(history.location), old(history.nextId), old(history.transitions),
                                         old(history.pushes), Undefined, Undefined, false, false, []),
                                  adjustUrlOnReplay, history.notifiesOnListen)
  {
    if store.slice.None? {
      return Threw(MISSING_ROUTING_STATE);
    }
    var synced := new SyncedHistory(history, store, adjustUrlOnReplay);
    InstalledSubscribes(Bridge(old(store.slice.value), old(store.dispatched),
                               old(history.location), old(history.nextId), old(history.transitions),
                               old(history.pushes), Undefined, Undefined, false, false, []),
                        adjustUrlOnReplay, history.notifiesOnListen);
    return Returned(synced);
  }
}
