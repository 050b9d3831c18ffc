/**
 * `syncReduxAndRouter` (src/index.js): two stateless callbacks, a history
 * listener that copies the location's path into the store and a store
 * subscriber that pushes the store's path onto history. Echoes are cut by
 * comparing path strings.
 *
 * The store and the history are small synchronous mocks. Callback delivery
 * is written out as method calls on `RouterSync`, so the re-entrant chain
 * store.dispatch -> subscriber -> history.pushState -> listener is visible.
 * Each method is proved against a pure function on a snapshot (`World`).
 */
module LegacySync {
  import opened Js
  import opened LegacyReducer

  /** One call `history.pushState(state, path)`. */
  datatype PushCall = PushCall(state: Value, path: Value)

  /** Mock store holding `state.routing` and reduced by `routeReducer`. */
  class Store {
    var routing: Option<Record>
    var dispatched: seq<Record>

    constructor (routing: Option<Record>)
      ensures this.routing == routing && dispatched == []
    {
      this.routing := routing;
      dispatched := [];
    }

    /** The reducer half of `dispatch`; the subscribers are run by the bridge. */
    method Reduce(action: Record)
      modifies this
      ensures routing == Some(Update(old(routing), action))
      ensures dispatched == old(dispatched) + [action]
    {
      routing := Some(Update(routing, action));
      dispatched := dispatched + [action];
    }
  }

  /** Mock history; its `location` is what the subscriber reads as `window.location`. */
  class History {
    var location: PathLocation
    var pushes: seq<PushCall>
    /** whether `listen` calls the new listener at once with the current location */
    const notifiesOnListen: bool

    constructor (start: PathLocation, notifiesOnListen: bool)
      ensures location == start && pushes == [] && this.notifiesOnListen == notifiesOnListen
    {
      location := start;
      pushes := [];
      this.notifiesOnListen := notifiesOnListen;
    }

    /** The navigation half of `pushState`; the listeners are run by the bridge. */
    method Navigate(state: Value, path: Value)
      modifies this
      ensures location == ParsePath(ToJsString(path))
      ensures pushes == old(pushes) + [PushCall(state, path)]
    {
      location := ParsePath(ToJsString(path));
      pushes := pushes + [PushCall(state, path)];
    }
  }

  /** Everything the bridge can observe or change, at one instant. */
  datatype World = World(
    routing: Record, dispatched: seq<Record>,
    location: PathLocation, pushes: seq<PushCall>,
    listening: bool, subscribed: bool)

  function PathOf(w: World): Value {
    Get(w.routing, "path")
  }

  /** The store's path agrees with history unless the store asked not to update the router. */
  predicate InSync(w: World) {
    Truthy(Get(w.routing, "noRouterUpdate")) || PathOf(w) == Str(LocationToString(w.location))
  }

  /**
   * The history listener, called once history stands at `location`: it
   * dispatches `updatePath(path)` only when the store's path differs. The
   * subscriber that dispatch runs then finds the two paths equal and does
   * nothing, which is why no push appears here.
   */
  function LocationHeard(w: World, location: PathLocation): World {
    var s := LocationToString(location);
    if PathOf(w) == Str(s) then w
    else w.(routing := Update(Some(w.routing), UpdatePath(Str(s), Undefined)),
            dispatched := w.dispatched + [UpdatePath(Str(s), Undefined)])
  }

  /** `history.pushState(state, path)`: history moves, then its listener runs. */
  function StatePushed(w: World, state: Value, path: Value): World {
    var location := ParsePath(ToJsString(path));
    var moved := w.(location := location, pushes := w.pushes + [PushCall(state, path)]);
    if w.listening then LocationHeard(moved, location) else moved
  }

  /** The store subscriber: push the store's path unless it is current or `noRouterUpdate` is set. */
  function StoreChanged(w: World): World {
    var path := PathOf(w);
    if path != Str(LocationToString(w.location)) && !Truthy(Get(w.routing, "noRouterUpdate"))
    then StatePushed(w, Null, path)
    else w
  }

  /** `store.dispatch(action)`: reduce, then run the subscriber if it is registered. */
  function Dispatched(w: World, action: Record): World {
    var reduced := w.(routing := Update(Some(w.routing), action), dispatched := w.dispatched + [action]);
    if w.subscribed then StoreChanged(reduced) else reduced
  }

  /**
   * The listener dispatches exactly when the paths differ, and then exactly
   * `updatePath(path)`, which also clears `noRouterUpdate`; afterwards the
   * paths agree.
   */
  lemma ListenerSyncsStore(w: World, location: PathLocation)
    ensures PathOf(LocationHeard(w, location)) == Str(LocationToString(location))
    ensures (LocationHeard(w, location) == w) <==> (PathOf(w) == Str(LocationToString(location)))
    ensures PathOf(w) != Str(LocationToString(location)) ==>
      && LocationHeard(w, location).dispatched == w.dispatched + [UpdatePath(Str(LocationToString(location)), Undefined)]
      && Get(LocationHeard(w, location).routing, "noRouterUpdate") == Undefined
    ensures LocationHeard(w, location).pushes == w.pushes
    ensures LocationHeard(w, location).location == w.location
  {
  }

  /**
   * The store subscriber pushes if and only if the store's path differs from
   * history's and `noRouterUpdate` is falsy, and then pushes exactly that
   * path; otherwise history is left where it is.
   */
  lemma SubscriberPushesOnlyWhenNeeded(w: World)
    ensures var needed := PathOf(w) != Str(LocationToString(w.location)) && !Truthy(Get(w.routing, "noRouterUpdate"));
      && (needed ==> StoreChanged(w).pushes == w.pushes + [PushCall(Null, PathOf(w))])
      && (!needed ==> StoreChanged(w).pushes == w.pushes && StoreChanged(w).location == w.location)
  {
  }

  /**
   * A dispatch after which the store asks not to update the router, or
   * whose path history already shows, leaves history alone.
   */
  lemma QuietDispatchLeavesHistory(w: World, action: Record)
    requires w.subscribed
    requires var reduced := Update(Some(w.routing), action);
      Truthy(Get(reduced, "noRouterUpdate")) || Get(reduced, "path") == Str(LocationToString(w.location))
    ensures Dispatched(w, action).pushes == w.pushes
    ensures Dispatched(w, action).location == w.location
  {
    SubscriberPushesOnlyWhenNeeded(w.(routing := Update(Some(w.routing), action), dispatched := w.dispatched + [action]));
  }

  /**
   * No echo loop: when the store asks for a new string path, history is
   * pushed exactly once, lands on that path, and the listener's answer
   * dispatches nothing further.
   */
  lemma {:induction false} StoreNavigationReachesHistoryOnce(w: World, path: string, flag: Value)
    requires w.listening && w.subscribed
    requires !Truthy(flag) && path != LocationToString(w.location)
    ensures var after := Dispatched(w, UpdatePath(Str(path), flag));
      && after.pushes == w.pushes + [PushCall(Null, Str(path))]
      && LocationToString(after.location) == path
      && after.dispatched == w.dispatched + [UpdatePath(Str(path), flag)]
      && PathOf(after) == Str(path)
  {
    ParsePathRoundTrip(path);
  }

  /** A push made by the application is copied into the store, once, and never pushed back. */
  lemma {:induction false} HistoryNavigationReachesStoreOnce(w: World, state: Value, path: string)
    requires w.listening
    ensures var after := StatePushed(w, state, Str(path));
      && after.pushes == w.pushes + [PushCall(state, Str(path))]
      && PathOf(after) == Str(path)
      && |after.dispatched| <= |w.dispatched| + 1
  {
    var location := ParsePath(path);
    ParsePathRoundTrip(path);
    var moved := w.(location := location, pushes := w.pushes + [PushCall(state, Str(path))]);
    assert StatePushed(w, state, Str(path)) == LocationHeard(moved, location);
    ListenerSyncsStore(moved, location);
  }

  /** What the application can do once the bridge is installed. */
  datatype Event = Dispatch(action: Record) | PushState(state: Value, path: Value)

  function Step(w: World, e: Event): World {
    match e
    case Dispatch(action) => Dispatched(w, action)
    case PushState(state, path) => StatePushed(w, state, path)
  }

  function Run(w: World, events: seq<Event>): World
    decreases |events|
  {
    if |events| == 0 then w else Run(Step(w, events[0]), events[1..])
  }

  lemma StepKeepsRegistrations(w: World, e: Event)
    ensures Step(w, e).listening == w.listening && Step(w, e).subscribed == w.subscribed
  {
  }

  /** With both callbacks registered, every event leaves store and history in sync. */
  lemma StepSyncs(w: World, e: Event)
    requires w.listening && w.subscribed
    ensures InSync(Step(w, e))
  {
    match e
    case Dispatch(action) =>
      var reduced := w.(routing := Update(Some(w.routing), action), dispatched := w.dispatched + [action]);
      var path := PathOf(reduced);
      if path != Str(LocationToString(reduced.location)) && !Truthy(Get(reduced.routing, "noRouterUpdate")) {
        var location := ParsePath(ToJsString(path));
        ListenerSyncsStore(reduced.(location := location, pushes := reduced.pushes + [PushCall(Null, path)]), location);
      }
    case PushState(state, path) =>
      var location := ParsePath(ToJsString(path));
      ListenerSyncsStore(w.(location := location, pushes := w.pushes + [PushCall(state, path)]), location);
  }

  /** Being in sync is kept by every run of events once both callbacks are installed. */
  lemma {:induction false} RunStaysInSync(w: World, events: seq<Event>)
    requires w.listening && w.subscribed
    requires InSync(w) || |events| > 0
    ensures InSync(Run(w, events))
    decreases |events|
  {
    if |events| > 0 {
      StepSyncs(w, events[0]);
      StepKeepsRegistrations(w, events[0]);
      RunStaysInSync(Step(w, events[0]), events[1..]);
    }
  }

  /**
   * The two callbacks `syncReduxAndRouter` installs, wired to the mocks.
   *
   * The listener dispatches (HandleLocation -> Dispatch), a dispatch runs the
   * subscriber (HandleStoreChange), which may push (PushState), which runs
   * the listener again. The `decreases` measures rank that chain twice:
   * 17 > 16 > 15 > 14 while the store's path is not a string, and
   * 3 > 2 > 1 > 0 once it is; the listener only ever dispatches a string
   * path, which moves the chain from the first ranking to the second. A push
   * of a string path lands history on exactly that path
   * (`ParsePathRoundTrip`), so the listener it runs finds the paths equal,
   * ranks 0 and dispatches nothing.
   */
  class RouterSync {
    const store: Store
    const history: History
    /** the history listener is registered */
    var listening: bool
    /** the store subscriber is registered */
    var subscribed: bool

    ghost function Snap(): World
      reads this, store, history
      requires store.routing.Some?
    {
      World(store.routing.value, store.dispatched, history.location, history.pushes, listening, subscribed)
    }

    function Path(): Value
      reads store
      requires store.routing.Some?
    {
      Get(store.routing.value, "path")
    }

    /**
     * Registers the listener (which history may call at once, before the
     * subscriber exists) and then the subscriber.
     */
    constructor (history: History, store: Store)
      requires store.routing.Some?
      modifies store, history
      ensures this.store == store && this.history == history
      ensures store.routing.Some? && listening && subscribed
      ensures var before := World(old(store.routing.value), old(store.dispatched),
                                  old(history.location), old(history.pushes), true, false);
        Snap() == (if history.notifiesOnListen then LocationHeard(before, before.location) else before)
                    .(subscribed := true)
    {
      this.store := store;
      this.history := history;
      listening := true;
      subscribed := false;
      new;
      if history.notifiesOnListen {
        HandleLocation(history.location);
      }
      subscribed := true;
    }

    /** The history listener. */
    method HandleLocation(location: PathLocation)
      requires store.routing.Some? && location == history.location
      modifies store, history
      decreases if Path() == Str(LocationToString(location)) then 0 else 14
      ensures store.routing.Some?
      ensures Snap() == LocationHeard(old(Snap()), location)
    {
      var s := LocationToString(location);
      if Path() != Str(s) {
        Dispatch(UpdatePath(Str(s), Undefined));
      }
    }

    /** `store.dispatch`: the reducer, then the subscriber. */
    method Dispatch(action: Record)
      requires store.routing.Some?
      modifies store, history
      decreases if Get(Update(store.routing, action), "path").Str? then 3 else 17
      ensures store.routing.Some?
      ensures Snap() == Dispatched(old(Snap()), action)
    {
      store.Reduce(action);
      if subscribed {
        HandleStoreChange();
      }
    }

    /** The store subscriber. */
    method HandleStoreChange()
      requires store.routing.Some?
      modifies store, history
      decreases if Path().Str? then 2 else 16
      ensures store.routing.Some?
      ensures Snap() == StoreChanged(old(Snap()))
    {
      var routing := store.routing.value;
      var path := Get(routing, "path");
      if path != Str(LocationToString(history.location)) && !Truthy(Get(routing, "noRouterUpdate")) {
        PushState(Null, path);
      }
    }

    /** `history.pushState`: history moves, then the listener. */
    method PushState(state: Value, path: Value)
      requires store.routing.Some?
      modifies store, history
      decreases if Path() == path && path.Str? then 1 else 15
      ensures store.routing.Some?
      ensures Snap() == StatePushed(old(Snap()), state, path)
    {
      history.Navigate(state, path);
      ghost var moved := Snap();
      assert moved == old(Snap()).(location := ParsePath(ToJsString(path)), pushes := old(history.pushes) + [PushCall(state, path)]);
      if listening {
        ParsePathRoundTrip(ToJsString(path));
        assert LocationToString(history.location) == ToJsString(path);
        HandleLocation(history.location);
        assert Snap() == LocationHeard(moved, moved.location);
      }
    }
  }

  const MISSING_ROUTING: string :=
    "Cannot sync router: route state does not exist. Did you install the reducer under the name `routing`?"

  /** `syncReduxAndRouter(history, store)`: throws, registering nothing, when `routing` is absent. */
  method SyncReduxAndRouter(history: History, store: Store) returns (r: Completion<RouterSync>)
    modifies store, history
    ensures r.Threw? <==> old(store.routing).None?
    ensures r.Threw? ==> r.error == MISSING_ROUTING && unchanged(store) && unchanged(history)
    ensures r.Returned? ==>
      (r.value.store == store && r.value.history == history
       && store.routing.Some? && r.value.listening && r.value.subscribed)
    ensures r.Returned? ==>
      var before := World(old(store.routing).value, old(store.dispatched),
                          old(history.location), old(history.pushes), true, false);
      r.value.Snap() == (if history.notifiesOnListen then LocationHeard(before, before.location) else before)
                          .(subscribed := true)
  {
    if store.routing.None? {
      return Threw(MISSING_ROUTING);
    }
    var bridge := new RouterSync(history, store);
    return Returned(bridge);
  }
}
