/**
 * The reducer of the store-driven bridge: it folds LOCATION_CHANGE actions
 * into the routing slice, whose one key of its own is
 * `locationBeforeTransitions`.
 */
module SyncReducer {
  import opened Js

  /** The action type the bridge dispatches when history reports a location. */
  const LOCATION_CHANGE: string := "@@router/LOCATION_CHANGE"

  const LOCATION_KEY: string := "locationBeforeTransitions"

  /** The slice before any location has been reported. */
  const InitialState: Record := map[LOCATION_KEY := Null]

  predicate IsLocationChange(action: Record) {
    Get(action, "type") == Str(LOCATION_CHANGE)
  }

  /** The action `handleLocationChange` dispatches for `location`. */
  function LocationChange(location: Value): (a: Record)
    ensures IsLocationChange(a) && Get(a, LOCATION_KEY) == location
  {
    map["type" := Str(LOCATION_CHANGE), LOCATION_KEY := location]
  }

  /** An absent (undefined) slice falls back to the initial state. */
  function StateOrInitial(state: Option<Record>): Record {
    if state.Some? then state.value else InitialState
  }

  /**
   * `routerReducer(state = initialState, { type, locationBeforeTransitions })`:
   * on LOCATION_CHANGE a copy of the slice whose location is the action's
   * (read as `undefined` when the action has none), every other key kept;
   * any other action returns the slice unchanged.
   */
  function RouterReducer(state: Option<Record>, action: Record): (r: Record)
    ensures IsLocationChange(action) ==>
      && r.Keys == StateOrInitial(state).Keys + {LOCATION_KEY}
      && r[LOCATION_KEY] == Get(action, LOCATION_KEY)
      && forall k :: k in StateOrInitial(state) && k != LOCATION_KEY ==> r[k] == StateOrInitial(state)[k]
    ensures !IsLocationChange(action) ==> r == StateOrInitial(state)
  {
    var base := StateOrInitial(state);
    if IsLocationChange(action) then base[LOCATION_KEY := Get(action, LOCATION_KEY)] else base
  }

  /** The slice after a store that starts at `state` has dispatched `actions` in order. */
  function Replay(state: Record, actions: seq<Record>): Record
    decreases |actions|
  {
    if |actions| == 0 then state
    else RouterReducer(Some(Replay(state, actions[..|actions| - 1])), actions[|actions| - 1])
  }

  /**
   * Index of the last LOCATION_CHANGE in `actions`, or -1 when there is none:
   * a reference definition of "the most recent reported location".
   */
  function LastLocationChange(actions: seq<Record>): (i: int)
    ensures -1 <= i < |actions|
    ensures i >= 0 ==> IsLocationChange(actions[i])
    ensures forall j :: i < j < |actions| ==> !IsLocationChange(actions[j])
    decreases |actions|
  {
    if |actions| == 0 then -1
    else if IsLocationChange(actions[|actions| - 1]) then |actions| - 1
    else LastLocationChange(actions[..|actions| - 1])
  }

  /** After any sequence of actions the slice holds the location of the last LOCATION_CHANGE. */
  lemma {:induction false} ReplayHoldsLastLocation(state: Record, actions: seq<Record>)
    ensures var i := LastLocationChange(actions);
      Get(Replay(state, actions), LOCATION_KEY)
      == if i >= 0 then Get(actions[i], LOCATION_KEY) else Get(state, LOCATION_KEY)
    decreases |actions|
  {
    if |actions| > 0 {
      var prefix := actions[..|actions| - 1];
      ReplayHoldsLastLocation(state, prefix);
      if !IsLocationChange(actions[|actions| - 1]) {
        assert LastLocationChange(actions) == LastLocationChange(prefix);
        if LastLocationChange(prefix) >= 0 {
          assert actions[LastLocationChange(prefix)] == prefix[LastLocationChange(prefix)];
        }
      }
    }
  }

  /** The reducer never touches any key but the location, however many actions it folds. */
  lemma {:induction false} ReplayKeepsOtherKeys(state: Record, actions: seq<Record>, k: string)
    requires k != LOCATION_KEY
    ensures (k in Replay(state, actions)) == (k in state)
    ensures Get(Replay(state, actions), k) == Get(state, k)
    decreases |actions|
  {
    if |actions| > 0 {
      ReplayKeepsOtherKeys(state, actions[..|actions| - 1], k);
    }
  }

  /** A state reset to the initial slice reports no location. */
  lemma InitialStateHoldsNoLocation()
    ensures !Truthy(Get(RouterReducer(None, map[]), LOCATION_KEY))
    ensures RouterReducer(None, map["type" := Str("@@INIT")]) == InitialState
  {
  }

  /**
   * The reducer reads the location from the action itself, not from a
   * `payload`: a LOCATION_CHANGE that carries its location under `payload`
   * leaves the slice's location undefined.
   */
  lemma PayloadShapedActionLeavesNoLocation(state: Option<Record>, payload: Value)
    ensures var a := map["type" := Str(LOCATION_CHANGE), "payload" := payload];
      Get(RouterReducer(state, a), LOCATION_KEY) == Undefined
  {
  }
}
