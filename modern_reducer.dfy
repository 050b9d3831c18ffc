/**
 * The newest reducer (modules/reducer.js): LOCATION_CHANGE merges the
 * action's payload over the slice, so a router can report any set of
 * fields (in practice `{ action, location }`).
 */
module ModernReducer {
  import opened Js

  const LOCATION_CHANGE: string := "@@router/LOCATION_CHANGE"

  /** The slice before any location has been reported. */
  const InitialState: Record := map["location" := Null]

  predicate IsLocationChange(action: Record) {
    Get(action, "type") == Str(LOCATION_CHANGE)
  }

  /** The fields a LOCATION_CHANGE copies over the slice: `...payload`. */
  function Payload(action: Record): Record {
    OwnProps(Get(action, "payload"))
  }

  /**
   * `routerReducer(state = initialState, { type, payload } = {})`. An absent
   * action is `{}`, whose type is undefined, so it returns the slice.
   */
  function RouterReducer(state: Option<Record>, action: Option<Record>): (r: Record)
    ensures var base := if state.Some? then state.value else InitialState;
      var act := if action.Some? then action.value else map[];
      if IsLocationChange(act) then
        && r.Keys == base.Keys + Payload(act).Keys
        && (forall k :: k in Payload(act) ==> r[k] == Payload(act)[k])
        && (forall k :: k in base && k !in Payload(act) ==> r[k] == base[k])
      else r == base
  {
    var base := if state.Some? then state.value else InitialState;
    var act := if action.Some? then action.value else map[];
    if IsLocationChange(act) then base + Payload(act) else base
  }

  /** With neither a state nor an action the reducer yields the initial state. */
  lemma DefaultsGiveInitialState()
    ensures RouterReducer(None, None) == InitialState
    ensures Get(RouterReducer(None, None), "location") == Null
  {
  }

  /** Dispatching the same LOCATION_CHANGE twice is the same as dispatching it once. */
  lemma MergeIsIdempotent(state: Option<Record>, action: Record)
    ensures RouterReducer(Some(RouterReducer(state, Some(action))), Some(action))
         == RouterReducer(state, Some(action))
  {
  }

  /**
   * The action the router dispatches on every render,
   * `{ type: LOCATION_CHANGE, payload: { action, location } }`, with `ref`
   * the identity of the payload object.
   */
  function RouterDispatch(navigation: Value, location: Value, ref: nat): Record {
    map["type" := Str(LOCATION_CHANGE),
        "payload" := Obj(ref, map["action" := navigation, "location" := location])]
  }

  lemma RouterDispatchIsRecorded(state: Option<Record>, navigation: Value, location: Value, ref: nat)
    ensures var r := RouterReducer(state, Some(RouterDispatch(navigation, location, ref)));
      Get(r, "location") == location && Get(r, "action") == navigation
  {
  }

  /** The slice after a store that starts at `state` dispatches `actions` in order. */
  function Replay(state: Record, actions: seq<Record>): Record
    decreases |actions|
  {
    if |actions| == 0 then state
    else RouterReducer(Some(Replay(state, actions[..|actions| - 1])), Some(actions[|actions| - 1]))
  }

  /** Index of the last LOCATION_CHANGE whose payload sets `k`, or -1. */
  function LastSetting(actions: seq<Record>, k: string): (i: int)
    ensures -1 <= i < |actions|
    ensures i >= 0 ==> IsLocationChange(actions[i]) && k in Payload(actions[i])
    ensures forall j :: i < j < |actions| ==> !(IsLocationChange(actions[j]) && k in Payload(actions[j]))
    decreases |actions|
  {
    if |actions| == 0 then -1
    else if IsLocationChange(actions[|actions| - 1]) && k in Payload(actions[|actions| - 1]) then |actions| - 1
    else LastSetting(actions[..|actions| - 1], k)
  }

  /**
   * Over any sequence of actions each key holds the value of the last
   * payload that set it, or its value in the starting slice.
   */
  lemma {:induction false} ReplayLastWriteWins(state: Record, actions: seq<Record>, k: string)
    ensures var i := LastSetting(actions, k);
      Get(Replay(state, actions), k) == if i >= 0 then Payload(actions[i])[k] else Get(state, k)
    decreases |actions|
  {
    if |actions| > 0 {
      var prefix := actions[..|actions| - 1];
      ReplayLastWriteWins(state, prefix, k);
      var last := actions[|actions| - 1];
      if !(IsLocationChange(last) && k in Payload(last)) {
        assert LastSetting(actions, k) == LastSetting(prefix, k);
        if LastSetting(prefix, k) >= 0 {
          assert actions[LastSetting(prefix, k)] == prefix[LastSetting(prefix, k)];
        }
      }
    }
  }
}
