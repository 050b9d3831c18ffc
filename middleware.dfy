/**
 * `routerMiddleware(history)` (src/middleware.js): every action that is not
 * a navigation intent goes on to `next`; an UPDATE_LOCATION intent is turned
 * into the call `history[payload.method](...payload.args)` and goes no
 * further.
 *
 * The action type is the default export of src/actions.js, which is not
 * part of this model; its value here is the one the constant's name
 * suggests, "@@router/UPDATE_LOCATION".
 */
module Middleware {
  import opened Js

  const UPDATE_LOCATION: string := "@@router/UPDATE_LOCATION"

  /** One call on the history object: the method's name and its arguments. */
  datatype HistoryCall = HistoryCall(name: string, args: seq<Value>)

  /** What the middleware does with one action. */
  datatype Route =
    | Forward                 // `return next(action)`
    | Invoke(call: HistoryCall)  // `history[method](...args)`, returning undefined
    | Fault                   // the destructuring, the lookup or the spread throws a TypeError

  predicate IsNavigationIntent(action: Record) {
    Get(action, "type") == Str(UPDATE_LOCATION)
  }

  /** The argument list `...args` spreads: an array's items, a string's characters. */
  function Spread(args: Value): Option<seq<Value>> {
    match args
    case Arr(items) => Some(items)
    case Str(s) => Some(seq(|s|, i requires 0 <= i < |s| => Str([s[i]])))
    case _ => None
  }

  /** The property key `history[method]` looks up: the method value converted to a string. */
  function MethodKey(payload: Value): string {
    ToJsString(Get(OwnProps(payload), "method"))
  }

  /** The value spread as `...args`. */
  function ArgsOf(payload: Value): Value {
    Get(OwnProps(payload), "args")
  }

  /**
   * The middleware's decision for `action` against a history whose callable
   * properties are `methods`: intents become the call of the named method
   * with the spread arguments; destructuring an undefined or null payload,
   * a key that is not a method, or arguments that cannot be spread throw.
   */
  function Decide(methods: set<string>, action: Record): (r: Route)
    ensures r.Forward? <==> !IsNavigationIntent(action)
    ensures r.Invoke? ==>
      var payload := Get(action, "payload");
      && IsNavigationIntent(action)
      && !payload.Undefined? && !payload.Null?
      && r.call.name == MethodKey(payload) && r.call.name in methods
      && Spread(ArgsOf(payload)) == Some(r.call.args)
    ensures r.Fault? ==>
      var payload := Get(action, "payload");
      && IsNavigationIntent(action)
      && (payload.Undefined? || payload.Null? || MethodKey(payload) !in methods || Spread(ArgsOf(payload)).None?)
  {
    if !IsNavigationIntent(action) then Forward
    else
      var payload := Get(action, "payload");
      if payload.Undefined? || payload.Null? then Fault
      else
        var args := Spread(ArgsOf(payload));
        if MethodKey(payload) in methods && args.Some? then Invoke(HistoryCall(MethodKey(payload), args.value))
        else Fault
  }

  /**
   * The intent `{ type: UPDATE_LOCATION, payload: { method, args } }` that the
   * navigation builders (push, replace, go, goBack, goForward) create; `ref`
   * is the payload object's identity.
   */
  function NavigationIntent(name: string, args: seq<Value>, ref: nat): Record {
    map["type" := Str(UPDATE_LOCATION),
        "payload" := Obj(ref, map["method" := Str(name), "args" := Arr(args)])]
  }

  /** A well-formed intent calls the named history method with its arguments, in order. */
  lemma IntentInvokesNamedMethod(methods: set<string>, name: string, args: seq<Value>, ref: nat)
    requires name in methods
    ensures Decide(methods, NavigationIntent(name, args, ref)) == Invoke(HistoryCall(name, args))
  {
  }

  /** `push(...)` reaches `history.push` and `replace(...)` reaches `history.replace`. */
  lemma PushAndReplaceIntents(args: seq<Value>, ref: nat)
    ensures Decide({"push", "replace"}, NavigationIntent("push", args, ref)) == Invoke(HistoryCall("push", args))
    ensures Decide({"push", "replace"}, NavigationIntent("replace", args, ref)) == Invoke(HistoryCall("replace", args))
  {
  }

  /** An intent without a payload, or naming a method the history lacks, throws instead of navigating. */
  lemma MalformedIntentsThrow(methods: set<string>, name: string, args: seq<Value>, ref: nat)
    requires name !in methods
    ensures Decide(methods, map["type" := Str(UPDATE_LOCATION)]) == Fault
    ensures Decide(methods, NavigationIntent(name, args, ref)) == Fault
  {
  }

  /** The history the middleware drives: the methods it has and the calls made on it. */
  class History {
    const methods: set<string>
    var calls: seq<HistoryCall>

    constructor (methods: set<string>)
      ensures this.methods == methods && calls == []
    {
      this.methods := methods;
      calls := [];
    }

    method Call(call: HistoryCall)
      modifies this
      ensures calls == old(calls) + [call]
    {
      calls := calls + [call];
    }
  }

  /** The next dispatcher in the chain: it records what it is given and returns `result`. */
  class Next {
    const result: Value
    var received: seq<Record>

    constructor (result: Value)
      ensures this.result == result && received == []
    {
      this.result := result;
      received := [];
    }

    method Call(action: Record) returns (v: Value)
      modifies this
      ensures received == old(received) + [action] && v == result
    {
      received := received + [action];
      v := result;
    }
  }

  /**
   * `routerMiddleware(history)()(next)(action)`. The store API argument is
   * not used, so it does not appear.
   */
  method RouterMiddleware(history: History, next: Next, action: Record) returns (c: Completion<Value>)
    modifies history, next
    ensures Decide(history.methods, action).Forward? ==>
      c == Returned(next.result) && next.received == old(next.received) + [action] && unchanged(history)
    ensures Decide(history.methods, action).Invoke? ==>
      c == Returned(Undefined) && unchanged(next)
      && history.calls == old(history.calls) + [Decide(history.methods, action).call]
    ensures Decide(history.methods, action).Fault? ==>
      c == Threw("TypeError") && unchanged(next) && unchanged(history)
  {
    match Decide(history.methods, action)
    case Forward =>
      var v := next.Call(action);
      return Returned(v);
    case Invoke(call) =>
      history.Call(call);
      return Returned(Undefined);
    case Fault =>
      return Threw("TypeError");
  }
}
