/**
 * The oldest bridge's vocabulary (src/index.js): the UPDATE_PATH action,
 * its builder, the reducer installed as `routing`, and the path string of a
 * location.
 */
module LegacyReducer {
  import opened Js

  const UPDATE_PATH: string := "@@router/UPDATE_PATH"

  /** `updatePath(path, noRouterUpdate)`: an argument left out is passed as Undefined. */
  function UpdatePath(path: Value, noRouterUpdate: Value): (a: Record)
    ensures a.Keys == {"type", "path", "noRouterUpdate"}
    ensures a["type"] == Str(UPDATE_PATH) && a["path"] == path && a["noRouterUpdate"] == noRouterUpdate
  {
    map["type" := Str(UPDATE_PATH), "path" := path, "noRouterUpdate" := noRouterUpdate]
  }

  predicate IsUpdatePath(action: Record) {
    Get(action, "type") == Str(UPDATE_PATH)
  }

  /**
   * `update(state = {}, { type, path, noRouterUpdate })`: on UPDATE_PATH a
   * copy of the slice with `path` and `noRouterUpdate` set from the action
   * (Undefined where the action lacks them); otherwise the slice itself.
   */
  function Update(state: Option<Record>, action: Record): (r: Record)
  {
    var base := if state.Some? then state.value else map[];
    if IsUpdatePath(action) then
      base["path" := Get(action, "path")]["noRouterUpdate" := Get(action, "noRouterUpdate")]
    else base
  }

  /** The reducer sets exactly the two routing keys and keeps every other key. */
  lemma UpdateSetsPathKeepsRest(state: Option<Record>, action: Record)
    requires IsUpdatePath(action)
    ensures var base := if state.Some? then state.value else map[];
      var r := Update(state, action);
      && r.Keys == base.Keys + {"path", "noRouterUpdate"}
      && r["path"] == Get(action, "path")
      && r["noRouterUpdate"] == Get(action, "noRouterUpdate")
      && forall k :: k in base && k != "path" && k != "noRouterUpdate" ==> r[k] == base[k]
  {
  }

  /** Any other action leaves the slice as it is; an absent slice is `{}`. */
  lemma UpdateIgnoresOtherActions(state: Option<Record>, action: Record)
    requires !IsUpdatePath(action)
    ensures Update(state, action) == if state.Some? then state.value else map[]
  {
  }

  /** The builder and the reducer fit: the dispatched path and flag are what the slice holds. */
  lemma UpdatePathRoundTrip(state: Option<Record>, path: Value, noRouterUpdate: Value)
    ensures Get(Update(state, UpdatePath(path, noRouterUpdate)), "path") == path
    ensures Get(Update(state, UpdatePath(path, noRouterUpdate)), "noRouterUpdate") == noRouterUpdate
  {
  }

  /** The parts of a history location that make up its path. */
  datatype PathLocation = PathLocation(pathname: string, search: string, hash: string)

  /** `locationToString`: pathname + search + hash, concatenated as they are. */
  function LocationToString(location: PathLocation): (s: string)
    ensures |s| == |location.pathname| + |location.search| + |location.hash|
    ensures s[..|location.pathname|] == location.pathname
    ensures s[|location.pathname|..|location.pathname| + |location.search|] == location.search
    ensures s[|location.pathname| + |location.search|..] == location.hash
  {
    location.pathname + location.search + location.hash
  }

  /** Position of the first `c` in `s`, or -1. */
  function IndexOf(s: string, c: char): (i: int)
    ensures -1 <= i < |s|
    ensures i >= 0 ==> s[i] == c
    ensures forall j :: 0 <= j < |s| && (i < 0 || j < i) ==> s[j] != c
    decreases |s|
  {
    if |s| == 0 then -1
    else if s[0] == c then 0
    else
      var rest := IndexOf(s[1..], c);
      if rest < 0 then -1 else rest + 1
  }

  /**
   * How the mock history turns a path string into a location: the hash
   * starts at the first '#', the search at the first '?' before it.
   */
  function ParsePath(path: string): PathLocation {
    var h := IndexOf(path, '#');
    var beforeHash := if h >= 0 then path[..h] else path;
    var q := IndexOf(beforeHash, '?');
    PathLocation(
      if q >= 0 then beforeHash[..q] else beforeHash,
      if q >= 0 then beforeHash[q..] else "",
      if h >= 0 then path[h..] else "")
  }

  /** A location whose parts are shaped as a parsed path's are. */
  predicate WellFormed(location: PathLocation) {
    && (forall i :: 0 <= i < |location.pathname| ==> location.pathname[i] != '?' && location.pathname[i] != '#')
    && (forall i :: 0 <= i < |location.search| ==> location.search[i] != '#')
    && (location.search == "" || location.search[0] == '?')
    && (location.hash == "" || location.hash[0] == '#')
  }

  /** Printing a parsed path gives the path back, and the parse is well formed. */
  lemma ParsePathRoundTrip(path: string)
    ensures LocationToString(ParsePath(path)) == path
    ensures WellFormed(ParsePath(path))
  {
    var h := IndexOf(path, '#');
    var beforeHash := if h >= 0 then path[..h] else path;
    SplitAtIndex(path, '#');
    SplitAtIndex(beforeHash, '?');
    assert forall i :: 0 <= i < |beforeHash| ==> beforeHash[i] != '#' by {
      if h >= 0 {
        assert forall i :: 0 <= i < |beforeHash| ==> beforeHash[i] == path[i];
      }
    }
  }

  /**
   * Cutting `s` at the first `c`: the two pieces make `s` again, the part
   * before holds no `c`, and the part from it on starts with `c`.
   */
  lemma SplitAtIndex(s: string, c: char)
    ensures var k := IndexOf(s, c);
      var before := if k >= 0 then s[..k] else s;
      var from := if k >= 0 then s[k..] else "";
      && before + from == s
      && (forall i :: 0 <= i < |before| ==> before[i] != c)
      && (from == "" || from[0] == c)
  {
    var k := IndexOf(s, c);
    if k >= 0 {
      assert s[..k] + s[k..] == s;
    }
  }

  /** Parsing a well-formed location's path gives the location back. */
  lemma {:induction false} LocationRoundTrip(location: PathLocation)
    requires WellFormed(location)
    ensures ParsePath(LocationToString(location)) == location
  {
    var s := LocationToString(location);
    var p, q, hsh := location.pathname, location.search, location.hash;
    var beforeHash := p + q;
    assert s == beforeHash + hsh;
    if hsh == "" {
      assert s == beforeHash;
      IndexOfAbsent(s, '#');
    } else {
      IndexOfAt(s, '#', |beforeHash|);
      assert s[..|beforeHash|] == beforeHash;
      assert s[|beforeHash|..] == hsh;
    }
    if q == "" {
      assert beforeHash == p;
      IndexOfAbsent(beforeHash, '?');
    } else {
      IndexOfAt(beforeHash, '?', |p|);
      assert beforeHash[..|p|] == p;
      assert beforeHash[|p|..] == q;
    }
  }

  lemma IndexOfAbsent(s: string, c: char)
    requires forall j :: 0 <= j < |s| ==> s[j] != c
    ensures IndexOf(s, c) == -1
  {
  }

  lemma IndexOfAt(s: string, c: char, i: nat)
    requires i < |s| && s[i] == c
    requires forall j :: 0 <= j < i ==> s[j] != c
    ensures IndexOf(s, c) == i
  {
  }
}
