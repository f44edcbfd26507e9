/**
 * Actions and the chain-of-responsibility dispatcher (src/core/action.rs).
 *
 * A handler is modelled as a function from the action and the store's
 * contents to its verdict and the store's new contents. Handlers that keep
 * state of their own, and the empty `Services` argument, are not modelled.
 */
module Actions {
  import opened Prims
  import opened StoreCore

  /** A named trigger for application logic with an optional payload. */
  datatype Action = Action(name: string, payload: map<string, Value>) {

    /** `with`: `key` now maps to `value` in the payload; the name and every other key are unchanged. */
    function With(key: string, value: Value): (r: Action)
      ensures r.name == name
      ensures key in r.payload && r.payload[key] == value
      ensures forall k :: k != key ==> (k in r.payload <==> k in payload)
      ensures forall k :: k != key && k in payload ==> r.payload[k] == payload[k]
    {
      Action(name, payload[key := value])
    }

    /** `get`: the payload value under `key`, if any. */
    function Get(key: string): (r: Option<Value>)
      ensures r.Some? <==> key in payload
      ensures r.Some? ==> r.value == payload[key]
    {
      if key in payload then Some(payload[key]) else None
    }

    /** `get_str`: the text under `key`; nothing for a missing key or another variant. */
    function GetStr(key: string): (r: Option<string>)
      ensures r.Some? <==> key in payload && payload[key].String?
      ensures r.Some? ==> r.value == payload[key].s
    {
      match Get(key)
      case Some(v) => v.AsStr()
      case None => None
    }

    /** `get_number`: the number under `key`; nothing for a missing key or another variant (no parsing). */
    function GetNumber(key: string): (r: Option<real>)
      ensures r.Some? <==> key in payload && payload[key].Number?
      ensures r.Some? ==> r.value == payload[key].n
    {
      match Get(key)
      case Some(v) => v.AsNumber()
      case None => None
    }
  }

  /** `Action::new`: a name and an empty payload. */
  function NewAction(name: string): (r: Action)
    ensures r.name == name && r.payload == map[]
    ensures forall k :: r.Get(k) == None
  {
    Action(name, map[])
  }

  /** `Action::with_payload`. */
  function WithPayload(name: string, payload: map<string, Value>): (r: Action)
    ensures r.name == name && r.payload == payload
  {
    Action(name, payload)
  }

  datatype ActionError = NotHandled(name: string) | Failed(msg: string) {

    /** The `Display` text. */
    function Message(): (r: string)
      ensures NotHandled? ==> r == "Action not handled: " + name
      ensures Failed? ==> r == "Action failed: " + msg
    {
      match this
      case NotHandled(n) => "Action not handled: " + n
      case Failed(m) => "Action failed: " + m
    }
  }

  type Verdict = Result<bool, ActionError>

  /**
   * One handler: given the action and the store's contents it reports
   * `Ok(true)` (handled), `Ok(false)` (not handled) or an error, together
   * with the store's contents after it ran.
   */
  type Handler = (Action, map<string, Value>) -> (Verdict, map<string, Value>)

  /** A verdict ends the run when its handler handles the action or fails. */
  predicate Stops(v: Verdict) {
    v.Err? || v.value
  }

  /**
   * What running the chain `hs` does: handlers run in order on the store as
   * the previous one left it; the first `Ok(true)` or error ends the run and
   * is the verdict; when every handler declines, the verdict is `Ok(false)`.
   */
  function Chain(hs: seq<Handler>, action: Action, data: map<string, Value>): (r: (Verdict, map<string, Value>))
    ensures hs == [] ==> r == (Ok(false), data)
    decreases |hs|
  {
    if hs == [] then
      (Ok(false), data)
    else
      var (v, after) := hs[0](action, data);
      if Stops(v) then (v, after) else Chain(hs[1..], action, after)
  }

  /**
   * A chain that ends in `Ok(true)` or an error gives the same verdict and
   * the same store whatever handlers follow it: no later handler runs.
   */
  lemma {:induction false} ChainStopsEarly(hs: seq<Handler>, rest: seq<Handler>, action: Action, data: map<string, Value>)
    requires Stops(Chain(hs, action, data).0)
    ensures Chain(hs + rest, action, data) == Chain(hs, action, data)
    decreases |hs|
  {
    if hs != [] {
      var (v, after) := hs[0](action, data);
      assert (hs + rest)[0] == hs[0];
      assert (hs + rest)[1..] == hs[1..] + rest;
      if !Stops(v) {
        ChainStopsEarly(hs[1..], rest, action, after);
      }
    }
  }

  /**
   * A chain whose handlers all decline passes on to the next handlers the
   * store exactly as it left it: their updates persist.
   */
  lemma {:induction false} ChainContinues(hs: seq<Handler>, rest: seq<Handler>, action: Action, data: map<string, Value>)
    requires Chain(hs, action, data).0 == Ok(false)
    ensures Chain(hs + rest, action, data) == Chain(rest, action, Chain(hs, action, data).1)
    decreases |hs|
  {
    if hs == [] {
      assert hs + rest == rest;
    } else {
      var (v, after) := hs[0](action, data);
      assert (hs + rest)[0] == hs[0];
      assert (hs + rest)[1..] == hs[1..] + rest;
      ChainContinues(hs[1..], rest, action, after);
    }
  }

  /** The verdict is `Ok(false)` only if no handler stopped the run. */
  lemma {:induction false} ChainFalseMeansAllDeclined(hs: seq<Handler>, action: Action, data: map<string, Value>, i: nat)
    requires i < |hs| && Chain(hs, action, data).0 == Ok(false)
    ensures Chain(hs[..i], action, data).0 == Ok(false)
    ensures !Stops(hs[i](action, Chain(hs[..i], action, data).1).0)
    decreases i
  {
    var (v, after) := hs[0](action, data);
    if i == 0 {
      assert hs[..0] == [];
    } else {
      assert hs[1..][..i - 1] == hs[..i][1..];
      assert hs[1..][i - 1] == hs[i];
      ChainFalseMeansAllDeclined(hs[1..], action, after, i - 1);
    }
  }

  /** A chain with one handler gives that handler's verdict and store. */
  lemma {:induction false} ChainSingle(h: Handler, action: Action, data: map<string, Value>)
    ensures Chain([h], action, data) == h(action, data)
  {
    var (v, after) := h(action, data);
    assert [h][1..] == [];
  }

  /** A composite handler that runs its handlers in registration order. */
  class ActionDispatcher {
    var handlers: seq<Handler>

    /** `ActionDispatcher::new`: an empty chain. */
    constructor ()
      ensures handlers == []
    {
      handlers := [];
    }

    /** `add_handler`: the handler joins the end of the chain. */
    method AddHandler(handler: Handler)
      modifies this
      ensures handlers == old(handlers) + [handler]
    {
      handlers := handlers + [handler];
    }

    /**
     * `dispatch`: the handlers run in order until one handles the action or
     * fails; the verdict and the store's new contents are those of `Chain`.
     */
    method Dispatch(action: Action, store: Store) returns (r: Verdict)
      modifies store
      ensures (r, store.data) == Chain(handlers, action, old(store.data))
    {
      var i := 0;
      while i < |handlers|
        invariant 0 <= i <= |handlers|
        invariant Chain(handlers, action, old(store.data)) == Chain(handlers[i..], action, store.data)
      {
        var (v, after) := handlers[i](action, store.data);
        assert handlers[i..][0] == handlers[i];
        assert handlers[i..][1..] == handlers[i + 1..];
        store.data := after;
        if v.Err? {
          return Err(v.error);
        }
        if v.value {
          return Ok(true);
        }
        i := i + 1;
      }
      return Ok(false);
    }
  }
}
