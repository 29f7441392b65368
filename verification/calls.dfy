/** Argument handling shared by the adapter methods: the trailing callback,
    the state payload rule and the reason attached by `terminate`. */
module Calls {
  import opened Values
  import opened Store

  /** `getCallback(...args)`: the last argument when it is a function. */
  function GetCallback(args: seq<Value>): (cb: Option<Value>)
    ensures cb.Some? ==> |args| > 0 && cb.value == args[|args| - 1] && cb.value.Func?
    ensures cb.None? ==> args == [] || !args[|args| - 1].Func?
  {
    if |args| > 0 && args[|args| - 1].Func? then Some(args[|args| - 1]) else None
  }

  /** A function passed last is the callback, whatever comes before it; any
      other value passed last hides an earlier function. */
  lemma CallbackIsLastArgument(before: seq<Value>, last: Value)
    ensures last.Func? ==> GetCallback(before + [last]) == Some(last)
    ensures !last.Func? ==> GetCallback(before + [last]) == None
  {
    assert (before + [last])[|before + [last]| - 1] == last;
  }

  /** What the callback receives: `Some(cbArgs)` when `args` ends in a
      callback, `None` when no callback is invoked. */
  function Deliver(args: seq<Value>, cbArgs: seq<Value>): (r: Option<seq<Value>>)
    ensures r.Some? <==> GetCallback(args).Some?
    ensures r.Some? ==> r.value == cbArgs
  {
    if GetCallback(args).Some? then Some(cbArgs) else None
  }

  /** The value `setObjectNotExists` hands on as the single trailing argument
      of `setObject`: the callback, or `undefined`. */
  function CallbackArgument(cb: Option<Value>): Value {
    match cb
    case Some(f) => f
    case None => Undefined
  }

  /** Handing the callback on as a single argument keeps it the callback. */
  lemma CallbackArgumentForwards(args: seq<Value>)
    ensures GetCallback([CallbackArgument(GetCallback(args))]) == GetCallback(args)
  {
  }

  /** The state stored for a payload and an `ack` argument: a non-null object
      payload supplies its own `val` and the truthiness of its `ack`; any other
      payload is the value itself, acknowledged only by a boolean `true`. */
  function ResolveState(state: Value, ack: Value): (r: StateRec)
    ensures IsObject(state) ==> r.val == Field(state.fields, "val") && r.ack == Truthy(Field(state.fields, "ack"))
    ensures !IsObject(state) ==> r.val == state && (r.ack <==> ack == Bool(true))
  {
    var ack := if ack.Bool? then ack.b else false;
    if IsObject(state) then
      StateRec(Field(state.fields, "val"), Truthy(Field(state.fields, "ack")))
    else
      StateRec(state, ack)
  }

  /** A structured payload ignores the separate `ack` argument. */
  lemma ResolveStateIgnoresAckForObjects(state: Value, ack1: Value, ack2: Value)
    requires IsObject(state)
    ensures ResolveState(state, ack1) == ResolveState(state, ack2)
  {
  }

  /** A state read back with `getState` and passed to `setState` again is
      stored unchanged, whatever `ack` argument accompanies it. */
  lemma ResolveStateRoundTrip(st: StateRec, ack: Value)
    ensures ResolveState(StateValue(st), ack) == st
  {
    var fields := StateValue(st).fields;
    assert Field(fields, "val") == st.val;
    assert Field(fields, "ack") == Bool(st.ack);
  }

  /** `reason || "no reason given!"`. */
  function TerminateReason(reason: Value): (r: Value)
    ensures Truthy(r)
    ensures Truthy(reason) ==> r == reason
    ensures !Truthy(reason) ==> r == Str("no reason given!")
  {
    if Truthy(reason) then reason else Str("no reason given!")
  }
}
