/**
 * Tool-call observability (tools/observability.py): bounding of logged
 * values, the registry of event callbacks, and the wrapper that records one
 * event per tool call.
 *
 * The registered callbacks are Python functions compared by identity; here
 * a callback is a number standing for that identity, and whether a callback
 * raises on a payload is a parameter.  Timestamps and durations are left
 * out of the event.
 */
module Observability {
  import opened Common
  import opened JsonValue

  const MaxStr: nat := 2000
  const MaxList: nat := 50
  /** Dicts keep this many entries, whatever the list bound. */
  const MaxEntries: nat := 50
  /** Objects of any other type are logged as `str(x)[:500]`. */
  const MaxOther: nat := 500
  const Unserializable: string := "<unserializable>"

  /** `f"... {n} more"`, the marker standing for the dropped items of a long list. */
  function Marker(n: nat): Value
  {
    Str("... " + NatToString(n) + " more")
  }

  function Min(a: nat, b: nat): nat
  {
    if a < b then a else b
  }

  /** `_safe_value`: a JSON-serialisable, bounded copy of a logged value. */
  function SafeValue(v: Value): (r: Value)
    ensures v.Null? || v.Bool? || v.Int? || v.Float? ==> r == v
    ensures v.Str? ==> r.Str? && (|v.s| <= MaxStr ==> r == v)
    ensures v.Str? && |v.s| > MaxStr ==> |r.s| == MaxStr + 3 && r.s[..MaxStr] == v.s[..MaxStr]
    ensures v.List? ==> r.List? && |r.items| == (if |v.items| > MaxList then MaxList + 1 else |v.items|)
    ensures v.Dict? ==> r.Dict? && |r.entries| == Min(|v.entries|, MaxEntries)
    ensures v.Other? ==> r.Str? && |r.s| <= MaxOther
    decreases v
  {
    match v
    case Null => Null
    case Bool(_) => v
    case Int(_) => v
    case Float(_) => v
    case Str(s) => if |s| > MaxStr then Str(s[..MaxStr] + "...") else v
    case List(items) =>
      var n := Min(|items|, MaxList);
      var head := seq(n, i requires 0 <= i < n => SafeValue(items[i]));
      List(if |items| > MaxList then head + [Marker(|items| - MaxList)] else head)
    case Dict(entries) =>
      var n := Min(|entries|, MaxEntries);
      Dict(seq(n, i requires 0 <= i < n => (entries[i].0, SafeValue(entries[i].1))))
    case Other(text) => Str(if text.Some? then Take(text.value, MaxOther) else Unserializable)
  }

  /** A long list keeps its first 50 items, each bounded, followed by the count of the rest. */
  lemma {:induction false} SafeValueItems(v: Value)
    requires v.List?
    ensures forall i :: 0 <= i < Min(|v.items|, MaxList) ==> SafeValue(v).items[i] == SafeValue(v.items[i])
    ensures |v.items| > MaxList ==> SafeValue(v).items[MaxList] == Marker(|v.items| - MaxList)
  {
  }

  /** A dict keeps its first 50 keys, in order, each with its value bounded. */
  lemma {:induction false} SafeValueEntries(v: Value)
    requires v.Dict?
    ensures forall i :: 0 <= i < Min(|v.entries|, MaxEntries) ==>
              SafeValue(v).entries[i] == (v.entries[i].0, SafeValue(v.entries[i].1))
  {
  }

  /** Values within every bound: no foreign objects, short strings, short lists and dicts. */
  predicate Small(v: Value)
    decreases v
  {
    match v
    case Str(s) => |s| <= MaxStr
    case List(items) => |items| <= MaxList && forall i :: 0 <= i < |items| ==> Small(items[i])
    case Dict(entries) => |entries| <= MaxEntries && forall i :: 0 <= i < |entries| ==> Small(entries[i].1)
    case Other(_) => false
    case _ => true
  }

  /** What `_safe_value` guarantees of its result: no foreign objects, lists of at most 51 items, dicts of at most 50 entries. */
  predicate Fits(v: Value)
    decreases v
  {
    match v
    case List(items) => |items| <= MaxList + 1 && forall i :: 0 <= i < |items| ==> Fits(items[i])
    case Dict(entries) => |entries| <= MaxEntries && forall i :: 0 <= i < |entries| ==> Fits(entries[i].1)
    case Other(_) => false
    case _ => true
  }

  /** Values already within the bounds are logged as they are. */
  lemma {:induction false} SafeValueKeepsSmall(v: Value)
    requires Small(v)
    ensures SafeValue(v) == v
    decreases v
  {
    match v
    case List(items) =>
      forall i | 0 <= i < |items|
        ensures SafeValue(items[i]) == items[i]
      {
        SafeValueKeepsSmall(items[i]);
      }
      assert SafeValue(v).items == items;
    case Dict(entries) =>
      forall i | 0 <= i < |entries|
        ensures SafeValue(entries[i].1) == entries[i].1
      {
        SafeValueKeepsSmall(entries[i].1);
      }
      assert SafeValue(v).entries == entries;
    case _ =>
  }

  /** Every logged value fits the bounds. */
  lemma {:induction false} SafeValueFits(v: Value)
    ensures Fits(SafeValue(v))
    decreases v
  {
    match v
    case List(items) =>
      var r := SafeValue(v);
      forall i | 0 <= i < |r.items|
        ensures Fits(r.items[i])
      {
        if i < Min(|items|, MaxList) {
          SafeValueFits(items[i]);
        }
      }
    case Dict(entries) =>
      var r := SafeValue(v);
      forall i | 0 <= i < |r.entries|
        ensures Fits(r.entries[i].1)
      {
        SafeValueFits(entries[i].1);
      }
    case _ =>
  }

  // ---------------------------------------------------------------------------
  // The callback registry

  /** A registered callback, by identity. */
  type Callback = nat

  /** One call of a callback during an emit: what it was given and whether it raised. */
  datatype Delivery = Delivery(callback: Callback, payload: Value, raised: bool)

  /** `list.remove(x)`: drops the first occurrence of `x`. */
  function RemoveFirst(s: seq<Callback>, x: Callback): (r: seq<Callback>)
    ensures x !in s ==> r == s
  {
    if s == [] then []
    else if s[0] == x then s[1..]
    else [s[0]] + RemoveFirst(s[1..], x)
  }

  /** Removing the first occurrence keeps every other callback, in order. */
  lemma {:induction false} RemoveFirstSpec(s: seq<Callback>, x: Callback) returns (i: nat)
    requires x in s
    ensures i < |s| && s[i] == x && x !in s[..i]
    ensures RemoveFirst(s, x) == s[..i] + s[i + 1..]
  {
    if s[0] == x {
      i := 0;
    } else {
      var j := RemoveFirstSpec(s[1..], x);
      i := j + 1;
      assert s[..i] == [s[0]] + s[1..][..j];
      assert s[i + 1..] == s[1..][j + 1..];
    }
  }

  /** Unregistering removes one registration of the callback and no other. */
  lemma {:induction false} RemoveFirstCount(s: seq<Callback>, x: Callback)
    ensures multiset(RemoveFirst(s, x)) == multiset(s) - multiset{x}
  {
    if x in s {
      var i := RemoveFirstSpec(s, x);
      assert s == s[..i] + [x] + s[i + 1..];
    }
  }

  /** Unregistering a callback just registered, and not registered before, restores the list. */
  lemma {:induction false} UnregisterUndoesRegister(s: seq<Callback>, x: Callback)
    requires x !in s
    ensures RemoveFirst(s + [x], x) == s
  {
    if s != [] {
      assert (s + [x])[1..] == s[1..] + [x];
      UnregisterUndoesRegister(s[1..], x);
    }
  }

  /** What one tool call records; the timestamps and duration are left out. */
  datatype ToolCallEvent = ToolCallEvent(toolName: string, input: seq<(string, Value)>, result: Value, error: Option<string>)

  /** `ToolCallEvent.to_dict`: the event as a dict, with its result bounded. */
  function EventPayload(e: ToolCallEvent): Value
  {
    Dict([("tool_name", Str(e.toolName)), ("input", Dict(e.input)), ("result", SafeValue(e.result)),
          ("error", if e.error.Some? then Str(e.error.value) else Null)])
  }

  /** The payload carries the bounded result and the error text, or null when the tool returned. */
  lemma {:induction false} EventPayloadFields(e: ToolCallEvent)
    ensures EventPayload(e).Dict?
    ensures Lookup(EventPayload(e).entries, "tool_name") == Some(Str(e.toolName))
    ensures Lookup(EventPayload(e).entries, "result") == Some(SafeValue(e.result))
    ensures Lookup(EventPayload(e).entries, "error") == Some(if e.error.Some? then Str(e.error.value) else Null)
  {
    var es := EventPayload(e).entries;
    assert Lookup(es[3..], "error") == Some(es[3].1);
    assert Lookup(es[2..], "result") == Some(es[2].1);
    assert Lookup(es[2..], "error") == Lookup(es[3..], "error");
    assert Lookup(es[1..], "error") == Lookup(es[2..], "error");
    assert Lookup(es[1..], "result") == Lookup(es[2..], "result");
  }

  /** The module-level list of callbacks. */
  class ToolEventBus {
    var callbacks: seq<Callback>

    constructor()
      ensures callbacks == []
    {
      callbacks := [];
    }

    /** `register_tool_event_callback`. */
    method Register(cb: Callback)
      modifies this
      ensures callbacks == old(callbacks) + [cb]
    {
      callbacks := callbacks + [cb];
    }

    /** `unregister_tool_event_callback`: removes one occurrence if there is one. */
    method Unregister(cb: Callback)
      modifies this
      ensures callbacks == RemoveFirst(old(callbacks), cb)
    {
      if cb in callbacks {
        callbacks := RemoveFirst(callbacks, cb);
      }
    }

    /**
     * `emit_tool_event`: every registered callback, in order, is called with
     * the same payload; a callback that raises is logged and the loop goes on.
     */
    method Emit(e: ToolCallEvent, raises: (Callback, Value) -> bool) returns (payload: Value, log: seq<Delivery>)
      ensures payload == EventPayload(e)
      ensures |log| == |callbacks|
      ensures forall i :: 0 <= i < |log| ==>
                log[i] == Delivery(callbacks[i], payload, raises(callbacks[i], payload))
    {
      payload := EventPayload(e);
      log := [];
      for i := 0 to |callbacks|
        invariant |log| == i
        invariant forall j :: 0 <= j < i ==> log[j] == Delivery(callbacks[j], payload, raises(callbacks[j], payload))
      {
        var cb := callbacks[i];
        log := log + [Delivery(cb, payload, raises(cb, payload))];
      }
    }
  }

  // ---------------------------------------------------------------------------
  // wrap_tool

  /** The input key of the `i`-th positional argument. */
  function ArgKey(i: nat): string
  {
    "arg_" + NatToString(i)
  }

  /** The input dict: the keyword arguments, then each positional argument, bounded, under `arg_i`. */
  function InputOf(kwargs: seq<(string, Value)>, args: seq<Value>): seq<(string, Value)>
    decreases |args|
  {
    if args == [] then kwargs
    else Put(InputOf(kwargs, args[..|args| - 1]), ArgKey(|args| - 1), SafeValue(args[|args| - 1]))
  }

  /** Each positional argument appears, bounded, under its own key. */
  lemma {:induction false} InputHoldsArg(kwargs: seq<(string, Value)>, args: seq<Value>, i: nat)
    requires i < |args|
    ensures Lookup(InputOf(kwargs, args), ArgKey(i)) == Some(SafeValue(args[i]))
    decreases |args|
  {
    var n := |args| - 1;
    var init := args[..n];
    var after := Put(InputOf(kwargs, init), ArgKey(n), SafeValue(args[n]));
    assert InputOf(kwargs, args) == after;
    if i < n {
      assert ArgKey(n) != ArgKey(i) by {
        if ArgKey(n) == ArgKey(i) {
          assert NatToString(n) == ArgKey(n)[4..] == ArgKey(i)[4..] == NatToString(i);
          NatToStringInjective(n, i);
        }
      }
      assert Lookup(after, ArgKey(i)) == Lookup(InputOf(kwargs, init), ArgKey(i));
      assert Lookup(InputOf(kwargs, init), ArgKey(i)) == Some(SafeValue(args[i])) by {
        InputHoldsArg(kwargs, init, i);
        assert init[i] == args[i];
      }
    }
  }

  /** A keyword argument whose name is not of the form `arg_i` keeps its value. */
  lemma {:induction false} InputKeepsKeyword(kwargs: seq<(string, Value)>, args: seq<Value>, key: string)
    requires forall i :: 0 <= i < |args| ==> key != ArgKey(i)
    ensures Lookup(InputOf(kwargs, args), key) == Lookup(kwargs, key)
    decreases |args|
  {
    if args != [] {
      InputKeepsKeyword(kwargs, args[..|args| - 1], key);
    }
  }

  /** The loop that builds the input dict. */
  method BuildInput(kwargs: seq<(string, Value)>, args: seq<Value>) returns (input: seq<(string, Value)>)
    ensures input == InputOf(kwargs, args)
  {
    input := kwargs;
    for i := 0 to |args|
      invariant input == InputOf(kwargs, args[..i])
    {
      assert args[..i + 1][..i] == args[..i];
      input := Put(input, ArgKey(i), SafeValue(args[i]));
    }
    assert args[..|args|] == args;
  }

  /** The wrapped function's outcome: a value, or the text of the exception it raised. */
  type Outcome = Result<Value, string>

  function ResultOf(outcome: Outcome): Value
  {
    if outcome.Ok? then outcome.value else Null
  }

  function ErrorOf(outcome: Outcome): Option<string>
  {
    if outcome.Err? then Some(outcome.error) else None
  }

  /**
   * The event `observed` builds as written: the result is bounded here and
   * bounded again by `to_dict`.
   */
  function WrappedEventAsWritten(toolName: string, kwargs: seq<(string, Value)>, args: seq<Value>,
                                 outcome: Outcome): (e: ToolCallEvent)
    ensures e.result == SafeValue(ResultOf(outcome))
    ensures e.error.Some? <==> outcome.Err?
  {
    ToolCallEvent(toolName, InputOf(kwargs, args), SafeValue(ResultOf(outcome)), ErrorOf(outcome))
  }

  /** The event with the raw result, bounded once when it becomes a payload. */
  function WrappedEvent(toolName: string, kwargs: seq<(string, Value)>, args: seq<Value>,
                        outcome: Outcome): (e: ToolCallEvent)
    ensures e.error.Some? <==> outcome.Err?
  {
    ToolCallEvent(toolName, InputOf(kwargs, args), ResultOf(outcome), ErrorOf(outcome))
  }

  /** Bounding twice miscounts: a 60-item result is reported as 50 items and "1 more" instead of "10 more". */
  lemma {:induction false} AsWrittenMiscountsDropped(toolName: string)
    ensures var raw := List(seq(60, _ => Null));
            var r := Lookup(EventPayload(WrappedEventAsWritten(toolName, [], [], Ok(raw))).entries, "result");
            && SafeValue(raw).items[MaxList] == Marker(10)
            && r.Some? && r.value.List? && |r.value.items| == MaxList + 1
            && r.value.items[MaxList] == Marker(1)
            && r != Some(SafeValue(raw))
  {
    var raw := List(seq(60, _ => Null));
    var once := SafeValue(raw);
    EventPayloadFields(WrappedEventAsWritten(toolName, [], [], Ok(raw)));
    SafeValueItems(raw);
    SafeValueItems(once);
    assert |NatToString(1)| == 1 && |NatToString(10)| == 2;
    assert Marker(1) != Marker(10) by {
      assert |Marker(1).s| != |Marker(10).s|;
    }
  }

  /** With the raw result in the event, the emitted result is bounded exactly once. */
  lemma {:induction false} EmittedResultBoundedOnce(toolName: string, kwargs: seq<(string, Value)>, args: seq<Value>,
                                                   outcome: Outcome)
    ensures Lookup(EventPayload(WrappedEvent(toolName, kwargs, args, outcome)).entries, "result") ==
            Some(SafeValue(ResultOf(outcome)))
    ensures outcome.Ok? ==> Fits(SafeValue(outcome.value))
  {
    EventPayloadFields(WrappedEvent(toolName, kwargs, args, outcome));
    SafeValueFits(ResultOf(outcome));
  }

  /**
   * `wrap_tool(...)(*args, **kwargs)`: runs the tool (its outcome is given),
   * returns its value or re-raises its exception, and emits exactly one
   * event, as written: the event holds the bounded result, its error is set
   * exactly when the tool raised, and every callback receives the payload
   * `to_dict` makes of it, whose result is bounded a second time.
   */
  method Observed(bus: ToolEventBus, toolName: string, kwargs: seq<(string, Value)>, args: seq<Value>,
                  outcome: Outcome, raises: (Callback, Value) -> bool)
    returns (ret: Outcome, event: ToolCallEvent, log: seq<Delivery>)
    ensures ret == outcome
    ensures event == WrappedEventAsWritten(toolName, kwargs, args, outcome)
    ensures event.result == SafeValue(ResultOf(outcome)) && (event.error.Some? <==> outcome.Err?)
    ensures Lookup(EventPayload(event).entries, "result") == Some(SafeValue(SafeValue(ResultOf(outcome))))
    ensures |log| == |bus.callbacks|
    ensures forall i :: 0 <= i < |log| ==> log[i].callback == bus.callbacks[i] && log[i].payload == EventPayload(event)
  {
    var input := BuildInput(kwargs, args);
    event := ToolCallEvent(toolName, input, SafeValue(ResultOf(outcome)), ErrorOf(outcome));
    EventPayloadFields(event);
    var _, deliveries := bus.Emit(event, raises);
    log := deliveries;
    ret := outcome;
  }
}
