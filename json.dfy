/**
 * The JSON-like values the pipeline passes around: parsed LLM replies,
 * stored metadata, tool-event payloads and stream events.  A Python dict
 * keeps its insertion order, so an object is a sequence of entries.
 */
module JsonValue {
  import opened Common

  datatype Value =
    | Null
    | Bool(b: bool)
    | Int(i: int)
    | Float(r: real)
    | Str(s: string)
    | List(items: seq<Value>)
    | Dict(entries: seq<(string, Value)>)
      /** Any other Python object, with what `str()` gives for it (`None` when `str()` raises). */
    | Other(text: Option<string>)

  /** `d.get(key)`: the value stored under `key`, if any. */
  function Lookup(entries: seq<(string, Value)>, key: string): (r: Option<Value>)
    ensures r.Some? <==> exists i :: 0 <= i < |entries| && entries[i].0 == key
    ensures r.Some? ==> (key, r.value) in entries
  {
    if entries == [] then None
    else if entries[0].0 == key then Some(entries[0].1)
    else Lookup(entries[1..], key)
  }

  /** `d.get(key, default)`. */
  function GetOr(entries: seq<(string, Value)>, key: string, default: Value): (r: Value)
    ensures Lookup(entries, key).Some? ==> r == Lookup(entries, key).value
    ensures Lookup(entries, key).None? ==> r == default
  {
    UnwrapOr(Lookup(entries, key), default)
  }

  /**
   * `{**d, **more}` (and `d.update(more)`): a key already present keeps its
   * position and takes the new value; a new key is appended.
   */
  function Update(entries: seq<(string, Value)>, more: seq<(string, Value)>): (r: seq<(string, Value)>)
    decreases |more|
  {
    if more == [] then entries
    else Update(Put(entries, more[0].0, more[0].1), more[1..])
  }

  /** `d[key] = v`. */
  function Put(entries: seq<(string, Value)>, key: string, v: Value): (r: seq<(string, Value)>)
    ensures Lookup(r, key) == Some(v)
    ensures forall k :: k != key ==> Lookup(r, k) == Lookup(entries, k)
  {
    if entries == [] then [(key, v)]
    else if entries[0].0 == key then [(key, v)] + entries[1..]
    else [entries[0]] + Put(entries[1..], key, v)
  }

  /** After an update a key has the value of its last occurrence in `more`, else its old value. */
  lemma {:induction false} UpdateLookup(entries: seq<(string, Value)>, more: seq<(string, Value)>, key: string)
    ensures Lookup(Update(entries, more), key) ==
            (if Lookup(Reversed(more), key).Some? then Lookup(Reversed(more), key) else Lookup(entries, key))
    decreases |more|
  {
    if more != [] {
      var e := Put(entries, more[0].0, more[0].1);
      UpdateLookup(e, more[1..], key);
      ReversedCons(more);
      LookupAppend(Reversed(more[1..]), [more[0]], key);
    }
  }

  function Reversed<T>(s: seq<T>): (r: seq<T>)
    ensures |r| == |s|
  {
    seq(|s|, i requires 0 <= i < |s| => s[|s| - 1 - i])
  }

  /** The `i`-th element of the reversal is the `i`-th from the end. */
  lemma ReversedIndex<T>(s: seq<T>, i: nat)
    requires i < |s|
    ensures Reversed(s)[i] == s[|s| - 1 - i]
  {
  }

  lemma ReversedCons<T>(s: seq<T>)
    requires s != []
    ensures Reversed(s) == Reversed(s[1..]) + [s[0]]
  {
  }

  lemma {:induction false} LookupAppend(a: seq<(string, Value)>, b: seq<(string, Value)>, key: string)
    ensures Lookup(a + b, key) == (if Lookup(a, key).Some? then Lookup(a, key) else Lookup(b, key))
    decreases |a|
  {
    if a == [] {
      assert a + b == b;
    } else {
      assert (a + b)[0] == a[0] && (a + b)[1..] == a[1..] + b;
      LookupAppend(a[1..], b, key);
    }
  }

  /**
   * The JSON text codec (`json.dumps` / `json.loads`), a parameter of the
   * model.  What the pipeline relies on is that the objects it encodes itself
   * decode back to themselves; `RoundTripsOn` states that for one value.
   */
  datatype Codec = Codec(encode: Value -> string, decode: string -> Option<Value>)

  predicate RoundTripsOn(codec: Codec, v: Value)
  {
    codec.decode(codec.encode(v)) == Some(v)
  }
}
