/** Metadata trees as HyperSpy hands them to the backend (`original_metadata`
    as a dictionary) and as the backend hands them to the JSON encoder. */
module Metadata {
  import opened PyText
  import opened PyList

  /** One metadata value. A dictionary keeps its entries in insertion
      order. */
  datatype Value =
    | Str(s: string)
    | Int(i: int)
    | Float(r: real)
    | Bool(b: bool)
    | List(items: seq<Value>)
      /** A numpy array or scalar, with what its `tolist()` returns. */
    | Numpy(tolist: Value)
      /** A `dict` or a HyperSpy DictionaryBrowser (`as_dictionary()`). */
    | Dict(entries: seq<(string, Value)>)
      /** Any other object; `tag` identifies it. */
    | Opaque(tag: string)
      /** The string `str(of)`; its text is not modelled. */
    | Repr(of: Value)

  /** A key the converters skip. */
  predicate Private(key: string) {
    StartsWith(key, "_")
  }

  predicate NotPrivate(key: string) {
    !Private(key)
  }

  function Keys(entries: seq<(string, Value)>): (ks: seq<string>)
    ensures |ks| == |entries|
    ensures forall i :: 0 <= i < |entries| ==> ks[i] == entries[i].0
  {
    seq(|entries|, i requires 0 <= i < |entries| => entries[i].0)
  }

  /** `_convert_metadata_to_serializable` of backend/service_handlers/
      signal_service.py, applied to the first `n` entries of dictionary `d`:
      the non-private entries in order, each value converted. */
  function SerializablePrefix(d: Value, n: nat): (r: seq<(string, Value)>)
    requires d.Dict? && n <= |d.entries|
    decreases d, 0, n
  {
    if n == 0 then []
    else
      var last := d.entries[n - 1];
      SerializablePrefix(d, n - 1)
      + (if Private(last.0) then [] else [(last.0, ConvertValue(last.1))])
  }

  /** The conversion of a whole dictionary. */
  function Serializable(d: Value): seq<(string, Value)>
    requires d.Dict?
    decreases d, 0, |d.entries| + 1
  {
    SerializablePrefix(d, |d.entries|)
  }

  /** The conversion of one value: dictionaries recursively, numpy values by
      `tolist()`, basic values unchanged, anything else by `str()`. */
  function ConvertValue(v: Value): Value
    decreases v, 1
  {
    match v
    case Dict(_) => Dict(Serializable(v))
    case Numpy(t) => t
    case Str(_) => v
    case Int(_) => v
    case Float(_) => v
    case Bool(_) => v
    case List(_) => v
    case Repr(_) => v
    case Opaque(_) => Repr(v)
  }

  /** No private key anywhere along a chain of nested dictionaries (lists are
      copied as they are, so what they hold is not inspected). */
  ghost predicate DictKeysClean(v: Value) {
    v.Dict? ==> forall i :: 0 <= i < |v.entries| ==>
      !Private(v.entries[i].0) && DictKeysClean(v.entries[i].1)
  }

  /** `tolist()` returns lists and scalars, never a dictionary. */
  ghost predicate NumpyHoldsNoDict(v: Value) {
    match v
    case Numpy(t) => !t.Dict?
    case Dict(es) => forall i :: 0 <= i < |es| ==> NumpyHoldsNoDict(es[i].1)
    case _ => true
  }

  /** Exactly the non-private keys survive, in their original order. */
  lemma {:induction false} SerializablePrefixKeys(d: Value, n: nat)
    requires d.Dict? && n <= |d.entries|
    ensures Keys(SerializablePrefix(d, n)) == Filter(Keys(d.entries[..n]), NotPrivate)
  {
    if n > 0 {
      SerializablePrefixKeys(d, n - 1);
      var last := d.entries[n - 1];
      var tail := if Private(last.0) then [] else [(last.0, ConvertValue(last.1))];
      assert Keys(SerializablePrefix(d, n)) == Keys(SerializablePrefix(d, n - 1)) + Keys(tail);
      assert Keys(d.entries[..n]) == Keys(d.entries[..n - 1]) + [last.0];
      FilterAppend(Keys(d.entries[..n - 1]), [last.0], NotPrivate);
    }
  }

  /** Private keys are dropped at every level of nesting. */
  lemma {:induction false} SerializablePrefixClean(d: Value, n: nat)
    requires d.Dict? && n <= |d.entries|
    requires NumpyHoldsNoDict(d)
    ensures DictKeysClean(Dict(SerializablePrefix(d, n)))
    decreases d, 0, n
  {
    if n > 0 {
      SerializablePrefixClean(d, n - 1);
      var last := d.entries[n - 1];
      if !Private(last.0) {
        ConvertValueClean(last.1);
      }
    }
  }

  lemma {:induction false} ConvertValueClean(v: Value)
    requires NumpyHoldsNoDict(v)
    ensures DictKeysClean(ConvertValue(v))
    decreases v, 1
  {
    if v.Dict? {
      SerializablePrefixClean(v, |v.entries|);
      assert ConvertValue(v) == Dict(SerializablePrefix(v, |v.entries|));
    }
  }
}
