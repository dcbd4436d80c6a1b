/**
 * The JSON-like values the handlers pass around (DynamoDB items, request
 * bodies, response dictionaries), and the two recursive number converters
 * of the feed handlers.  DynamoDB returns every number as a `Decimal`;
 * Python floats and Decimals are both modelled by their exact value as a
 * `real`, so the converters change the kind of a number leaf and not its
 * value (the rounding of `float(Decimal)` is not modelled).
 */
module Json {
  import opened Wrappers

  datatype Value =
    | Null
    | Bool(b: bool)
    | Int(i: int)
    | Float(f: real)
    | Decimal(d: real)
    | Str(s: string)
    | List(items: seq<Value>)
    | Object(fields: map<string, Value>)

  /** Python truthiness: `None`, `False`, zero, and empty strings, lists and dicts are false. */
  predicate Truthy(v: Value) {
    match v
    case Null => false
    case Bool(b) => b
    case Int(i) => i != 0
    case Float(f) => f != 0.0
    case Decimal(d) => d != 0.0
    case Str(s) => s != []
    case List(items) => items != []
    case Object(fields) => fields != map[]
  }

  /** `d.get(key)` on a dict: the value, or `None` when the key is absent. */
  function Get(fields: map<string, Value>, key: string): (r: Value)
    ensures key !in fields ==> r == Null
  {
    if key in fields then fields[key] else Null
  }

  /** `d.get(key, default)`. */
  function GetOr(fields: map<string, Value>, key: string, default: Value): (r: Value)
    ensures key in fields ==> r == fields[key]
    ensures key !in fields ==> r == default
  {
    if key in fields then fields[key] else default
  }

  /** `len(v)`, which raises for numbers, booleans and `None`. */
  function Len(v: Value): (r: Option<nat>)
    ensures r.Some? <==> v.Str? || v.List? || v.Object?
    ensures r.Some? ==> (r.value > 0 <==> Truthy(v))
  {
    match v
    case Str(s) => Some(|s|)
    case List(items) => Some(|items|)
    case Object(fields) => Some(|fields.Keys|)
    case _ => None
  }

  /** No `Decimal` anywhere inside `v`. */
  predicate NoDecimal(v: Value) {
    match v
    case Decimal(_) => false
    case List(items) => forall i :: 0 <= i < |items| ==> NoDecimal(items[i])
    case Object(fields) => forall k :: k in fields ==> NoDecimal(fields[k])
    case _ => true
  }

  /** No `float` anywhere inside `v`. */
  predicate NoFloat(v: Value) {
    match v
    case Float(_) => false
    case List(items) => forall i :: 0 <= i < |items| ==> NoFloat(items[i])
    case Object(fields) => forall k :: k in fields ==> NoFloat(fields[k])
    case _ => true
  }

  /**
   * `w` has the shape of `v`: the same dict keys and list lengths all the
   * way down, every `Decimal` leaf of `v` is a `float` of the same value in
   * `w`, and every other leaf is unchanged.
   */
  predicate DecimalsBecameFloats(v: Value, w: Value) {
    match v
    case Decimal(d) => w == Float(d)
    case List(items) =>
      w.List? && |w.items| == |items|
      && forall i :: 0 <= i < |items| ==> DecimalsBecameFloats(items[i], w.items[i])
    case Object(fields) =>
      w.Object? && w.fields.Keys == fields.Keys
      && forall k :: k in fields ==> DecimalsBecameFloats(fields[k], w.fields[k])
    case _ => w == v
  }

  /** `convert_decimals_to_float`. */
  function DecimalsToFloat(v: Value): (r: Value)
    ensures DecimalsBecameFloats(v, r)
    ensures NoDecimal(r)
  {
    match v
    case Decimal(d) => Float(d)
    case List(items) => List(seq(|items|, i requires 0 <= i < |items| => DecimalsToFloat(items[i])))
    case Object(fields) => Object(map k | k in fields :: DecimalsToFloat(fields[k]))
    case _ => v
  }

  /** `convert_floats_to_decimal`. */
  function FloatsToDecimal(v: Value): (r: Value)
    ensures NoFloat(r)
  {
    match v
    case Float(f) => Decimal(f)
    case List(items) => List(seq(|items|, i requires 0 <= i < |items| => FloatsToDecimal(items[i])))
    case Object(fields) => Object(map k | k in fields :: FloatsToDecimal(fields[k]))
    case _ => v
  }

  /** Converting twice is the same as converting once. */
  lemma {:induction false} DecimalsToFloatIdempotent(v: Value)
    ensures DecimalsToFloat(DecimalsToFloat(v)) == DecimalsToFloat(v)
    decreases v, 1
  {
    if v.List? {
      IdempotentItems(v.items);
    } else if v.Object? {
      IdempotentFields(v.fields);
    }
  }

  lemma {:induction false} IdempotentItems(items: seq<Value>)
    ensures DecimalsToFloat(DecimalsToFloat(List(items))) == DecimalsToFloat(List(items))
    decreases List(items), 0
  {
    var once := DecimalsToFloat(List(items)).items;
    forall i | 0 <= i < |items| ensures DecimalsToFloat(once[i]) == once[i] {
      DecimalsToFloatIdempotent(items[i]);
    }
    assert seq(|once|, i requires 0 <= i < |once| => DecimalsToFloat(once[i])) == once;
  }

  lemma {:induction false} IdempotentFields(fields: map<string, Value>)
    ensures DecimalsToFloat(DecimalsToFloat(Object(fields))) == DecimalsToFloat(Object(fields))
    decreases Object(fields), 0
  {
    var once := DecimalsToFloat(Object(fields)).fields;
    forall k | k in fields ensures DecimalsToFloat(once[k]) == once[k] {
      DecimalsToFloatIdempotent(fields[k]);
    }
    assert (map k | k in once :: DecimalsToFloat(once[k])) == once;
  }

  /** A value that already holds no `Decimal` is left as it is. */
  lemma {:induction false} DecimalsToFloatFixes(v: Value)
    requires NoDecimal(v)
    ensures DecimalsToFloat(v) == v
    decreases v
  {
    if v.List? {
      forall i | 0 <= i < |v.items| ensures DecimalsToFloat(v.items[i]) == v.items[i] {
        DecimalsToFloatFixes(v.items[i]);
      }
    } else if v.Object? {
      forall k | k in v.fields ensures DecimalsToFloat(v.fields[k]) == v.fields[k] {
        DecimalsToFloatFixes(v.fields[k]);
      }
    }
  }

  /**
   * Storing a feed converts floats back to Decimals: data read from the
   * store (which holds no floats) survives the round trip unchanged.
   */
  lemma {:induction false} DecimalRoundTrip(v: Value)
    requires NoFloat(v)
    ensures FloatsToDecimal(DecimalsToFloat(v)) == v
    decreases v, 1
  {
    if v.List? {
      RoundTripItems(v.items);
    } else if v.Object? {
      RoundTripFields(v.fields);
    }
  }

  lemma {:induction false} RoundTripItems(items: seq<Value>)
    requires NoFloat(List(items))
    ensures FloatsToDecimal(DecimalsToFloat(List(items))) == List(items)
    decreases List(items), 0
  {
    var w := DecimalsToFloat(List(items)).items;
    var back := seq(|w|, i requires 0 <= i < |w| => FloatsToDecimal(w[i]));
    forall i | 0 <= i < |items| ensures back[i] == items[i] {
      DecimalRoundTrip(items[i]);
    }
    assert back == items;
  }

  lemma {:induction false} RoundTripFields(fields: map<string, Value>)
    requires NoFloat(Object(fields))
    ensures FloatsToDecimal(DecimalsToFloat(Object(fields))) == Object(fields)
    decreases Object(fields), 0
  {
    forall k | k in fields ensures FloatsToDecimal(DecimalsToFloat(fields[k])) == fields[k] {
      DecimalRoundTrip(fields[k]);
    }
    FieldsBack(fields, DecimalsToFloat(Object(fields)).fields);
  }

  /** A dictionary whose every value survives the round trip survives it as a whole. */
  lemma FieldsBack(fields: map<string, Value>, w: map<string, Value>)
    requires w == map k | k in fields :: DecimalsToFloat(fields[k])
    requires forall k | k in fields :: FloatsToDecimal(DecimalsToFloat(fields[k])) == fields[k]
    ensures (map k | k in w :: FloatsToDecimal(w[k])) == fields
  {
  }
}
