/** JavaScript values as the configuration store holds them, and the two
    views of a value that the store's code relies on: the property list that
    `Object.keys` produces, and what a value becomes after it is written out
    as JSON text and read back. */
module JsValue {

  datatype Option<+T> = None | Some(value: T)

  /** A JavaScript value. `Undefined` is JavaScript's `undefined`: an
      in-memory object may hold it under a key, JSON text never does.
      Numbers are opaque payloads; nothing here does arithmetic on them. */
  datatype Value =
    | Undefined
    | Null
    | Bool(b: bool)
    | Num(n: real)
    | Str(s: string)
    | Arr(items: seq<Value>)
    | Obj(props: map<string, Value>)

  /** A value that JSON text can denote: `undefined` occurs nowhere in it. */
  predicate IsJson(v: Value) {
    match v
    case Undefined => false
    case Arr(items) => forall i :: 0 <= i < |items| ==> IsJson(items[i])
    case Obj(props) => forall k :: k in props ==> IsJson(props[k])
    case _ => true
  }

  /** What `v` becomes when it is serialised with `JSON.stringify` and parsed
      back with `JSON.parse`: object properties holding `undefined` are
      dropped and `undefined` array elements become `null`. */
  function JsonImage(v: Value): (r: Value)
    ensures IsJson(r)
    ensures v.Obj? <==> r.Obj?
  {
    match v
    case Undefined => Null
    case Arr(items) => Arr(seq(|items|, i requires 0 <= i < |items| => JsonImage(items[i])))
    case Obj(props) => Obj(map k | k in props && props[k] != Undefined :: JsonImage(props[k]))
    case _ => v
  }

  /** Writing a JSON value out and reading it back gives the same value. */
  lemma {:induction false} JsonImageOfJson(v: Value)
    requires IsJson(v)
    ensures JsonImage(v) == v
  {
    match v
    case Arr(items) =>
      forall i | 0 <= i < |items| ensures JsonImage(items[i]) == items[i] {
        JsonImageOfJson(items[i]);
      }
      assert JsonImage(v).items == items;
    case Obj(props) =>
      forall k | k in props ensures JsonImage(props[k]) == props[k] {
        JsonImageOfJson(props[k]);
      }
      assert JsonImage(v).props == props;
    case _ =>
  }

  /** Writing out and reading back twice is the same as doing it once. */
  lemma JsonImageIdempotent(v: Value)
    ensures JsonImage(JsonImage(v)) == JsonImage(v)
  {
  }

  function Digit(d: nat): char
    requires d < 10
  {
    "0123456789"[d]
  }

  lemma DigitInjective(x: nat, y: nat)
    requires x < 10 && y < 10 && Digit(x) == Digit(y)
    ensures x == y
  {
  }

  /** The decimal numeral JavaScript uses as the property key of an index. */
  function Decimal(n: nat): (r: string)
    ensures |r| >= 1
    ensures n < 10 <==> |r| == 1
  {
    if n < 10 then [Digit(n)] else Decimal(n / 10) + [Digit(n % 10)]
  }

  /** Distinct indices have distinct property keys. */
  lemma {:induction false} DecimalInjective(a: nat, b: nat)
    requires Decimal(a) == Decimal(b)
    ensures a == b
  {
    if a < 10 {
      DigitInjective(a, b);
    } else {
      var da, db := Decimal(a), Decimal(b);
      assert da == Decimal(a / 10) + [Digit(a % 10)];
      assert db == Decimal(b / 10) + [Digit(b % 10)];
      assert da[..|da| - 1] == Decimal(a / 10);
      assert db[..|db| - 1] == Decimal(b / 10);
      DecimalInjective(a / 10, b / 10);
      assert da[|da| - 1] == Digit(a % 10) && db[|db| - 1] == Digit(b % 10);
      DigitInjective(a % 10, b % 10);
    }
  }

  /** The index `n` has a key no smaller index has. */
  lemma DecimalFresh(n: nat)
    ensures forall i :: 0 <= i < n ==> Decimal(i) != Decimal(n)
  {
    forall i | 0 <= i < n ensures Decimal(i) != Decimal(n) {
      if Decimal(i) == Decimal(n) { DecimalInjective(i, n); }
    }
  }

  /** The first `n` elements of `items` keyed by the decimal numerals of their
      indices, as `Object.keys` lists the elements of an array or string. */
  function Indexed(items: seq<Value>, n: nat): (r: map<string, Value>)
    requires n <= |items|
    ensures forall i :: 0 <= i < n ==> Decimal(i) in r && r[Decimal(i)] == items[i]
    ensures forall k :: k in r ==> exists i :: 0 <= i < n && k == Decimal(i)
  {
    if n == 0 then map[]
    else
      DecimalFresh(n - 1);
      Indexed(items, n - 1)[Decimal(n - 1) := items[n - 1]]
  }

  /** The own enumerable properties that `Object.keys(v)` lists, with their
      values, or None where `Object.keys` throws a TypeError (on `null` and
      `undefined`). A string lists one single-character string per index;
      booleans and numbers list nothing. */
  function OwnProperties(v: Value): (r: Option<map<string, Value>>)
    ensures r.None? <==> v.Null? || v.Undefined?
    ensures v.Obj? ==> r == Some(v.props)
    ensures v.Bool? || v.Num? ==> r == Some(map[])
    ensures v.Arr? ==> r == Some(Indexed(v.items, |v.items|))
  {
    match v
    case Undefined => None
    case Null => None
    case Obj(props) => Some(props)
    case Arr(items) => Some(Indexed(items, |items|))
    case Str(s) => Some(Indexed(seq(|s|, i requires 0 <= i < |s| => Str([s[i]])), |s|))
    case _ => Some(map[])
  }
}
