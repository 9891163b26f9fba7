/** The JavaScript values the request helper handles: the caller's option
    objects, the token request it builds, and the three arguments
    (error, response, body) that the HTTP transport hands to its callback. */
module Js {

  datatype Option<T> = None | Some(value: T)

  /** A JSON-like JavaScript value. Numbers are integers here; plain objects
      are finite maps from property names to values. */
  datatype Value =
    | Undefined
    | Null
    | Bool(b: bool)
    | Num(n: int)
    | Str(s: string)
    | Object(props: map<string, Value>)

  /** JavaScript truthiness, as used by `if (v)`, `!v`, `a && b` and `a || b`. */
  predicate Truthy(v: Value) {
    match v
    case Undefined => false
    case Null => false
    case Bool(b) => b
    case Num(n) => n != 0
    case Str(s) => s != ""
    case Object(_) => true
  }

  /** `v == null`: reading a property of such a value throws a TypeError. */
  predicate Nullish(v: Value) {
    v.Undefined? || v.Null?
  }

  /** Property read on a plain object; an absent property reads as `undefined`. */
  function Field(m: map<string, Value>, k: string): Value {
    if k in m then m[k] else Undefined
  }

  /** Property read `v.k` on a value that is not nullish. The primitives
      have none of the property names this library reads. */
  function Get(v: Value, k: string): Value {
    if v.Object? then Field(v.props, k) else Undefined
  }

  /** The own properties of an object, none for a primitive. */
  function Props(v: Value): map<string, Value> {
    if v.Object? then v.props else map[]
  }

  /** The keys of an object literal whose values are not `undefined`. */
  function DefinedKeys(m: map<string, Value>): set<string> {
    set k | k in m && !m[k].Undefined?
  }

  /** `extend(true, target, source)` for plain objects: every property of the
      source that is not `undefined` is copied onto the target; an object
      value is merged, recursively, into a copy of the target's object at
      that key (or into a fresh object when the target has none there). */
  function ExtendDeep(target: map<string, Value>, source: map<string, Value>): (r: map<string, Value>)
    decreases Object(source)
    ensures r.Keys == target.Keys + DefinedKeys(source)
    ensures forall k :: k in target && k !in DefinedKeys(source) ==> r[k] == target[k]
    ensures forall k :: k in DefinedKeys(source) && !source[k].Object? ==> r[k] == source[k]
    ensures forall k :: k in source && source[k].Object? ==> r[k].Object?
  {
    map k | k in target.Keys + DefinedKeys(source) ::
      if k in source && source[k].Object? then
        assert source[k] in source.Values;
        Object(ExtendDeep(if k in target && target[k].Object? then target[k].props else map[], source[k].props))
      else if k in DefinedKeys(source) then source[k]
      else target[k]
  }

  /** An object value of the source is merged into the target's object at
      that key: the target's keys plus the source's defined ones, the target's
      values kept where the source leaves a key undefined, the source's
      non-object values winning. With no object in the target there, the
      result is the source object's deep copy. */
  lemma NestedObjectsMerge(target: map<string, Value>, source: map<string, Value>, k: string)
    requires k in source && source[k].Object?
    ensures var r := ExtendDeep(target, source)[k];
            var sp := source[k].props;
            && (k in target && target[k].Object? ==>
                  var tp := target[k].props;
                  && r.Object?
                  && r.props.Keys == tp.Keys + DefinedKeys(sp)
                  && (forall j :: j in tp && j !in DefinedKeys(sp) ==> r.props[j] == tp[j])
                  && (forall j :: j in DefinedKeys(sp) && !sp[j].Object? ==> r.props[j] == sp[j]))
            && (!(k in target && target[k].Object?) ==> r == Clone(source[k]))
  {
    assert source[k] in source.Values;
    assert k in DefinedKeys(source);
  }

  /** The copy of a value that `extend(true, {}, ...)` stores: objects are
      rebuilt without their `undefined` properties, at every depth. */
  function Clone(v: Value): Value {
    if v.Object? then Object(ExtendDeep(map[], v.props)) else v
  }

  /** A value with no `undefined` anywhere inside it. */
  ghost predicate Defined(v: Value)
    decreases v
  {
    match v
    case Undefined => false
    case Object(p) => forall k :: k in p ==> (assert p[k] in p.Values; Defined(p[k]))
    case _ => true
  }

  /** A deep copy into an empty object is the identity on values with no
      `undefined` inside. */
  lemma {:induction false} CloneOfDefined(v: Value)
    requires Defined(v)
    decreases v
    ensures Clone(v) == v
  {
    if v.Object? {
      var r := ExtendDeep(map[], v.props);
      forall k | k in v.props
        ensures r[k] == v.props[k]
      {
        assert v.props[k] in v.props.Values;
        CloneOfDefined(v.props[k]);
      }
      assert r.Keys == v.props.Keys;
    }
  }

  /** A deep copy into an empty object: the keys whose values are defined,
      each holding its value's clone. */
  lemma CopyIntoEmpty(m: map<string, Value>)
    ensures ExtendDeep(map[], m).Keys == DefinedKeys(m)
    ensures forall k :: k in DefinedKeys(m) ==> ExtendDeep(map[], m)[k] == Clone(m[k])
  {
    var r := ExtendDeep(map[], m);
    forall k | k in DefinedKeys(m)
      ensures r[k] == Clone(m[k])
    {
      if m[k].Object? {
        assert r[k] == Object(ExtendDeep(map[], m[k].props));
      }
    }
  }

  /** The string conversion that `+` applies when one operand is a string,
      and that turns a value into a property name. */
  function ToString(v: Value): string {
    match v
    case Undefined => "undefined"
    case Null => "null"
    case Bool(b) => if b then "true" else "false"
    case Num(n) => IntToString(n)
    case Str(s) => s
    case Object(_) => "[object Object]"
  }

  function IntToString(n: int): string {
    if n < 0 then "-" + NatToString(-n) else NatToString(n)
  }

  function NatToString(n: nat): string {
    if n < 10 then [DigitChar(n)] else NatToString(n / 10) + [DigitChar(n % 10)]
  }

  function DigitChar(d: nat): char
    requires d < 10
  {
    "0123456789"[d]
  }

  /** A JavaScript number after the conversion that `-` applies to its operands. */
  datatype Number = Finite(n: int) | NaN

  function ToNumber(v: Value): Number {
    match v
    case Undefined => NaN
    case Null => Finite(0)
    case Bool(b) => Finite(if b then 1 else 0)
    case Num(n) => Finite(n)
    case Str(s) => StringToNumber(s)
    case Object(_) => NaN
  }

  predicate IsDigit(c: char) {
    '0' <= c <= '9'
  }

  /** `Number(s)` for the empty string and for plain decimal digit strings;
      every other string reads as NaN here. */
  function StringToNumber(s: string): Number {
    if s == "" then Finite(0)
    else if forall i :: 0 <= i < |s| ==> IsDigit(s[i]) then Finite(DigitsValue(s))
    else NaN
  }

  function DigitsValue(s: string): nat
    requires forall i :: 0 <= i < |s| ==> IsDigit(s[i])
  {
    if s == [] then 0
    else
      assert IsDigit(s[|s| - 1]);
      DigitsValue(s[..|s| - 1]) * 10 + (s[|s| - 1] as int - '0' as int)
  }

  lemma DigitCharValue(d: nat)
    requires d < 10
    ensures IsDigit(DigitChar(d)) && DigitChar(d) as int - '0' as int == d
  {
  }

  /** The decimal text of a natural number is a nonempty digit string that
      reads back as that number. */
  lemma {:induction false} NatToStringDigits(n: nat)
    decreases n
    ensures |NatToString(n)| >= 1
    ensures forall i :: 0 <= i < |NatToString(n)| ==> IsDigit(NatToString(n)[i])
    ensures DigitsValue(NatToString(n)) == n
  {
    var s := NatToString(n);
    if n < 10 {
      DigitCharValue(n);
      assert s[..|s| - 1] == [];
    } else {
      NatToStringDigits(n / 10);
      DigitCharValue(n % 10);
      assert s[..|s| - 1] == NatToString(n / 10);
    }
  }

  /** Round trip: a non-negative number written out by `ToString` and read
      back by `ToNumber` is the same number. */
  lemma NumberRoundTrip(n: int)
    requires n >= 0
    ensures ToNumber(Str(ToString(Num(n)))) == Finite(n)
  {
    NatToStringDigits(n);
  }

  /** A truthy value never converts to the empty string. */
  lemma TruthyToStringNonEmpty(v: Value)
    requires Truthy(v)
    ensures |ToString(v)| >= 1
  {
    if v.Num? && v.n >= 0 {
      NatToStringDigits(v.n);
    }
  }

  /** The three arguments the transport passes to its callback. A failed
      transfer leaves `response` and `body` undefined. */
  datatype Reply = Reply(error: Value, response: Value, body: Value)
}
