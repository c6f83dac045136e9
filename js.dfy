/**
 * The slice of JavaScript's runtime semantics the dashboard code leans on:
 * optional values, JSON-shaped runtime values, truthiness, and the two
 * "absent" notions behind `||` (falsy) and `??` (nullish).
 */
module Js {
  import opened Text

  /** `undefined` (and, where the code says so, `null`) versus a present value. */
  datatype Option<+T> = None | Some(value: T)

  datatype Result<+T, +E> = Ok(value: T) | Err(error: E)

  /**
   * A JSON-shaped runtime value. `undefined` has no constructor: an absent
   * property is `None` in an `Option<Value>`. Numbers are integers here.
   */
  datatype Value =
    | Null
    | Bool(b: bool)
    | Num(n: int)
    | Str(s: string)
    | Arr(items: seq<Value>)
    | Obj(fields: map<string, Value>)

  /** ECMAScript ToBoolean on a value that is not `undefined`. */
  predicate Truthy(v: Value) {
    match v
    case Null => false
    case Bool(b) => b
    case Num(n) => n != 0
    case Str(s) => s != ""
    case Arr(_) => true
    case Obj(_) => true
  }

  /** ToBoolean on a possibly-undefined value. */
  predicate IsTruthy(o: Option<Value>) {
    o.Some? && Truthy(o.value)
  }

  /** `null` or `undefined`: the only values `??` and `?.` treat as absent. */
  predicate IsNullish(o: Option<Value>) {
    o.None? || o.value == Null
  }

  /** `a || b`: `a` unless it is falsy. */
  function Or(a: Option<Value>, b: Option<Value>): (r: Option<Value>)
    ensures r == a || r == b
    ensures IsTruthy(a) ==> r == a
    ensures IsTruthy(r) <==> IsTruthy(a) || IsTruthy(b)
  {
    if IsTruthy(a) then a else b
  }

  /** `a ?? b`: `a` unless it is `null` or `undefined`. */
  function Coalesce(a: Option<Value>, b: Option<Value>): (r: Option<Value>)
    ensures r == a || r == b
    ensures !IsNullish(a) ==> r == a
    ensures IsNullish(r) <==> IsNullish(a) && IsNullish(b)
  {
    if IsNullish(a) then b else a
  }

  /**
   * `||` and `??` disagree exactly when the left operand is present but
   * falsy (`""`, `0`, `false`) and the right operand is a different value.
   */
  lemma OrCoalesceDisagreement(a: Option<Value>, b: Option<Value>)
    ensures Or(a, b) != Coalesce(a, b) <==> !IsNullish(a) && !IsTruthy(a) && a != b
  {
  }

  /** `o?.key`: the property when `o` is an object that has it, else `undefined`. */
  function Get(o: Option<Value>, key: string): (r: Option<Value>)
    ensures r.Some? <==> o.Some? && o.value.Obj? && key in o.value.fields
    ensures r.Some? ==> r.value == o.value.fields[key]
  {
    match o
    case Some(Obj(m)) => if key in m then Some(m[key]) else None
    case _ => None
  }

  /**
   * The own properties `{...o}` copies. Only objects are spread here; the
   * index keys a string or an array would contribute are not modelled.
   */
  function Spread(o: Option<Value>): (m: map<string, Value>)
    ensures o.Some? && o.value.Obj? ==> m == o.value.fields
    ensures !(o.Some? && o.value.Obj?) ==> m == map[]
  {
    match o
    case Some(Obj(fields)) => fields
    case _ => map[]
  }

  /**
   * An object literal property `key: e` followed by JSON serialisation:
   * a property whose value is `undefined` is dropped, any other is set.
   */
  function SetProperty(m: map<string, Value>, key: string, e: Option<Value>): (r: map<string, Value>)
    ensures key in r <==> e.Some?
    ensures e.Some? ==> r[key] == e.value
    ensures forall k :: k in m && k != key ==> k in r && r[k] == m[k]
    ensures forall k :: k in r && k != key ==> k in m
  {
    if e.Some? then m[key := e.value] else m - {key}
  }

  /**
   * ECMAScript `Number(o)` on a value, `None` standing for `NaN`. A string
   * is trimmed first and the empty string is 0; the numeric text itself is
   * read by `parseNumber`, the numeric-literal grammar not being modelled.
   * An array converts through its `toString`: `[]` is 0, a one-element array
   * converts like its element's text, and a longer one contains a comma and
   * is `NaN`.
   */
  function ToNumber(o: Option<Value>, parseNumber: string -> Option<int>): (n: Option<int>)
    ensures o.None? ==> n.None?
    ensures o == Some(Null) ==> n == Some(0)
    ensures o.Some? && o.value.Num? ==> n == Some(o.value.n)
    ensures o.Some? && o.value.Obj? ==> n.None?
    ensures o.Some? && o.value.Bool? ==> n == Some(if o.value.b then 1 else 0)
    ensures o.Some? && o.value.Str? && Trim(o.value.s) == "" ==> n == Some(0)
    ensures o.Some? && o.value.Str? && Trim(o.value.s) != "" ==> n == parseNumber(Trim(o.value.s))
    ensures o == Some(Arr([])) ==> n == Some(0)
    ensures o.Some? && o.value.Arr? && |o.value.items| > 1 ==> n.None?
    ensures o.Some? && o.value.Arr? && |o.value.items| == 1 ==>
      var e := o.value.items[0];
      && (e == Null ==> n == Some(0))
      && (e.Bool? || e.Obj? ==> n.None?)
      && (e.Num? ==> n == Some(e.n))
      && (e.Str? && Trim(e.s) == "" ==> n == Some(0))
      && (e.Str? && Trim(e.s) != "" ==> n == parseNumber(Trim(e.s)))
      && (e.Arr? ==> n == ValueToNumber(e, parseNumber))
  {
    if o.None? then None
    else
      var v := o.value;
      assert v.Arr? && |v.items| == 1 && (v.items[0].Num? || v.items[0].Str?) ==>
        ValueToNumber(v, parseNumber) == ValueToNumber(v.items[0], parseNumber);
      ValueToNumber(v, parseNumber)
  }

  function ValueToNumber(v: Value, parseNumber: string -> Option<int>): Option<int>
    decreases v
  {
    match v
    case Null => Some(0)
    case Bool(b) => Some(if b then 1 else 0)
    case Num(k) => Some(k)
    case Str(s) => if Trim(s) == "" then Some(0) else parseNumber(Trim(s))
    case Obj(_) => None
    case Arr(items) =>
      if |items| == 0 then Some(0)
      else if |items| > 1 then None
      else match items[0]
        case Null => Some(0)            // `String([null])` is ""
        case Bool(_) => None            // "true" and "false" are not numbers
        case Obj(_) => None             // "[object Object]"
        case _ => ValueToNumber(items[0], parseNumber)
  }

  /** `n || fallback` on a number: `NaN` and 0 are falsy. */
  function NumberOr(n: Option<int>, fallback: int): (r: int)
    ensures n.Some? && n.value != 0 ==> r == n.value
    ensures n.None? || n.value == 0 ==> r == fallback
  {
    if n.Some? && n.value != 0 then n.value else fallback
  }

  // ----- Chains of `||` over optional strings -----

  /** A string operand of `||` that is present and not `""`. */
  predicate NonEmpty(o: Option<string>) {
    o.Some? && o.value != ""
  }

  /**
   * `c[0] || c[1] || ... || fallback` over optional strings: the first
   * candidate that is present and non-empty, else the fallback.
   */
  function FirstNonEmpty(c: seq<Option<string>>, fallback: string): (r: string)
    ensures r == fallback || exists i :: 0 <= i < |c| && c[i] == Some(r) && r != ""
    ensures fallback != "" ==> r != ""
    decreases |c|
  {
    if c == [] then fallback
    else if NonEmpty(c[0]) then c[0].value
    else
      var r := FirstNonEmpty(c[1..], fallback);
      assert r != fallback ==> exists i :: 0 < i < |c| && c[i] == Some(r) && r != "" by {
        if r != fallback {
          var j :| 0 <= j < |c[1..]| && c[1..][j] == Some(r) && r != "";
          assert c[j + 1] == Some(r);
        }
      }
      r
  }

  /** The chain picks the FIRST non-empty candidate. */
  lemma {:induction false} FirstNonEmptyPicksFirst(c: seq<Option<string>>, fallback: string, i: nat)
    requires i < |c| && NonEmpty(c[i])
    requires forall j :: 0 <= j < i ==> !NonEmpty(c[j])
    ensures FirstNonEmpty(c, fallback) == c[i].value
  {
    if i > 0 {
      FirstNonEmptyPicksFirst(c[1..], fallback, i - 1);
    }
  }

  /** With no non-empty candidate the chain yields the fallback. */
  lemma {:induction false} FirstNonEmptyAllEmpty(c: seq<Option<string>>, fallback: string)
    requires forall j :: 0 <= j < |c| ==> !NonEmpty(c[j])
    ensures FirstNonEmpty(c, fallback) == fallback
  {
    if c != [] {
      FirstNonEmptyAllEmpty(c[1..], fallback);
    }
  }
}
