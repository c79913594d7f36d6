/**
 The slice of JavaScript value semantics that swank's option handling relies on:
 the values an options object can hold, truthiness (what `||` and `if` test),
 `typeof`, property reads and the string conversion that `'ERROR: ' + error`
 performs. Numbers are the safe integers (those a double holds exactly, which
 all print as plain decimal digits), with NaN kept apart because it is falsy.
 */
module Js {

  datatype Option<T> = None | Some(value: T)

  /** Number.MAX_SAFE_INTEGER, 2^53 - 1. */
  const MaxSafeInteger: int := 0x1F_FFFF_FFFF_FFFF

  /** The integers a JavaScript number represents exactly. */
  type SafeInt = n: int | -MaxSafeInteger <= n <= MaxSafeInteger

  /** The prototype an object inherits from, as far as printing it is concerned. */
  datatype Proto = ObjectProto | ErrorProto

  /** A JavaScript value. `Obj` stands for any object (plain objects, arrays,
      stat records, loaded modules, error objects such as a callback's `err`);
      its own properties are `props`. Only the error prototype changes how an
      object prints; an array prints like a plain object here. */
  datatype Value =
    | Undefined
    | Null
    | Bool(b: bool)
    | Num(n: SafeInt)
    | NaN
    | Str(s: string)
    | Obj(props: map<string, Value>, proto: Proto)

  /** ToBoolean: undefined, null, false, 0, NaN and "" are falsy; everything else is truthy. */
  predicate Truthy(v: Value)
    ensures !Truthy(v) <==> v in {Undefined, Null, Bool(false), Num(0), NaN, Str("")}
  {
    match v
    case Undefined => false
    case Null => false
    case Bool(b) => b
    case Num(n) => n != 0
    case NaN => false
    case Str(s) => s != ""
    case Obj(_, _) => true
  }

  /** `a || b`: the left operand when it is truthy, the right one otherwise. */
  function Or(a: Value, b: Value): (r: Value)
    ensures Truthy(a) ==> r == a
    ensures !Truthy(a) ==> r == b
    ensures Truthy(r) <==> Truthy(a) || Truthy(b)
  {
    if Truthy(a) then a else b
  }

  /** The `typeof` operator (functions are not distinguished from other objects). */
  function TypeOf(v: Value): (r: string)
    ensures r == "object" <==> v.Null? || v.Obj?
    ensures r == "string" <==> v.Str?
  {
    match v
    case Undefined => "undefined"
    case Null => "object"
    case Bool(_) => "boolean"
    case Num(_) => "number"
    case NaN => "number"
    case Str(_) => "string"
    case Obj(_, _) => "object"
  }

  /** Reading property `key` of a value that is not null or undefined. The only
      keys read here (`port`) are defined by no prototype, so a primitive yields
      undefined. */
  function Get(v: Value, key: string): (r: Value)
    requires !v.Undefined? && !v.Null?
    ensures v.Obj? && key in v.props ==> r == v.props[key]
    ensures !(v.Obj? && key in v.props) ==> r == Undefined
  {
    if v.Obj? && key in v.props then v.props[key] else Undefined
  }

  predicate IsDigit(c: char) { '0' <= c <= '9' }

  function DigitChar(d: nat): (c: char)
    requires d < 10
    ensures IsDigit(c)
  {
    "0123456789"[d]
  }

  function DigitValue(c: char): (d: nat)
    requires IsDigit(c)
    ensures d < 10
  {
    (c as int - '0' as int) as nat
  }

  /** The decimal digits of a natural number, most significant first. */
  function Decimal(n: nat): (r: string)
    ensures 1 <= |r|
    ensures forall i :: 0 <= i < |r| ==> IsDigit(r[i])
    ensures r[0] == '0' ==> n == 0
    decreases n
  {
    if n < 10 then [DigitChar(n)] else Decimal(n / 10) + [DigitChar(n % 10)]
  }

  /** Reads a string of decimal digits back as a number. */
  function ParseDecimal(s: string): (n: nat)
    requires forall i :: 0 <= i < |s| ==> IsDigit(s[i])
    decreases |s|
  {
    if s == [] then 0 else ParseDecimal(s[..|s| - 1]) * 10 + DigitValue(s[|s| - 1])
  }

  /** Number-to-string conversion, as `'' + n` performs it on a safe integer
      (below 1e21 no exponent form is used, and a safe integer is exact). */
  function NumberToString(n: SafeInt): (r: string)
    ensures 1 <= |r|
    ensures r[0] == '-' <==> n < 0
  {
    if n < 0 then "-" + Decimal(-n) else Decimal(n)
  }

  /** Reads back what NumberToString writes. */
  function ParseNumber(s: string): (r: Option<int>)
  {
    if |s| > 0 && s[0] == '-' then
      if forall i :: 1 <= i < |s| ==> IsDigit(s[i]) then
        var m: int := ParseDecimal(s[1..]); Some(-m)
      else None
    else if forall i :: 0 <= i < |s| ==> IsDigit(s[i]) then Some(ParseDecimal(s))
    else None
  }

  lemma {:induction false} DecimalRoundTrip(n: nat)
    ensures ParseDecimal(Decimal(n)) == n
    decreases n
  {
    var s := Decimal(n);
    if n >= 10 {
      DecimalRoundTrip(n / 10);
      assert s[..|s| - 1] == Decimal(n / 10);
      assert DigitValue(s[|s| - 1]) == n % 10;
    } else {
      assert s[..|s| - 1] == [];
    }
  }

  /** Distinct integers print differently, so an error number survives the
      `'ERROR: ' + error` concatenation. */
  lemma NumberToStringRoundTrip(n: SafeInt)
    ensures ParseNumber(NumberToString(n)) == Some(n)
  {
    var s := NumberToString(n);
    if n < 0 {
      var d := Decimal(-n);
      DecimalRoundTrip(-n);
      assert s[1..] == d;
      assert forall i :: 1 <= i < |s| ==> IsDigit(s[i]) by {
        forall i | 1 <= i < |s| ensures IsDigit(s[i]) { assert s[i] == d[i - 1]; }
      }
    } else {
      DecimalRoundTrip(n);
      assert s[0] != '-';
    }
  }

  /** Error.prototype.toString: the name, then `: ` and the message when both
      are non-empty. */
  function ErrorToString(name: string, message: string): (r: string)
    ensures message == "" ==> r == name
    ensures name == "" ==> r == message
    ensures name != "" && message != "" ==>
              |r| == |name| + 2 + |message| && r[..|name| + 2] == name + ": " && r[|name| + 2..] == message
  {
    if message == "" then name
    else if name == "" then message
    else name + ": " + message
  }

  /** A string-valued own property, or the fallback the prototype supplies. */
  function StringProp(props: map<string, Value>, key: string, fallback: string): (r: string)
    ensures key in props && props[key].Str? ==> r == props[key].s
    ensures !(key in props && props[key].Str?) ==> r == fallback
  {
    if key in props && props[key].Str? then props[key].s else fallback
  }

  /** An error object as `new Error(message)` creates it. */
  function NewError(message: string): (v: Value)
    ensures Truthy(v) && TypeOf(v) == "object"
  {
    Obj(map["message" := Str(message)], ErrorProto)
  }

  /** ToString, as used by `+` with a string operand. Plain objects are shown
      through Object.prototype.toString, error objects through
      Error.prototype.toString (name `Error` and message `""` when not their
      own string properties). */
  function ToString(v: Value): (r: string)
    ensures v.Str? ==> r == v.s
    ensures v.Num? ==> ParseNumber(r) == Some(v.n)
  {
    match v
    case Undefined => "undefined"
    case Null => "null"
    case Bool(b) => if b then "true" else "false"
    case Num(n) => NumberToStringRoundTrip(n); NumberToString(n)
    case NaN => "NaN"
    case Str(s) => s
    case Obj(props, proto) =>
      match proto
      case ObjectProto => "[object Object]"
      case ErrorProto => ErrorToString(StringProp(props, "name", "Error"), StringProp(props, "message", ""))
  }

  /** An error object prints as `Error: ` followed by its message (just `Error`
      when the message is empty), so the message reaches the printed line. */
  lemma ErrorObjectText(message: string)
    ensures message == "" ==> ToString(NewError(message)) == "Error"
    ensures message != "" ==> ToString(NewError(message)) == "Error: " + message
  {
  }
}
