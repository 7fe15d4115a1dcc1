/**
 * The slice of JavaScript semantics the modelled code relies on: the values that
 * JSON.parse and xml2js hand back, truthiness and the `||` fallback, property reads
 * (which throw on null and undefined), strict equality, `String.prototype.trim`,
 * `parseInt` with no radix, the non-finite results of `Math.floor`/`Math.ceil` of a
 * division, and the `\d` character class.
 */
module Js {
  import opened Wrappers

  /** A JavaScript value as far as this model needs one. */
  datatype Value =
    | Undefined
    | Null
    | Bool(b: bool)
    | Num(n: int)
    | Str(s: string)
    | Arr(items: seq<Value>)
    | Obj(fields: map<string, Value>)

  /** JavaScript truthiness: undefined, null, false, 0 and "" are falsy; every object is truthy. */
  predicate Truthy(v: Value) {
    match v
    case Undefined => false
    case Null => false
    case Bool(b) => b
    case Num(n) => n != 0
    case Str(s) => s != ""
    case Arr(_) => true
    case Obj(_) => true
  }

  /** `a || b` */
  function Or(a: Value, b: Value): Value {
    if Truthy(a) then a else b
  }

  predicate Nullish(v: Value) {
    v.Undefined? || v.Null?
  }

  /** `v.k` for a `v` that is neither null nor undefined: an object's own field, otherwise undefined. */
  function Prop(v: Value, k: string): Value {
    if v.Obj? && k in v.fields then v.fields[k] else Undefined
  }

  /** The TypeError message V8 gives for reading `k` of null or undefined. */
  function ReadError(v: Value, k: string): string {
    "Cannot read properties of " + (if v.Null? then "null" else "undefined") + " (reading '" + k + "')"
  }

  /** `v.k`, which throws when `v` is null or undefined. */
  function Get(v: Value, k: string): Result<Value> {
    if Nullish(v) then Err(ReadError(v, k)) else Ok(Prop(v, k))
  }

  /** `v?.k` */
  function OptGet(v: Value, k: string): Value {
    if Nullish(v) then Undefined else Prop(v, k)
  }

  /**
   * `a === b` for values that were parsed separately: primitives compare by value,
   * two objects or arrays are never the same reference.
   */
  predicate StrictEquals(a: Value, b: Value) {
    a == b && !a.Arr? && !a.Obj?
  }

  // ---------------------------------------------------------------- characters

  /** The regular-expression class `\d`: ASCII digits only. */
  predicate IsDigit(c: char) {
    '0' <= c <= '9'
  }

  function AllDigits(s: string): bool {
    s == [] || (IsDigit(s[0]) && AllDigits(s[1..]))
  }

  lemma {:induction false} AllDigitsMeans(s: string)
    ensures AllDigits(s) <==> forall i :: 0 <= i < |s| ==> IsDigit(s[i])
  {
    if s != [] {
      AllDigitsMeans(s[1..]);
      assert forall i :: 1 <= i < |s| ==> s[i] == s[1..][i - 1];
    }
  }

  /** `/^\d{44}$/.test(s)`: the shape of an NF-e access key. */
  function Matches44Digits(s: string): (ok: bool)
    ensures ok <==> |s| == 44 && forall i :: 0 <= i < |s| ==> IsDigit(s[i])
  {
    AllDigitsMeans(s);
    |s| == 44 && AllDigits(s)
  }

  /** ECMAScript WhiteSpace and LineTerminator code points, the set `trim` and `parseInt` skip. */
  predicate IsWhiteSpace(c: char) {
    var u := c as int;
    u == 0x09 || u == 0x0A || u == 0x0B || u == 0x0C || u == 0x0D || u == 0x20 || u == 0xA0 ||
    u == 0x1680 || (0x2000 <= u <= 0x200A) || u == 0x2028 || u == 0x2029 || u == 0x202F ||
    u == 0x205F || u == 0x3000 || u == 0xFEFF
  }

  /** The code points the regular-expression `.` does not match. */
  predicate IsLineTerminator(c: char) {
    var u := c as int;
    u == 0x0A || u == 0x0D || u == 0x2028 || u == 0x2029
  }

  function TrimStart(s: string): string {
    if s != [] && IsWhiteSpace(s[0]) then TrimStart(s[1..]) else s
  }

  function TrimEnd(s: string): string {
    if s != [] && IsWhiteSpace(s[|s| - 1]) then TrimEnd(s[..|s| - 1]) else s
  }

  /** `s.trim()` */
  function Trim(s: string): string {
    TrimEnd(TrimStart(s))
  }

  lemma {:induction false} TrimKeepsClean(s: string)
    requires forall i :: 0 <= i < |s| ==> !IsWhiteSpace(s[i])
    ensures Trim(s) == s
  {
  }

  // ---------------------------------------------------------------- numbers

  /** A JavaScript number that may be NaN or infinite; finite values are integral here. */
  datatype Number = Finite(v: int) | NaN | Infinity(positive: bool)

  predicate NumberTruthy(n: Number) {
    (n.Finite? && n.v != 0) || n.Infinity?
  }

  /** `n || d` */
  function NumberOr(n: Number, d: int): Number {
    if NumberTruthy(n) then n else Finite(d)
  }

  /** `Math.floor(a / b)` */
  function FloorDiv(a: int, b: int): Number {
    if b > 0 then Finite(a / b)
    else if b < 0 then Finite((-a) / (-b))
    else if a == 0 then NaN
    else Infinity(a > 0)
  }

  /** `Math.ceil(a / b)` */
  function CeilDiv(a: int, b: int): Number {
    if b > 0 then Finite(-((-a) / b))
    else if b < 0 then Finite(-(a / (-b)))
    else if a == 0 then NaN
    else Infinity(a > 0)
  }

  /** `n + 1` */
  function AddOne(n: Number): Number {
    if n.Finite? then Finite(n.v + 1) else n
  }

  lemma FloorDivBounds(a: int, b: int)
    requires b > 0
    ensures FloorDiv(a, b).Finite?
    ensures FloorDiv(a, b).v * b <= a < FloorDiv(a, b).v * b + b
  {
  }

  lemma CeilDivBounds(a: int, b: int)
    requires b > 0
    ensures CeilDiv(a, b).Finite?
    ensures CeilDiv(a, b).v * b - b < a <= CeilDiv(a, b).v * b
  {
    var q := (-a) / b;
    assert q * b <= -a < q * b + b;
  }

  lemma MulMono(x: int, y: int, k: int)
    requires x <= y && k > 0
    ensures x * k <= y * k
  {
    assert y * k - x * k == (y - x) * k;
  }

  /** Dividing a multiple of `k` by `k` is exact. */
  lemma DivOfMul(q: int, k: int)
    requires k > 0
    ensures (q * k) / k == q
  {
    var a := q * k;
    var d := a / k;
    assert a == d * k + a % k && 0 <= a % k < k;
    if d < q {
      MulMono(d + 1, q, k);
    } else if d > q {
      MulMono(q + 1, d, k);
    }
  }

  // ---------------------------------------------------------------- parseInt

  /** The value of `c` as a digit in bases up to 36, or 36 when it is none. */
  function DigitValue(c: char): nat {
    if '0' <= c <= '9' then (c as int) - ('0' as int)
    else if 'a' <= c <= 'z' then (c as int) - ('a' as int) + 10
    else if 'A' <= c <= 'Z' then (c as int) - ('A' as int) + 10
    else 36
  }

  /** The longest prefix of `s` made of digits of base `radix`. */
  function DigitPrefix(s: string, radix: nat): string {
    if s != [] && DigitValue(s[0]) < radix then [s[0]] + DigitPrefix(s[1..], radix) else []
  }

  function DigitsValue(d: string, radix: nat): int {
    if d == [] then 0 else DigitsValue(d[..|d| - 1], radix) * radix + DigitValue(d[|d| - 1])
  }

  /**
   * `parseInt(s)` with no radix: leading white space, an optional sign, a `0x` prefix
   * for base 16, then the longest run of digits; None is NaN.
   */
  function ParseInt(s: string): Option<int> {
    var t := TrimStart(s);
    var sign := if t != [] && t[0] == '-' then -1 else 1;
    var u := if t != [] && (t[0] == '-' || t[0] == '+') then t[1..] else t;
    var hex := |u| >= 2 && u[0] == '0' && (u[1] == 'x' || u[1] == 'X');
    var radix := if hex then 16 else 10;
    var d := DigitPrefix(if hex then u[2..] else u, radix);
    if d == [] then None else Some(sign * DigitsValue(d, radix))
  }

  function DigitChar(d: nat): (c: char)
    requires d < 10
  {
    "0123456789"[d]
  }

  /** `String(n)` for a non-negative integer. */
  function NatToString(n: nat): string {
    if n < 10 then [DigitChar(n)] else NatToString(n / 10) + [DigitChar(n % 10)]
  }

  lemma {:induction false} NatToStringDigits(n: nat)
    ensures NatToString(n) != []
    ensures forall i :: 0 <= i < |NatToString(n)| ==> IsDigit(NatToString(n)[i])
    ensures DigitsValue(NatToString(n), 10) == n
  {
    if n < 10 {
      DigitCharValue(n);
    } else {
      var s, p, c := NatToString(n), NatToString(n / 10), DigitChar(n % 10);
      NatToStringDigits(n / 10);
      DigitCharValue(n % 10);
      assert s == p + [c];
      assert s[..|s| - 1] == p;
      assert DigitsValue(s, 10) == DigitsValue(p, 10) * 10 + DigitValue(c);
      forall i | 0 <= i < |s|
        ensures IsDigit(s[i])
      {
        if i < |p| {
          assert s[i] == p[i];
        }
      }
    }
  }

  lemma DigitCharValue(d: nat)
    requires d < 10
    ensures IsDigit(DigitChar(d)) && DigitValue(DigitChar(d)) == d
  {
  }

  lemma {:induction false} DigitPrefixOfDigits(s: string)
    requires forall i :: 0 <= i < |s| ==> IsDigit(s[i])
    ensures DigitPrefix(s, 10) == s
  {
    if s != [] {
      DigitPrefixOfDigits(s[1..]);
    }
  }

  /** `parseInt(s)` as a number: NaN when no digits are read. */
  function ParseIntNumber(s: string): (n: Number)
    ensures n.NaN? <==> ParseInt(s).None?
    ensures n.Finite? ==> ParseInt(s) == Some(n.v)
  {
    match ParseInt(s)
    case Some(v) => Finite(v)
    case None => NaN
  }

  /**
   * `parseInt(v)` of a request parameter `v` that is the string `q` when present and
   * the destructuring default `d` otherwise, which `parseInt` reads as `String(d)`.
   */
  function ParseIntOr(q: Option<string>, d: nat): (n: Number)
    ensures q.None? ==> n == Finite(d)
    ensures q.Some? ==> n == ParseIntNumber(q.value)
  {
    ParseIntOfNatToString(d);
    ParseIntNumber(if q.Some? then q.value else NatToString(d))
  }

  /** `parseInt(String(n))` gives `n` back. */
  lemma ParseIntOfNatToString(n: nat)
    ensures ParseInt(NatToString(n)) == Some(n)
  {
    var s := NatToString(n);
    NatToStringDigits(n);
    assert IsDigit(s[0]);
    assert TrimStart(s) == s;
    assert |s| >= 2 ==> IsDigit(s[1]);
    DigitPrefixOfDigits(s);
  }
}
