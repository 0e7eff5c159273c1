/** The small part of JavaScript value semantics the feeder server and the
    schedule screen rely on: JSON values, the number values `parseInt` and
    `Math.max` can produce, `parseInt` itself, `Number.prototype.toString`
    on integers, truthiness, `===` on numbers and the string order used by
    the database's `$gt`. */
module Js {

  import opened Wrappers

  /** A JSON scalar as it arrives in a parsed message or request body. */
  datatype JsonValue = JNull | JBool(b: bool) | JNum(n: int) | JStr(s: string)

  /** The JavaScript numbers that `parseInt`, `Math.max` and `+ 1` produce here. */
  datatype Num = NaN | NegInfinity | Finite(n: int)

  // ---------------------------------------------------------------------
  // Characters

  /** The characters `parseInt` skips at the front: WhiteSpace and
      LineTerminator of ECMAScript (TAB, VT, FF, ZWNBSP, every Zs space,
      LF, CR, LS, PS). */
  predicate IsWhiteSpace(c: char) {
    c == '\t' || c == '\U{0B}' || c == '\U{0C}' || c == ' ' || c == '\U{A0}' || c == '\U{FEFF}'
    || c == '\n' || c == '\r' || c == '\U{2028}' || c == '\U{2029}'
    || c == '\U{1680}' || ('\U{2000}' <= c <= '\U{200A}') || c == '\U{202F}' || c == '\U{205F}'
    || c == '\U{3000}'
  }

  predicate IsDecimalDigit(c: char) {
    '0' <= c <= '9'
  }

  /** A digit of radix 10, or of radix 16 when `hex` holds. */
  predicate IsRadixDigit(c: char, hex: bool) {
    IsDecimalDigit(c) || (hex && (('a' <= c <= 'f') || ('A' <= c <= 'F')))
  }

  function DigitValue(c: char, hex: bool): (d: nat)
    requires IsRadixDigit(c, hex)
    ensures d < (if hex then 16 else 10)
  {
    if IsDecimalDigit(c) then c as int - '0' as int
    else if 'a' <= c <= 'f' then 10 + (c as int - 'a' as int)
    else 10 + (c as int - 'A' as int)
  }

  function DigitChar(d: nat): (c: char)
    requires d < 10
    ensures IsDecimalDigit(c) && DigitValue(c, false) == d
  {
    (('0' as int) + d) as char
  }

  // ---------------------------------------------------------------------
  // parseInt (ECMAScript parseInt(string, radix) with radix undefined)

  /** Drops the leading white space. */
  function TrimStart(s: string): (r: string)
    ensures |r| <= |s| && r == s[|s| - |r|..]
    ensures r == [] || !IsWhiteSpace(r[0])
    ensures forall i :: 0 <= i < |s| - |r| ==> IsWhiteSpace(s[i])
  {
    if s != [] && IsWhiteSpace(s[0]) then TrimStart(s[1..]) else s
  }

  /** The longest prefix of `s` made of digits of the radix. */
  function LeadingDigits(s: string, hex: bool): (z: string)
    ensures z <= s
    ensures forall i :: 0 <= i < |z| ==> IsRadixDigit(z[i], hex)
    ensures |z| == |s| || !IsRadixDigit(s[|z|], hex)
  {
    if s != [] && IsRadixDigit(s[0], hex) then [s[0]] + LeadingDigits(s[1..], hex) else []
  }

  /** The value of a digit string, most significant digit first. */
  function DigitsValue(z: string, hex: bool): nat
    requires forall i :: 0 <= i < |z| ==> IsRadixDigit(z[i], hex)
  {
    if z == [] then 0
    else DigitsValue(z[..|z| - 1], hex) * (if hex then 16 else 10) + DigitValue(z[|z| - 1], hex)
  }

  /** True when `u` starts with the `0x`/`0X` prefix that switches parseInt to radix 16. */
  predicate HasHexPrefix(u: string) {
    |u| >= 2 && u[0] == '0' && (u[1] == 'x' || u[1] == 'X')
  }

  /** The magnitude `parseInt` reads once the sign is gone: radix 16 after
      `0x`/`0X`, radix 10 otherwise, the longest run of digits; `None` when
      there is no digit. */
  function UnsignedValue(u: string): (r: Option<nat>)
  {
    var hex := HasHexPrefix(u);
    var z := LeadingDigits(if hex then u[2..] else u, hex);
    if z == [] then None else Some(DigitsValue(z, hex))
  }

  /** Drops one leading `+` or `-`. */
  function StripSign(t: string): string {
    if t != [] && (t[0] == '+' || t[0] == '-') then t[1..] else t
  }

  /** JavaScript `parseInt(s)`: skip white space, take one optional sign,
      then the magnitude; no digit at all gives NaN. */
  function ParseInt(s: string): (r: Num)
    ensures r != NegInfinity
  {
    var t := TrimStart(s);
    match UnsignedValue(StripSign(t))
    case None => NaN
    case Some(v) => if t[0] == '-' then Finite(-(v as int)) else Finite(v)
  }

  // ---------------------------------------------------------------------
  // Number to string

  /** Decimal digits of a natural number, without leading zeros. */
  function NatToString(n: nat): (r: string)
    ensures |r| >= 1
    ensures forall i :: 0 <= i < |r| ==> IsDecimalDigit(r[i])
    ensures r[0] == '0' <==> n == 0
    ensures n < 10 <==> |r| == 1
  {
    if n < 10 then [DigitChar(n)] else NatToString(n / 10) + [DigitChar(n % 10)]
  }

  /** `n.toString()` for an integer number. */
  function IntToString(n: int): (r: string)
    ensures |r| >= 1
    ensures r[0] == '-' <==> n < 0
  {
    if n < 0 then "-" + NatToString(-n) else NatToString(n)
  }

  /** `String(x)` for the numbers of `Num`. */
  function NumToString(x: Num): string {
    match x
    case NaN => "NaN"
    case NegInfinity => "-Infinity"
    case Finite(n) => IntToString(n)
  }

  /** JavaScript `String(v)`, with `None` for `undefined`. */
  function ToStr(v: Option<JsonValue>): string {
    match v
    case None => "undefined"
    case Some(JNull) => "null"
    case Some(JBool(b)) => if b then "true" else "false"
    case Some(JNum(n)) => IntToString(n)
    case Some(JStr(s)) => s
  }

  // ---------------------------------------------------------------------
  // Other operators

  /** JavaScript truthiness of a property value (`undefined` is falsy). */
  predicate Truthy(v: Option<JsonValue>) {
    match v
    case None => false
    case Some(JNull) => false
    case Some(JBool(b)) => b
    case Some(JNum(n)) => n != 0
    case Some(JStr(s)) => s != ""
  }

  /** `a === b` on numbers: NaN equals nothing, not even itself. */
  predicate StrictEquals(a: Num, b: Num) {
    (a.Finite? && b.Finite? && a.n == b.n) || (a.NegInfinity? && b.NegInfinity?)
  }

  /** `x + 1`. */
  function AddOne(x: Num): Num {
    match x
    case NaN => NaN
    case NegInfinity => NegInfinity
    case Finite(n) => Finite(n + 1)
  }

  /** `Math.max(a, b)`: NaN wins, -Infinity loses. */
  function Max2(a: Num, b: Num): Num {
    if a.NaN? || b.NaN? then NaN
    else if a.NegInfinity? then b
    else if b.NegInfinity? then a
    else if a.n < b.n then b else a
  }

  /** `Math.max(...xs)`: -Infinity for no argument, NaN as soon as one argument is NaN,
      otherwise the largest argument. */
  function MaxOf(xs: seq<Num>): (r: Num)
    ensures r.NaN? <==> exists i :: 0 <= i < |xs| && xs[i].NaN?
    ensures r.NegInfinity? <==> forall i :: 0 <= i < |xs| ==> xs[i].NegInfinity?
    ensures r.Finite? ==> exists i :: 0 <= i < |xs| && xs[i] == r
    ensures r.Finite? ==> forall i :: 0 <= i < |xs| && xs[i].Finite? ==> xs[i].n <= r.n
  {
    if xs == [] then NegInfinity
    else
      var front := xs[..|xs| - 1];
      assert forall i :: 0 <= i < |front| ==> front[i] == xs[i];
      Max2(MaxOf(front), xs[|xs| - 1])
  }

  /** Lexicographic string order, comparing characters by code point (the
      order of UTF-8 bytes, which is how the database compares strings). */
  predicate Less(a: string, b: string) {
    if b == [] then false
    else if a == [] then true
    else if a[0] != b[0] then a[0] < b[0]
    else Less(a[1..], b[1..])
  }
}
