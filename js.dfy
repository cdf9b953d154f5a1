/**
 * The slice of JavaScript semantics the services rely on: dynamically typed values,
 * truthiness (`||`, `!x`), nullish coalescing (`??`), property reads that throw on
 * `null`/`undefined`, numeric coercion for `*`, `parseInt(s, 10)`, and `process.env`.
 */
module Js {
  import opened Wrappers

  /** A JavaScript value as it appears in parsed JSON bodies and object literals.
      A number is an integer (`Num`), a finite number that is not an integer
      (`Fractional`, built by `NumberValue`), an infinity, or NaN. */
  datatype Value =
    | Undefined
    | Null
    | Bool(b: bool)
    | Num(n: int)
    | Fractional(x: real)
    | Infinite(negative: bool)
    | NaN
    | Str(s: string)
    | Arr(items: seq<Value>)
    | Obj(props: map<string, Value>)

  /** ToBoolean: the test behind `if (x)`, `!x` and `x || y`. */
  predicate Truthy(v: Value) {
    match v
    case Undefined => false
    case Null => false
    case Bool(b) => b
    case Num(n) => n != 0
    case Fractional(x) => x != 0.0
    case Infinite(_) => true
    case NaN => false
    case Str(s) => s != ""
    case Arr(_) => true
    case Obj(_) => true
  }

  /** `a || b` */
  function Or(a: Value, b: Value): Value {
    if Truthy(a) then a else b
  }

  /** The values `??` replaces. */
  predicate Nullish(v: Value) {
    v.Undefined? || v.Null?
  }

  /** `a ?? b` */
  function Coalesce(a: Value, b: Value): Value {
    if Nullish(a) then b else a
  }

  /** Reading own property `k` of a plain object; a missing key reads `undefined`.
      (The keys the services read are not properties of Object.prototype.) */
  function Prop(m: map<string, Value>, k: string): Value {
    if k in m then m[k] else Undefined
  }

  /** `v.k` (and destructuring `const { k } = v`): a TypeError (None) when `v` is
      `null` or `undefined`, `undefined` on primitives and arrays. */
  function Field(v: Value, k: string): (r: Option<Value>)
    ensures r.None? <==> Nullish(v)
    ensures v.Obj? ==> r == Some(Prop(v.props, k))
  {
    match v
    case Undefined => None
    case Null => None
    case Obj(m) => Some(Prop(m, k))
    case _ => Some(Undefined)
  }

  // ---------------------------------------------------------------- digits

  predicate IsDigit(c: char) {
    '0' <= c <= '9'
  }

  predicate AllDigits(s: string) {
    forall i :: 0 <= i < |s| ==> IsDigit(s[i])
  }

  function DigitValue(c: char): nat
    requires IsDigit(c)
  {
    (c as int) - ('0' as int)
  }

  function DigitChar(d: nat): (c: char)
    requires d < 10
    ensures IsDigit(c) && DigitValue(c) == d
  {
    (('0' as int) + d) as char
  }

  /** The number a string of decimal digits denotes. */
  function DecimalValue(d: string): nat
    requires AllDigits(d)
  {
    if d == [] then 0 else DecimalValue(d[..|d| - 1]) * 10 + DigitValue(d[|d| - 1])
  }

  /** `String(n)` for a non-negative integer. */
  function Decimal(n: nat): (s: string)
    ensures |s| > 0 && AllDigits(s)
  {
    if n < 10 then [DigitChar(n)] else Decimal(n / 10) + [DigitChar(n % 10)]
  }

  /** The longest prefix of `s` made of decimal digits. */
  function DigitPrefix(s: string): (p: string)
    ensures AllDigits(p) && |p| <= |s| && p == s[..|p|]
    ensures |p| < |s| ==> !IsDigit(s[|p|])
  {
    if s == [] || !IsDigit(s[0]) then [] else [s[0]] + DigitPrefix(s[1..])
  }

  // ---------------------------------------------------------------- whitespace

  /** The white space and line terminators that `parseInt` and `Number` trim
      (StrWhiteSpaceChar of ECMAScript: tab, the line breaks, vertical tab, form feed,
      space, no-break space, the byte order mark and the space separators of Unicode). */
  predicate IsSpace(c: char) {
    c == '\t' || c == '\n' || c == '\U{000B}' || c == '\U{000C}' || c == '\r' || c == ' ' ||
    c == '\U{00A0}' || c == '\U{1680}' || '\U{2000}' <= c <= '\U{200A}' ||
    c == '\U{2028}' || c == '\U{2029}' || c == '\U{202F}' || c == '\U{205F}' ||
    c == '\U{3000}' || c == '\U{FEFF}'
  }

  function TrimStart(s: string): (t: string)
    ensures |t| <= |s|
    ensures t != [] ==> !IsSpace(t[0])
    ensures forall i :: 0 <= i < |s| - |t| ==> IsSpace(s[i])
  {
    if s != [] && IsSpace(s[0]) then TrimStart(s[1..]) else s
  }

  function TrimEnd(s: string): (t: string)
    ensures |t| <= |s| && t == s[..|t|]
    ensures t != [] ==> !IsSpace(t[|t| - 1])
  {
    if s != [] && IsSpace(s[|s| - 1]) then TrimEnd(s[..|s| - 1]) else s
  }

  lemma TrimStartOfNonSpace(t: string)
    requires t == [] || !IsSpace(t[0])
    ensures TrimStart(t) == t
  {
  }

  lemma TrimEndOfNonSpace(t: string)
    requires t == [] || !IsSpace(t[|t| - 1])
    ensures TrimEnd(t) == t
  {
  }

  // ---------------------------------------------------------------- parseInt and Number

  /** `parseInt(s, 10)`: skip leading white space, read an optional sign and the
      longest run of digits after it, ignore the rest; NaN (None) when there are no digits. */
  function ParseInt(s: string): Option<int> {
    SignedDigits(TrimStart(s))
  }

  /** What `parseInt` reads after the white space. */
  function SignedDigits(t: string): Option<int> {
    var signed := t != [] && (t[0] == '-' || t[0] == '+');
    var digits := DigitPrefix(if signed then t[1..] else t);
    if digits == [] then None
    else if signed && t[0] == '-' then Some(0 - DecimalValue(digits) as int)
    else Some(DecimalValue(digits))
  }

  /** The number a conversion yields before it becomes a value again: a finite real
      (exact, not rounded to a double), an infinity, or NaN. */
  datatype Numeric = Finite(x: real) | Infinity(negative: bool) | NotANumber

  function Pow10(e: nat): (r: nat)
    ensures r >= 1
  {
    if e == 0 then 1 else 10 * Pow10(e - 1)
  }

  /** `n` times ten to the power `e`. */
  function Scaled(n: nat, e: int): real {
    if e >= 0 then (n * Pow10(e)) as real else n as real / Pow10(-e) as real
  }

  /** The digits of the `0x`, `0o` and `0b` literals. */
  predicate IsRadixDigit(c: char, radix: nat) {
    if radix == 16 then IsDigit(c) || 'a' <= c <= 'f' || 'A' <= c <= 'F'
    else if radix == 8 then '0' <= c <= '7'
    else '0' <= c <= '1'
  }

  function RadixDigitValue(c: char): nat {
    if IsDigit(c) then DigitValue(c)
    else if 'a' <= c <= 'f' then (c as int) - ('a' as int) + 10
    else if 'A' <= c <= 'F' then (c as int) - ('A' as int) + 10
    else 0
  }

  function RadixValue(d: string, radix: nat): nat {
    if d == [] then 0 else RadixValue(d[..|d| - 1], radix) * radix + RadixDigitValue(d[|d| - 1])
  }

  /** The digits after a radix prefix: at least one, all of that radix, no sign. */
  function RadixLiteral(d: string, radix: nat): (r: Numeric)
    ensures r.Finite? || r.NotANumber?
  {
    if d != [] && forall i :: 0 <= i < |d| ==> IsRadixDigit(d[i], radix) then Finite(RadixValue(d, radix) as real)
    else NotANumber
  }

  /** `0x`, `0o` or `0b` (either case) at the start of `t`; 0 when there is none. */
  function RadixPrefix(t: string): nat {
    if |t| < 2 || t[0] != '0' then 0
    else if t[1] == 'x' || t[1] == 'X' then 16
    else if t[1] == 'o' || t[1] == 'O' then 8
    else if t[1] == 'b' || t[1] == 'B' then 2
    else 0
  }

  /** The index of the first `e` or `E` in `s`, or `|s|`. */
  function ExponentAt(s: string): (i: nat)
    ensures i <= |s|
    ensures forall j :: 0 <= j < i ==> s[j] != 'e' && s[j] != 'E'
    ensures i < |s| ==> s[i] == 'e' || s[i] == 'E'
  {
    if s == [] || s[0] == 'e' || s[0] == 'E' then 0 else 1 + ExponentAt(s[1..])
  }

  /** The exponent after `e`: an optional sign and at least one digit. */
  function SignedExponent(s: string): Option<int> {
    var signed := s != [] && (s[0] == '-' || s[0] == '+');
    var digits := if signed then s[1..] else s;
    if digits == [] || !AllDigits(digits) then None
    else if signed && s[0] == '-' then Some(0 - DecimalValue(digits) as int)
    else Some(DecimalValue(digits))
  }

  /** An unsigned decimal literal: digits with an optional `.` and fraction (at least
      one digit in all), then an optional exponent. */
  function UnsignedDecimal(s: string): Option<real> {
    var i := ExponentAt(s);
    var mantissa := s[..i];
    var exponent := if i < |s| then SignedExponent(s[i + 1..]) else Some(0);
    var whole := DigitPrefix(mantissa);
    var rest := mantissa[|whole|..];
    var frac := if rest != [] && rest[0] == '.' then rest[1..] else [];
    if exponent.None? then None
    else if rest != [] && (rest[0] != '.' || !AllDigits(frac)) then None
    else if whole == [] && frac == [] then None
    else Some(Scaled(DecimalValue(whole + frac), exponent.value - |frac|))
  }

  /** `Number(s)`: white space is trimmed from both ends and the blank string is 0; then
      a `0x`/`0o`/`0b` literal without sign, or an optionally signed `Infinity` or
      decimal literal; anything else is NaN. */
  function StringToNumber(s: string): Numeric {
    NumericLiteral(TrimEnd(TrimStart(s)))
  }

  /** The trimmed text `Number` reads. */
  function NumericLiteral(t: string): Numeric {
    var neg := t != [] && t[0] == '-';
    var body := if t != [] && (t[0] == '-' || t[0] == '+') then t[1..] else t;
    if t == [] then Finite(0.0)
    else if RadixPrefix(t) != 0 then RadixLiteral(t[2..], RadixPrefix(t))
    else if body == "Infinity" then Infinity(neg)
    else match UnsignedDecimal(body)
      case Some(x) => Finite(if neg then -x else x)
      case None => NotANumber
  }

  /** ToPrimitive throws a TypeError. A parsed object has no callable property of its
      own, so an own `toString` hides the inherited one and leaves only the inherited
      `valueOf`, which yields the object itself; an array's `join` converts every
      element, at any depth. */
  predicate ToPrimitiveThrows(v: Value)
    decreases v
  {
    match v
    case Obj(props) => "toString" in props
    case Arr(items) => exists i :: 0 <= i < |items| && ToPrimitiveThrows(items[i])
    case _ => false
  }

  /** ToNumber, as applied by `*`, of a value whose conversion does not throw. An array
      becomes the string its elements join to: `""` (0) when empty, the one element's
      text when it has one (`null` and `undefined` give `""`), and text with a comma
      (NaN) otherwise; any other object gives `"[object Object]"` (NaN). */
  function ToNumber(v: Value): Numeric
    requires !ToPrimitiveThrows(v)
    decreases v
  {
    match v
    case Undefined => NotANumber
    case Null => Finite(0.0)
    case Bool(b) => Finite(if b then 1.0 else 0.0)
    case Num(n) => Finite(n as real)
    case Fractional(x) => Finite(x)
    case Infinite(neg) => Infinity(neg)
    case NaN => NotANumber
    case Str(s) => StringToNumber(s)
    case Arr(items) =>
      if items == [] then Finite(0.0)
      else if |items| > 1 then NotANumber
      else (match items[0]
        case Undefined => Finite(0.0)
        case Null => Finite(0.0)
        case Bool(_) => NotANumber
        case Obj(_) => NotANumber
        case _ => ToNumber(items[0]))
    case Obj(_) => NotANumber
  }

  /** `r` is the finite number `x`: an integer `Num`, or a `Fractional` that is not one. */
  predicate Denotes(r: Value, x: real) {
    (r.Num? && r.n as real == x) || (r.Fractional? && r.x == x && x != x.Floor as real)
  }

  /** A value that denotes `x` converts back to `x`. */
  lemma DenotesConverts(r: Value, x: real)
    requires Denotes(r, x)
    ensures ToNumber(r) == Finite(x)
  {
  }

  /** The value of a finite number: an integer is a `Num`. */
  function NumberValue(x: real): (r: Value)
    ensures r.Num? || r.Fractional?
    ensures Denotes(r, x)
    ensures Truthy(r) <==> x != 0.0
  {
    if x == x.Floor as real then Num(x.Floor) else Fractional(x)
  }

  predicate IsNumber(v: Value) {
    v.Num? || v.Fractional? || v.Infinite? || v.NaN?
  }

  /** A converted operand times the integer `k`, as a value. */
  function Product(n: Numeric, k: int): (r: Value)
    ensures IsNumber(r)
    ensures r.NaN? <==> n.NotANumber? || (n.Infinity? && k == 0)
    ensures n.Finite? ==> Denotes(r, n.x * k as real)
    ensures n.Infinity? && k != 0 ==> r == Infinite(n.negative != (k < 0))
  {
    if n.Finite? then NumberValue(n.x * k as real)
    else if n.Infinity? then (if k == 0 then NaN else Infinite(n.negative != (k < 0)))
    else NaN
  }

  /** `v * k` for an integer literal `k`: None where converting the operand throws,
      otherwise the product of the operand's conversion. */
  function Times(v: Value, k: int): (r: Option<Value>)
    ensures r.None? <==> ToPrimitiveThrows(v)
    ensures r.Some? ==> IsNumber(r.value)
    ensures r.Some? ==> (r.value.NaN? <==> ToNumber(v).NotANumber? || (ToNumber(v).Infinity? && k == 0))
    ensures r.Some? && ToNumber(v).Finite? ==> Denotes(r.value, ToNumber(v).x * k as real)
    ensures r.Some? && ToNumber(v).Infinity? && k != 0 ==> r.value == Infinite(ToNumber(v).negative != (k < 0))
    ensures v.Num? ==> r == Some(Num(v.n * k))
  {
    if ToPrimitiveThrows(v) then None
    else if v.Num? then
      ProductOfInteger(ToNumber(v), v.n, k);
      Some(Product(ToNumber(v), k))
    else Some(Product(ToNumber(v), k))
  }

  // ---------------------------------------------------------------- process.env

  /** `process.env`: every variable is a string or absent. */
  type Env = map<string, string>

  /** `process.env[k]` */
  function EnvGet(env: Env, k: string): Option<string> {
    if k in env then Some(env[k]) else None
  }

  /** `process.env[k] || rest`: the empty string falls through like an absent one. */
  function EnvOr(env: Env, k: string, rest: Option<string>): (r: Option<string>)
    ensures k in env && env[k] != "" ==> r == Some(env[k])
    ensures k !in env || env[k] == "" ==> r == rest
  {
    if k in env && env[k] != "" then Some(env[k]) else rest
  }

  /** `process.env[k] || "default"` */
  function EnvOrDefault(env: Env, k: string, default: string): (r: string)
    ensures k !in env ==> r == default
    ensures k in env && env[k] != "" ==> r == env[k]
    ensures k in env && env[k] == "" ==> r == default
  {
    EnvOr(env, k, Some(default)).GetOr(default)
  }

  /** `process.env[k] === s` */
  predicate EnvIs(env: Env, k: string, s: string) {
    k in env && env[k] == s
  }

  /** The text a template literal `${x}` makes of a string or `undefined`. */
  function Template(o: Option<string>): string {
    match o
    case Some(s) => s
    case None => "undefined"
  }

  // ---------------------------------------------------------------- lemmas

  lemma {:induction false} DecimalValueOfDecimal(n: nat)
    ensures DecimalValue(Decimal(n)) == n
  {
    var d := Decimal(n);
    if n < 10 {
      assert d[..|d| - 1] == [];
    } else {
      var hi := Decimal(n / 10);
      assert d == hi + [DigitChar(n % 10)];
      assert d[..|d| - 1] == hi;
      DecimalValueOfDecimal(n / 10);
    }
  }

  lemma {:induction false} DigitPrefixOfDigits(a: string, b: string)
    requires AllDigits(a)
    requires b == [] || !IsDigit(b[0])
    ensures DigitPrefix(a + b) == a
  {
    if a == [] {
      assert a + b == b;
    } else {
      assert (a + b)[1..] == a[1..] + b;
      DigitPrefixOfDigits(a[1..], b);
      assert [a[0]] + a[1..] == a;
    }
  }

  /** `parseInt(String(n) + rest, 10)` reads back `n` when `rest` does not continue
      the digits: a canonical decimal path segment or variable parses to its value. */
  lemma ParseIntOfDecimal(n: nat, rest: string)
    requires rest == [] || !IsDigit(rest[0])
    ensures ParseInt(Decimal(n) + rest) == Some(n)
  {
    var s := Decimal(n) + rest;
    assert s[0] == Decimal(n)[0];
    assert TrimStart(s) == s;
    DigitPrefixOfDigits(Decimal(n), rest);
    DecimalValueOfDecimal(n);
  }

  /** `parseInt("-" + String(n), 10)` is `-n`. */
  lemma ParseIntOfNegative(n: nat)
    ensures ParseInt("-" + Decimal(n)) == Some(0 - n as int)
  {
    var s := "-" + Decimal(n);
    assert s[0] == '-';
    TrimStartOfNonSpace(s);
    assert s[1..] == Decimal(n) + [];
    DigitPrefixOfDigits(Decimal(n), []);
    assert DigitPrefix(s[1..]) == Decimal(n);
    DecimalValueOfDecimal(n);
  }

  /** A string with no digit after its white space and sign is NaN; e.g. the empty string. */
  lemma ParseIntWithoutDigits(s: string)
    ensures var t := TrimStart(s);
            var u := if t != [] && (t[0] == '-' || t[0] == '+') then t[1..] else t;
            ParseInt(s) == None <==> u == [] || !IsDigit(u[0])
  {
  }

  /** Leading white space of any kind, `U+00A0` and `U+FEFF` included, is skipped. */
  lemma {:induction false} TrimStartSkipsWhiteSpace(w: string, s: string)
    requires forall i :: 0 <= i < |w| ==> IsSpace(w[i])
    ensures TrimStart(w + s) == TrimStart(s)
    decreases |w|
  {
    if w != [] {
      assert (w + s)[0] == w[0];
      assert (w + s)[1..] == w[1..] + s;
      TrimStartSkipsWhiteSpace(w[1..], s);
    } else {
      assert w + s == s;
    }
  }

  /** `parseInt(w + s, 10)` is `parseInt(s, 10)` for white space `w`. */
  lemma ParseIntSkipsWhiteSpace(w: string, s: string)
    requires forall i :: 0 <= i < |w| ==> IsSpace(w[i])
    ensures ParseInt(w + s) == ParseInt(s)
  {
    TrimStartSkipsWhiteSpace(w, s);
  }

  /** A no-break space before the digits does not stop `parseInt`. */
  lemma ParseIntAfterNoBreakSpace()
    ensures ParseInt("\U{00A0}5") == Some(5)
  {
    ParseIntSkipsWhiteSpace("\U{00A0}", "5");
    assert "\U{00A0}" + "5" == "\U{00A0}5";
    ParseIntOfDecimal(5, "");
    assert Decimal(5) + "" == "5";
  }

  lemma {:induction false} ExponentAtOfDigits(d: string)
    requires AllDigits(d)
    ensures ExponentAt(d) == |d|
  {
    if d != [] {
      ExponentAtOfDigits(d[1..]);
    }
  }

  /** A run of digits is an unsigned literal with that value. */
  lemma UnsignedOfDigits(d: string)
    requires d != [] && AllDigits(d)
    ensures UnsignedDecimal(d) == Some(DecimalValue(d) as real)
  {
    ExponentAtOfDigits(d);
    assert d[..|d|] == d;
    DigitPrefixOfDigits(d, []);
    assert d + [] == d;
    assert d[|d|..] == [];
  }

  lemma TrimOfDigits(d: string)
    requires d != [] && AllDigits(d)
    ensures TrimEnd(TrimStart(d)) == d
  {
    TrimStartOfNonSpace(d);
    TrimEndOfNonSpace(d);
  }

  lemma LiteralOfDigits(d: string)
    requires d != [] && AllDigits(d)
    ensures NumericLiteral(d) == Finite(DecimalValue(d) as real)
  {
    assert RadixPrefix(d) == 0 by { assert |d| >= 2 ==> IsDigit(d[1]); }
    UnsignedOfDigits(d);
    LiteralOfDecimal(d, DecimalValue(d) as real);
  }

  /** `Number` of a run of decimal digits, leading zeros included, is its value. */
  lemma NumberOfDigits(d: string)
    requires d != [] && AllDigits(d)
    ensures StringToNumber(d) == Finite(DecimalValue(d) as real)
  {
    TrimOfDigits(d);
    LiteralOfDigits(d);
  }

  /** `Number(String(n))` is `n`. */
  lemma NumberOfDecimal(n: nat)
    ensures StringToNumber(Decimal(n)) == Finite(n as real)
  {
    NumberOfDigits(Decimal(n));
    DecimalValueOfDecimal(n);
  }

  lemma RealProduct(x: real, m: int, k: int)
    requires x == m as real
    ensures x * (k as real) == (m * k) as real
  {
  }

  /** The only value that denotes an integer is that `Num`. */
  lemma DenotesInteger(r: Value, i: int)
    requires Denotes(r, i as real)
    ensures r == Num(i)
  {
  }

  lemma ProductOfInteger(n: Numeric, m: int, k: int)
    requires n == Finite(m as real)
    ensures Product(n, k) == Num(m * k)
  {
    RealProduct(n.x, m, k);
    DenotesInteger(Product(n, k), m * k);
  }

  /** An operand that converts to the integer `m` multiplies to the integer `m * k`. */
  lemma TimesOfInteger(v: Value, m: int, k: int)
    requires !ToPrimitiveThrows(v) && ToNumber(v) == Finite(m as real)
    ensures Times(v, k) == Some(Num(m * k))
  {
    var n := ToNumber(v);
    assert Times(v, k) == Some(Product(n, k));
    ProductOfInteger(n, m, k);
  }

  lemma ToNumberOfString(s: string)
    ensures ToNumber(Str(s)) == StringToNumber(s)
  {
  }

  /** A decimal string operand multiplies like the integer it spells. */
  lemma DecimalStringTimes(n: nat, k: int)
    ensures Times(Str(Decimal(n)), k) == Some(Num(n * k))
  {
    var d := Decimal(n);
    NumberOfDecimal(n);
    ToNumberOfString(d);
    TimesOfInteger(Str(d), n, k);
  }

  lemma LiteralOfDecimal(t: string, x: real)
    requires t != [] && IsDigit(t[0]) && RadixPrefix(t) == 0
    requires UnsignedDecimal(t) == Some(x)
    ensures NumericLiteral(t) == Finite(x)
  {
    assert t != "Infinity" by { assert t[0] != "Infinity"[0]; }
  }

  /** Trimmed text that starts like a decimal literal is read by `UnsignedDecimal`. */
  lemma DecimalText(t: string, x: real)
    requires t != [] && IsDigit(t[0]) && !IsSpace(t[|t| - 1]) && RadixPrefix(t) == 0
    requires UnsignedDecimal(t) == Some(x)
    ensures ToNumber(Str(t)) == Finite(x)
  {
    TrimStartOfNonSpace(t);
    TrimEndOfNonSpace(t);
    LiteralOfDecimal(t, x);
    ToNumberOfString(t);
  }

  /** `"1e2" * 100`: an exponent. */
  lemma ExponentOperand()
    ensures Times(Str("1e2"), 100) == Some(Num(10000))
  {
    var t := "1e2";
    assert ExponentAt(t) == 1;
    assert t[..1] == "1" && t[2..] == "2";
    assert DigitPrefix("1") == "1";
    assert "1"[1..] == [];
    assert DecimalValue("1" + []) == 1 by { assert "1" + [] == "1"; }
    assert SignedExponent("2") == Some(2);
    assert UnsignedDecimal(t) == Some(Scaled(1, 2));
    DecimalText(t, 100.0);
    TimesOfInteger(Str(t), 100, 100);
  }

  lemma LiteralOfRadix(t: string)
    requires RadixPrefix(t) != 0
    ensures NumericLiteral(t) == RadixLiteral(t[2..], RadixPrefix(t))
  {
  }

  /** `"0x10" * 100`: a hexadecimal literal. */
  lemma HexOperand()
    ensures Times(Str("0x10"), 100) == Some(Num(1600))
  {
    var t := "0x10";
    TrimStartOfNonSpace(t);
    TrimEndOfNonSpace(t);
    assert RadixPrefix(t) == 16;
    LiteralOfRadix(t);
    assert t[2..] == "10";
    assert RadixValue("10", 16) == 16 by { assert "10"[..1] == "1"; assert "1"[..0] == []; }
    assert RadixLiteral("10", 16) == Finite(16.0);
    ToNumberOfString(t);
    TimesOfInteger(Str(t), 16, 100);
  }

  lemma UnsignedFraction(t: string, whole: char, frac: char)
    requires t == [whole, '.', frac] && IsDigit(whole) && IsDigit(frac)
    ensures UnsignedDecimal(t) == Some(Scaled(DigitValue(whole) * 10 + DigitValue(frac), -1))
  {
    assert ExponentAt(t) == 3;
    assert t[..3] == t;
    assert t[1..] == ['.', frac];
    assert DigitPrefix(t) == [whole] by { assert DigitPrefix(t[1..]) == []; }
    assert t[1..][1..] == [frac];
    var d := [whole] + [frac];
    assert d[..1] == [whole] && d[1] == frac;
    assert DecimalValue([whole]) == DigitValue(whole) by { assert [whole][..0] == []; }
    assert DecimalValue(d) == DigitValue(whole) * 10 + DigitValue(frac);
  }

  /** `"1.0" * 100`: a fraction of zero. */
  lemma ZeroFractionOperand()
    ensures Times(Str("1.0"), 100) == Some(Num(100))
  {
    UnsignedFraction("1.0", '1', '0');
    assert Scaled(10, -1) == 1.0 by { assert Pow10(1) == 10; }
    DecimalText("1.0", 1.0);
    TimesOfInteger(Str("1.0"), 1, 100);
  }

  /** `"1.5" * 100`: a fraction whose product is an integer. */
  lemma FractionOperand()
    ensures Times(Str("1.5"), 100) == Some(Num(150))
  {
    UnsignedFraction("1.5", '1', '5');
    assert Scaled(15, -1) == 1.5 by { assert Pow10(1) == 10; }
    DecimalText("1.5", 1.5);
    var r := Product(Finite(1.5), 100);
    assert Times(Str("1.5"), 100) == Some(r);
    assert Finite(1.5).x * (100 as real) == 150 as real;
    DenotesInteger(r, 150);
  }

  /** `" 2 " * 100` and `"" * 100`: white space around the digits, and the blank string. */
  lemma BlankOperands()
    ensures Times(Str(" 2 "), 100) == Some(Num(200))
    ensures Times(Str(""), 100) == Some(Num(0))
  {
    assert TrimStart(" 2 ") == "2 " by { assert " 2 "[1..] == "2 "; TrimStartOfNonSpace("2 "); }
    assert TrimEnd("2 ") == "2" by { assert "2 "[..1] == "2"; TrimEndOfNonSpace("2"); }
    assert StringToNumber(" 2 ") == StringToNumber("2");
    NumberOfDecimal(2);
    assert Decimal(2) == "2";
    ToNumberOfString(" 2 ");
    TimesOfInteger(Str(" 2 "), 2, 100);
    ToNumberOfString("");
    TimesOfInteger(Str(""), 0, 100);
  }

  /** Array operands convert through the text they join to: `[]` is 0, a one-element
      array is its element (`null` and `undefined` give 0, a boolean NaN), a nested
      array is the inner one, and two or more elements are NaN unless one of them
      throws, which makes the whole conversion throw. */
  lemma ArrayOperands(n: int, b: bool, inner: seq<Value>, items: seq<Value>, k: int)
    ensures Times(Arr([]), k) == Some(Num(0))
    ensures Times(Arr([Num(n)]), k) == Some(Num(n * k))
    ensures Times(Arr([Null]), k) == Some(Num(0)) && Times(Arr([Undefined]), k) == Some(Num(0))
    ensures Times(Arr([Bool(b)]), k) == Some(NaN)
    ensures Times(Arr([Arr(inner)]), k) == Times(Arr(inner), k)
    ensures (exists i :: 0 <= i < |items| && ToPrimitiveThrows(items[i])) ==> Times(Arr(items), k) == None
    ensures |items| > 1 && (forall i :: 0 <= i < |items| ==> !ToPrimitiveThrows(items[i])) ==>
              Times(Arr(items), k) == Some(NaN)
  {
    assert [Bool(b)][0] == Bool(b) && !ToPrimitiveThrows(Arr([Bool(b)]));
    assert ToNumber(Arr([Num(n)])) == Finite(n as real);
    TimesOfInteger(Arr([Num(n)]), n, k);
    assert ToPrimitiveThrows(Arr([Arr(inner)])) <==> ToPrimitiveThrows(Arr(inner)) by {
      assert [Arr(inner)][0] == Arr(inner);
    }
  }

  /** An object operand throws when it has an own `toString` and is NaN otherwise, alone
      or as the one element of an array. */
  lemma ObjectOperands(props: map<string, Value>, k: int)
    ensures Times(Obj(props), k) == if "toString" in props then None else Some(NaN)
    ensures Times(Arr([Obj(props)]), k) == Times(Obj(props), k)
  {
    assert ToPrimitiveThrows(Arr([Obj(props)])) <==> ToPrimitiveThrows(Obj(props)) by {
      assert [Obj(props)][0] == Obj(props);
    }
  }
}
