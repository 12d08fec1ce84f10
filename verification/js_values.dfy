/** JavaScript values as the purchase router receives them from a urlencoded form
    (index.js:37 installs body-parser with `extended: false`, so a field is a string,
    or an array of strings when its key repeats), and the built-in operations the
    router applies to them: `String(x)`, truthiness, `x[0]`, `x.shift()`,
    `parseInt(x, 10)` and the NaN test behind `parseFloat(x).toFixed(2)`. */
module JsValues {

  datatype Option<+T> = None | Some(value: T)

  /** A primitive JavaScript value. Numbers are the integers the router produces. */
  datatype Prim = Undefined | Null | Str(s: string) | Num(n: int)

  /** A request-body value: one primitive, or an array of primitives. */
  datatype Value = Scalar(p: Prim) | List(items: seq<Prim>)

  /** How an expression completes: with a value, or by throwing a TypeError. */
  datatype Eval<+T> = Returns(value: T) | Throws {
    predicate IsFailure() { Throws? }
    function PropagateFailure<U>(): Eval<U> requires Throws? { Throws }
    function Extract(): T requires Returns? { value }
  }

  /** A form field that was not submitted. */
  const Absent: Value := Scalar(Undefined)
  /** A form field submitted empty. */
  const EmptyString: Value := Scalar(Str(""))

  // ----- characters -----

  predicate IsDigit(c: char) { '0' <= c <= '9' }

  /** The characters `String.prototype.trimStart` (and so `parseInt`/`parseFloat`)
      skip: WhiteSpace and LineTerminator of ECMAScript. */
  predicate IsJsSpace(c: char) {
    c == '\t' || c == '\n' || c == '\U{B}' || c == '\U{C}' || c == '\r' || c == ' '
    || c == '\U{A0}' || c == '\U{1680}' || ('\U{2000}' <= c <= '\U{200A}')
    || c == '\U{2028}' || c == '\U{2029}' || c == '\U{202F}' || c == '\U{205F}'
    || c == '\U{3000}' || c == '\U{FEFF}'
  }

  function DigitChar(d: nat): (c: char)
    requires d < 10
    ensures IsDigit(c) && c as int - '0' as int == d
  {
    ['0', '1', '2', '3', '4', '5', '6', '7', '8', '9'][d]
  }

  // ----- String(x) -----

  /** Decimal digits of a natural number, without leading zeros. */
  function NatDecimal(n: nat): (r: string)
    ensures r != []
    ensures forall i :: 0 <= i < |r| ==> IsDigit(r[i])
  {
    if n < 10 then [DigitChar(n)] else NatDecimal(n / 10) + [DigitChar(n % 10)]
  }

  /** `String(n)` for an integer number (below 10^21 in magnitude in JavaScript). */
  function Decimal(n: int): string {
    if n < 0 then "-" + NatDecimal(-n) else NatDecimal(n)
  }

  /** `String(p)`. */
  function PrimString(p: Prim): string {
    match p
    case Undefined => "undefined"
    case Null => "null"
    case Str(s) => s
    case Num(n) => Decimal(n)
  }

  /** An array element as `Array.prototype.join` renders it. */
  function ElementString(p: Prim): string {
    if p.Undefined? || p.Null? then "" else PrimString(p)
  }

  function JoinWithCommas(items: seq<Prim>): string {
    if items == [] then ""
    else if |items| == 1 then ElementString(items[0])
    else ElementString(items[0]) + "," + JoinWithCommas(items[1..])
  }

  /** `String(v)`: an array converts to its elements joined by commas. */
  function ValueString(v: Value): string {
    match v
    case Scalar(p) => PrimString(p)
    case List(items) => JoinWithCommas(items)
  }

  // ----- truthiness, indexing, shift -----

  predicate Truthy(p: Prim) {
    match p
    case Undefined => false
    case Null => false
    case Str(s) => s != ""
    case Num(n) => n != 0
  }

  /** Every array, even an empty one, is truthy. */
  predicate ValueTruthy(v: Value) {
    match v
    case Scalar(p) => Truthy(p)
    case List(_) => true
  }

  /** `v[0]`: throws on undefined and null, gives the first character of a string,
      undefined for a number and for an empty string or array. */
  function At0(v: Value): (r: Eval<Prim>)
    ensures r == Throws <==> v == Absent || v == Scalar(Null)
    ensures r == Returns(Str("")) ==> v.List? && v.items != [] && v.items[0] == Str("")
  {
    match v
    case Scalar(Undefined) => Throws
    case Scalar(Null) => Throws
    case Scalar(Str(s)) => Returns(if s == "" then Undefined else Str([s[0]]))
    case Scalar(Num(_)) => Returns(Undefined)
    case List(items) => Returns(if items == [] then Undefined else items[0])
  }

  /** `v.shift()`, as the new value of `v`: only arrays have a `shift` method. */
  function Shift(v: Value): (r: Eval<Value>)
    ensures r.Returns? <==> v.List?
    ensures v.List? && v.items != [] ==> r == Returns(List(v.items[1..]))
    ensures v == List([]) ==> r == Returns(v)
  {
    match v
    case Scalar(_) => Throws
    case List(items) => Returns(List(if items == [] then [] else items[1..]))
  }

  // ----- parseInt(s, 10) -----

  /** `s` without its leading JavaScript white space. */
  function TrimStart(s: string): (r: string)
    ensures |r| <= |s| && r == s[|s| - |r|..]
    ensures r == [] || !IsJsSpace(r[0])
    ensures forall i :: 0 <= i < |s| - |r| ==> IsJsSpace(s[i])
  {
    if s != [] && IsJsSpace(s[0]) then TrimStart(s[1..]) else s
  }

  /** The longest prefix of `s` made of decimal digits. */
  function DigitPrefix(s: string): (r: string)
    ensures r <= s
    ensures forall i :: 0 <= i < |r| ==> IsDigit(r[i])
    ensures |r| == |s| || !IsDigit(s[|r|])
  {
    if s != [] && IsDigit(s[0]) then [s[0]] + DigitPrefix(s[1..]) else []
  }

  function DigitValue(c: char): nat
    requires IsDigit(c)
  {
    c as int - '0' as int
  }

  function DigitsValue(ds: string): nat
    requires forall i :: 0 <= i < |ds| ==> IsDigit(ds[i])
  {
    if ds == [] then 0
    else DigitsValue(ds[..|ds| - 1]) * 10 + DigitValue(ds[|ds| - 1])
  }

  /** `parseInt(s, 10)`: skip white space, read one optional sign, then the longest
      run of decimal digits; None stands for NaN (no digit there). It reads a number
      exactly when the first character after the white space is a digit, or a sign
      followed by a digit, and the number is negative only after a minus sign. */
  function ParseInt(s: string): (r: Option<int>)
    ensures var t := TrimStart(s);
      r.Some? <==> (t != [] && IsDigit(t[0])) || (|t| >= 2 && (t[0] == '+' || t[0] == '-') && IsDigit(t[1]))
    ensures r.Some? && r.value < 0 ==> TrimStart(s)[0] == '-'
  {
    ParseSigned(TrimStart(s))
  }

  /** `parseInt` once the white space is gone. */
  function ParseSigned(t: string): Option<int> {
    var negative := t != [] && t[0] == '-';
    var unsigned := if t != [] && (t[0] == '-' || t[0] == '+') then t[1..] else t;
    var digits := DigitPrefix(unsigned);
    if digits == [] then None
    else
      var magnitude: int := DigitsValue(digits);
      Some(if negative then -magnitude else magnitude)
  }

  // ----- parseFloat(s) is NaN -----

  /** Whether `parseFloat(s)` reads a number (a StrDecimalLiteral prefix after
      white space): a sign, then "Infinity", a digit, or a point followed by a digit.
      Exactly when this fails, `parseFloat(s).toFixed(2)` is the string "NaN".
      Whatever `parseInt` reads, `parseFloat` reads too; a leading point is read
      only by `parseFloat`. */
  function ParsesAsFloat(s: string): (parses: bool)
    ensures ParseInt(s).Some? ==> parses
    ensures var t := TrimStart(s); |t| >= 2 && t[0] == '.' && IsDigit(t[1]) ==> parses && ParseInt(s).None?
  {
    var t := TrimStart(s);
    var u := if t != [] && (t[0] == '+' || t[0] == '-') then t[1..] else t;
    (u != [] && IsDigit(u[0])) || (|u| >= 2 && u[0] == '.' && IsDigit(u[1])) || "Infinity" <= u
  }

  // ----- lemmas -----

  lemma {:induction false} DigitPrefixOfDigits(ds: string, rest: string)
    requires forall i :: 0 <= i < |ds| ==> IsDigit(ds[i])
    requires rest == [] || !IsDigit(rest[0])
    ensures DigitPrefix(ds + rest) == ds
  {
    if ds == [] {
      assert ds + rest == rest;
    } else {
      assert (ds + rest)[1..] == ds[1..] + rest;
      DigitPrefixOfDigits(ds[1..], rest);
      assert [ds[0]] + ds[1..] == ds;
    }
  }

  lemma {:induction false} DigitsValueOfDecimal(n: nat)
    ensures DigitsValue(NatDecimal(n)) == n
  {
    if n >= 10 {
      var ds := NatDecimal(n / 10) + [DigitChar(n % 10)];
      assert ds[..|ds| - 1] == NatDecimal(n / 10);
      DigitsValueOfDecimal(n / 10);
    }
  }

  lemma {:induction false} TrimStartAfterSpace(ws: string, t: string)
    requires forall i :: 0 <= i < |ws| ==> IsJsSpace(ws[i])
    ensures TrimStart(ws + t) == TrimStart(t)
  {
    if ws == [] {
      assert ws + t == t;
    } else {
      assert (ws + t)[0] == ws[0];
      assert (ws + t)[1..] == ws[1..] + t;
      TrimStartAfterSpace(ws[1..], t);
    }
  }

  /** Leading white space never changes what `parseInt` reads. */
  lemma ParseIntSkipsSpace(ws: string, t: string)
    requires forall i :: 0 <= i < |ws| ==> IsJsSpace(ws[i])
    ensures ParseInt(ws + t) == ParseInt(t)
  {
    TrimStartAfterSpace(ws, t);
  }

  lemma UnsignedDigitsRead(digits: string, rest: string)
    requires digits != [] && forall i :: 0 <= i < |digits| ==> IsDigit(digits[i])
    requires rest == [] || !IsDigit(rest[0])
    ensures ParseSigned(digits + rest) == Some(DigitsValue(digits))
  {
    var t := digits + rest;
    assert t[0] == digits[0];
    assert t[0] != '-' && t[0] != '+';
    DigitPrefixOfDigits(digits, rest);
  }

  lemma NegativeDigitsRead(digits: string, rest: string)
    requires digits != [] && forall i :: 0 <= i < |digits| ==> IsDigit(digits[i])
    requires rest == [] || !IsDigit(rest[0])
    ensures ParseSigned("-" + digits + rest) == Some(0 - DigitsValue(digits))
  {
    var u := digits + rest;
    var t := "-" + u;
    assert "-" + digits + rest == t;
    assert t[1..] == u;
    DigitPrefixOfDigits(digits, rest);
    MinusThenDigitsRead(t, u, digits);
  }

  lemma MinusThenDigitsRead(t: string, u: string, digits: string)
    requires t != [] && t[0] == '-' && t[1..] == u
    requires digits != [] && DigitPrefix(u) == digits
    requires forall i :: 0 <= i < |digits| ==> IsDigit(digits[i])
    ensures ParseSigned(t) == Some(0 - DigitsValue(digits))
  {
  }

  lemma DecimalReadsBack(n: int, rest: string)
    requires rest == [] || !IsDigit(rest[0])
    ensures ParseInt(Decimal(n) + rest) == Some(n)
  {
    var m: nat := if n < 0 then -n else n;
    var digits := NatDecimal(m);
    var body := Decimal(n) + rest;
    assert IsDigit(digits[0]);
    assert body[0] == if n < 0 then '-' else digits[0];
    assert !IsJsSpace(body[0]);
    assert TrimStart(body) == body;
    if n < 0 {
      assert body == "-" + digits + rest;
      NegativeDigitsRead(digits, rest);
    } else {
      UnsignedDigitsRead(digits, rest);
    }
    DigitsValueOfDecimal(m);
  }

  /** `parseInt` reads back the integer `String` wrote, whatever white space comes
      before it and whatever non-digit text follows it ("  12px" reads 12). */
  lemma ParseIntReadsDecimal(ws: string, n: int, rest: string)
    requires forall i :: 0 <= i < |ws| ==> IsJsSpace(ws[i])
    requires rest == [] || !IsDigit(rest[0])
    ensures ParseInt(ws + Decimal(n) + rest) == Some(n)
  {
    assert ws + Decimal(n) + rest == ws + (Decimal(n) + rest);
    ParseIntSkipsSpace(ws, Decimal(n) + rest);
    DecimalReadsBack(n, rest);
  }

  /** Round trip: `parseInt(String(n), 10) == n` for every integer. */
  lemma ParseIntDecimalRoundTrip(n: int)
    ensures ParseInt(Decimal(n)) == Some(n)
  {
    ParseIntReadsDecimal("", n, "");
    assert "" + Decimal(n) + "" == Decimal(n);
  }
}
