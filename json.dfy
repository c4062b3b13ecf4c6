/** JSON values (RFC 8259) as the JavaScript code sees them after
    `JSON.parse`, with the handful of JavaScript coercions the source relies on:
    truthiness, `typeof`, property reads, `String(v)` and loose equality.
    `JSON.parse` and `JSON.stringify` themselves are not modelled; they enter
    as a `Codec` value. */
module Json {
  import opened Base

  /** A parsed JSON value. Numbers are integers in this model. */
  datatype Json =
    | JNull
    | JBool(b: bool)
    | JNumber(n: int)
    | JString(s: string)
    | JArray(items: seq<Json>)
    | JObject(fields: map<string, Json>)

  /** Property read `v[key]` on a value that is not null; `None` is `undefined`.
      Built-in properties such as `length` are not modelled. */
  function Prop(v: Json, key: string): (r: Option<Json>)
    ensures r.Some? ==> v.JObject? && key in v.fields && r.value == v.fields[key]
    ensures v.JObject? && key in v.fields ==> r.Some?
  {
    if v.JObject? && key in v.fields then Some(v.fields[key]) else None
  }

  /** JavaScript truthiness of a possibly `undefined` value. */
  predicate Truthy(v: Option<Json>) {
    match v
    case None => false
    case Some(j) =>
      match j
      case JNull => false
      case JBool(b) => b
      case JNumber(n) => n != 0
      case JString(s) => s != ""
      case _ => true
  }

  predicate IsString(v: Option<Json>) {
    v.Some? && v.value.JString?
  }

  predicate IsNumber(v: Option<Json>) {
    v.Some? && v.value.JNumber?
  }

  /** `!v && typeof v !== "string"`: the source's test for an absent message
      field. The empty string counts as present. */
  predicate Missing(v: Option<Json>) {
    !Truthy(v) && !IsString(v)
  }

  lemma MissingCases(v: Option<Json>)
    ensures Missing(v) <==> v == None || v == Some(JNull) || v == Some(JBool(false)) || v == Some(JNumber(0))
  {
  }

  /** `typeof v === "object" && v !== null`: objects and arrays. */
  predicate IsObjectValue(j: Json) {
    j.JObject? || j.JArray?
  }

  /** `String(v)`. Arrays join their elements with "," (null and undefined
      elements give ""), plain objects give "[object Object]". */
  function JsString(v: Option<Json>): string {
    match v
    case None => "undefined"
    case Some(j) => ValueString(j)
  }

  function ValueString(j: Json): string {
    match j
    case JNull => "null"
    case JBool(b) => if b then "true" else "false"
    case JNumber(n) => IntToString(n)
    case JString(s) => s
    case JArray(items) => Join(items)
    case JObject(_) => "[object Object]"
  }

  function Join(items: seq<Json>): string
    decreases items
  {
    if items == [] then ""
    else
      var head := if items[0] == JNull then "" else ValueString(items[0]);
      if |items| == 1 then head else head + "," + Join(items[1..])
  }

  /** Loose equality `==` between two primitive, non-null values. A boolean
      is compared as the number 0 or 1. A number and a string are equal when
      the string, converted to a number, is that number. */
  predicate PrimitiveEq(x: Json, y: Json)
    requires !IsObjectValue(x) && !IsObjectValue(y) && x != JNull && y != JNull
    decreases (if x.JBool? then 2 else 0) + (if y.JBool? then 1 else 0)
  {
    if x.JBool? then PrimitiveEq(JNumber(if x.b then 1 else 0), y)
    else if y.JBool? then PrimitiveEq(x, JNumber(if y.b then 1 else 0))
    else if x.JNumber? && y.JNumber? then x.n == y.n
    else if x.JString? && y.JString? then x.s == y.s
    else if x.JNumber? then StringToInteger(y.s) == Some(x.n)
    else StringToInteger(x.s) == Some(y.n)
  }

  /** Loose equality `a == b` between two values that come from separate
      parses. `null` and `undefined` equal each other and nothing else; two
      objects are distinct references and never equal; an object against a
      primitive is compared through its string form. */
  predicate LooseEq(a: Option<Json>, b: Option<Json>) {
    var aNullish := a == None || a == Some(JNull);
    var bNullish := b == None || b == Some(JNull);
    if aNullish || bNullish then aNullish && bNullish
    else if IsObjectValue(a.value) && IsObjectValue(b.value) then false
    else if IsObjectValue(a.value) then PrimitiveEq(JString(ValueString(a.value)), b.value)
    else if IsObjectValue(b.value) then PrimitiveEq(a.value, JString(ValueString(b.value)))
    else PrimitiveEq(a.value, b.value)
  }

  /** Loose equality with a string agrees with string equality when the
      other side is a string too, and a nullish value never equals a string. */
  lemma LooseEqString(v: Option<Json>, s: string)
    ensures IsString(v) ==> (LooseEq(v, Some(JString(s))) <==> v.value.s == s)
    ensures v == None || v == Some(JNull) ==> !LooseEq(v, Some(JString(s)))
  {
  }

  /** The two foreign primitives `JSON.parse` (None for a syntax error) and
      `JSON.stringify`. */
  datatype Codec = Codec(parse: string -> Option<Json>, stringify: Json -> string)

  /** `JSON.parse(JSON.stringify(v))` gives back `v`. */
  ghost predicate RoundTrips(c: Codec) {
    forall j :: c.parse(c.stringify(j)) == Some(j)
  }

  /** `JSON.stringify` never emits a raw line feed and starts and ends with a
      non-whitespace character (it escapes control characters in strings and
      adds no indentation when called without a `space` argument). */
  ghost predicate SingleLine(c: Codec) {
    forall j :: var t := c.stringify(j);
      |t| > 0 && '\n' !in t && !IsSpace(t[0]) && !IsSpace(t[|t| - 1])
  }

  /** The characters `String.prototype.trim` removes: white space and line
      terminators. */
  predicate IsSpace(c: char) {
    c == '\t' || c == '\n' || c == '\U{B}' || c == '\U{C}' || c == '\r' || c == ' '
    || c == '\U{A0}' || c == '\U{1680}' || ('\U{2000}' <= c <= '\U{200A}')
    || c == '\U{2028}' || c == '\U{2029}' || c == '\U{202F}' || c == '\U{205F}'
    || c == '\U{3000}' || c == '\U{FEFF}'
  }

  function TrimStart(s: string): (r: string)
    ensures |r| <= |s| && r == s[|s| - |r|..]
    ensures r != [] ==> !IsSpace(r[0])
    ensures forall i :: 0 <= i < |s| - |r| ==> IsSpace(s[i])
  {
    if s != [] && IsSpace(s[0]) then
      var r := TrimStart(s[1..]);
      assert s[1..][|s| - 1 - |r|..] == s[|s| - |r|..];
      r
    else s
  }

  function TrimEnd(s: string): (r: string)
    ensures |r| <= |s| && r == s[..|r|]
    ensures r != [] ==> !IsSpace(r[|r| - 1])
    ensures forall i :: |r| <= i < |s| ==> IsSpace(s[i])
  {
    if s != [] && IsSpace(s[|s| - 1]) then
      var r := TrimEnd(s[..|s| - 1]);
      assert s[..|s| - 1][..|r|] == s[..|r|];
      r
    else s
  }

  /** `s.trim()`. */
  function Trim(s: string): string {
    TrimEnd(TrimStart(s))
  }

  /** `trim` gives "" exactly for a string made only of white space, and
      leaves a string alone whose ends are not white space. */
  lemma TrimEmpty(s: string)
    ensures Trim(s) == [] <==> forall i :: 0 <= i < |s| ==> IsSpace(s[i])
  {
    if forall i :: 0 <= i < |s| ==> IsSpace(s[i]) {
      TrimStartAllSpace(s);
    }
  }

  lemma {:induction false} TrimStartAllSpace(s: string)
    requires forall i :: 0 <= i < |s| ==> IsSpace(s[i])
    ensures TrimStart(s) == []
  {
    if s != [] {
      TrimStartAllSpace(s[1..]);
    }
  }

  lemma TrimUnchanged(s: string)
    requires s != [] && !IsSpace(s[0]) && !IsSpace(s[|s| - 1])
    ensures Trim(s) == s
  {
  }

  /** The value of a hexadecimal, decimal, octal or binary digit; 16 for
      any other character. */
  function DigitValue(c: char): (d: nat)
    ensures d <= 16
  {
    if '0' <= c <= '9' then c as int - '0' as int
    else if 'a' <= c <= 'f' then c as int - 'a' as int + 10
    else if 'A' <= c <= 'F' then c as int - 'A' as int + 10
    else 16
  }

  /** Every character of `s` is a digit in `base`. */
  predicate AllDigits(s: string, base: nat) {
    s == [] || (AllDigits(s[..|s| - 1], base) && DigitValue(s[|s| - 1]) < base)
  }

  lemma {:induction false} AllDigitsAppend(a: string, b: string, base: nat)
    requires AllDigits(a, base) && AllDigits(b, base)
    ensures AllDigits(a + b, base)
    decreases |b|
  {
    if b == [] {
      assert a + b == a;
    } else {
      assert (a + b)[..|a + b| - 1] == a + b[..|b| - 1];
      AllDigitsAppend(a, b[..|b| - 1], base);
    }
  }

  /** The value of a run of digits in `base`, most significant first. */
  function DigitsValue(s: string, base: nat): nat
    requires AllDigits(s, base)
  {
    if s == [] then 0 else DigitsValue(s[..|s| - 1], base) * base + DigitValue(s[|s| - 1])
  }

  /** The position of the first `c` in `s`, or `|s|` when there is none. */
  function FindChar(s: string, c: char): (i: nat)
    ensures i <= |s| && (i < |s| ==> s[i] == c)
    ensures forall k :: 0 <= k < i ==> s[k] != c
  {
    if s == [] || s[0] == c then 0 else 1 + FindChar(s[1..], c)
  }

  /** The signed digits of an exponent part. */
  function ExponentValue(e: string): Option<int> {
    if e != [] && (e[0] == '+' || e[0] == '-') then
      if e[1..] != [] && AllDigits(e[1..], 10) then
        var v: int := DigitsValue(e[1..], 10);
        Some(if e[0] == '-' then -v else v)
      else None
    else if e != [] && AllDigits(e, 10) then Some(DigitsValue(e, 10))
    else None
  }

  /** `m` times ten to the `k`, when that is an integer: each step up
      multiplies by ten, each step down divides by ten and needs a zero
      last digit. */
  function Scale(m: nat, k: int): (r: Option<int>)
    ensures k == 0 ==> r == Some(m)
    ensures m == 0 ==> r == Some(0)
    decreases if k < 0 then -k else k
  {
    if k == 0 then Some(m)
    else if k > 0 then
      match Scale(m, k - 1)
      case Some(v) => Some(10 * v)
      case None => None
    else if m % 10 == 0 then Scale(m / 10, k + 1)
    else None
  }

  /** An unsigned decimal literal: digits with an optional fraction, or a
      fraction alone, then an optional exponent. `Infinity` is not an
      integer and gives None like any other text. */
  function UnsignedDecimal(u: string): Option<int> {
    var p := if FindChar(u, 'e') < FindChar(u, 'E') then FindChar(u, 'e') else FindChar(u, 'E');
    var mantissa := u[..p];
    var exponent := if p < |u| then ExponentValue(u[p + 1..]) else Some(0);
    var d := FindChar(mantissa, '.');
    var whole := mantissa[..d];
    var frac := if d < |mantissa| then mantissa[d + 1..] else "";
    if exponent.None? || !AllDigits(whole, 10) || !AllDigits(frac, 10) || |whole| + |frac| == 0 then None
    else
      AllDigitsAppend(whole, frac, 10);
      Scale(DigitsValue(whole + frac, 10), exponent.value - |frac|)
  }

  /** The base a second character `x`, `o` or `b` (either case) selects
      after a leading `0`; 0 for any other character. */
  function RadixOf(c: char): nat {
    if c == 'x' || c == 'X' then 16
    else if c == 'o' || c == 'O' then 8
    else if c == 'b' || c == 'B' then 2
    else 0
  }

  /** A trimmed, non-empty text: prefixed unsigned digits in base 16, 8 or
      2, or a signed decimal literal. */
  function NumericText(t: string): Option<int>
    requires t != []
  {
    if |t| > 2 && t[0] == '0' && RadixOf(t[1]) != 0 then
      if AllDigits(t[2..], RadixOf(t[1])) then Some(DigitsValue(t[2..], RadixOf(t[1]))) else None
    else if t[0] == '-' then
      match UnsignedDecimal(t[1..])
      case Some(n) => Some(-n)
      case None => None
    else if t[0] == '+' then UnsignedDecimal(t[1..])
    else UnsignedDecimal(t)
  }

  /** The string-to-number conversion loose equality applies to a string
      it compares with a number: surrounding white space is trimmed, the
      empty string is 0, `0x`, `0o` and `0b` prefix unsigned digits in base
      16, 8 and 2, and anything else is a signed decimal literal. Some(n)
      when the text denotes exactly the integer `n`; None when it denotes
      NaN, an infinity or a fraction, none of which equals an integer. */
  function StringToInteger(s: string): Option<int> {
    var t := Trim(s);
    if t == [] then Some(0) else NumericText(t)
  }

  /** A digit character reads back as its digit. */
  lemma DigitCharValue(d: nat)
    requires d < 10
    ensures DigitValue(DigitChar(d)) == d
  {
  }

  lemma {:induction false} DigitsOfNat(n: nat)
    ensures AllDigits(NatToString(n), 10) && DigitsValue(NatToString(n), 10) == n
  {
    var s := NatToString(n);
    if n < 10 {
      DigitCharValue(n);
      assert s == [DigitChar(n)] && s[..0] == [];
    } else {
      DigitsOfNat(n / 10);
      assert s[..|s| - 1] == NatToString(n / 10);
      assert s[|s| - 1] == DigitChar(n % 10);
      DigitCharValue(n % 10);
    }
  }

  lemma UnsignedDecimalOfNat(n: nat)
    ensures UnsignedDecimal(NatToString(n)) == Some(n)
  {
    var u := NatToString(n);
    DigitsOfNat(n);
    assert FindChar(u, 'e') == |u|;
    assert FindChar(u, 'E') == |u|;
    assert u[..|u|] == u;
    assert FindChar(u, '.') == |u|;
    assert u + "" == u;
  }

  /** A text whose ends are not white space converts through its numeric
      reading alone. */
  lemma TrimmedText(s: string)
    requires s != [] && !IsSpace(s[0]) && !IsSpace(s[|s| - 1])
    ensures StringToInteger(s) == NumericText(s)
  {
    TrimUnchanged(s);
  }

  /** A text that starts with two decimal digits, or is one digit long, is
      read as an unsigned decimal literal. */
  lemma DecimalText(t: string)
    requires t != [] && '0' <= t[0] <= '9' && (|t| > 1 ==> '0' <= t[1] <= '9')
    ensures NumericText(t) == UnsignedDecimal(t)
  {
    if |t| > 2 {
      assert RadixOf(t[1]) == 0;
    }
  }

  lemma NatTextReadsBack(n: nat)
    ensures NumericText(NatToString(n)) == Some(n)
  {
    DecimalText(NatToString(n));
    UnsignedDecimalOfNat(n);
  }

  /** A minus sign followed by the digits of `m` reads as `-m`. */
  lemma NegativeTextReadsBack(s: string, m: nat)
    requires s != [] && s[0] == '-' && s[1..] == NatToString(m)
    ensures NumericText(s) == Some(-(m as int))
  {
    assert s[1] == s[1..][0];
    UnsignedDecimalOfNat(m);
  }

  lemma DigitNotSpace(c: char)
    requires '0' <= c <= '9'
    ensures !IsSpace(c)
  {
  }

  lemma NegativeIntReadsBack(s: string, m: nat)
    requires s != [] && s[0] == '-' && s[1..] == NatToString(m)
    ensures StringToInteger(s) == Some(-(m as int))
  {
    assert s[|s| - 1] == s[1..][|s| - 2];
    DigitNotSpace(s[|s| - 1]);
    TrimmedText(s);
    NegativeTextReadsBack(s, m);
  }

  lemma NatReadsBack(n: nat)
    ensures StringToInteger(NatToString(n)) == Some(n)
  {
    var d := NatToString(n);
    DigitNotSpace(d[0]);
    DigitNotSpace(d[|d| - 1]);
    TrimmedText(d);
    NatTextReadsBack(n);
  }

  /** The conversion reads a number's own decimal form back, so a number
      loosely equals its string form. */
  lemma IntToStringReadsBack(n: int)
    ensures StringToInteger(IntToString(n)) == Some(n)
  {
    if n < 0 {
      var s := IntToString(n);
      assert s[1..] == NatToString(-n);
      NegativeIntReadsBack(s, -n);
    } else {
      NatReadsBack(n);
    }
  }

  /** A number and a string are loosely equal exactly when the string
      converts to the number, and a boolean first becomes 0 or 1. */
  lemma LooseEqNumberString(n: int, b: bool, s: string)
    ensures LooseEq(Some(JNumber(n)), Some(JString(s))) <==> StringToInteger(s) == Some(n)
    ensures LooseEq(Some(JBool(b)), Some(JString(s))) <==> StringToInteger(s) == Some(if b then 1 else 0)
  {
    NumberStringEq(n, s);
    NumberStringEq(if b then 1 else 0, s);
    assert PrimitiveEq(JBool(b), JString(s)) == PrimitiveEq(JNumber(if b then 1 else 0), JString(s));
  }

  lemma NumberStringEq(n: int, s: string)
    ensures PrimitiveEq(JNumber(n), JString(s)) == (StringToInteger(s) == Some(n))
  {
  }

  lemma FortyTwo()
    ensures UnsignedDecimal("042") == Some(42)
  {
    var u := "042";
    assert FindChar(u, 'e') == 3 && FindChar(u, 'E') == 3 && FindChar(u, '.') == 3;
    assert u[..3] == u;
    assert u + "" == u;
    assert u[..2] == "04" && "04"[..1] == "0" && "0"[..0] == "";
    assert DigitsValue(u, 10) == 42;
  }

  lemma FortyTwoText()
    ensures StringToInteger("042") == Some(42)
  {
    var t := "042";
    FortyTwo();
    DigitNotSpace(t[0]);
    DigitNotSpace(t[2]);
    TrimmedText(t);
    DecimalText(t);
  }

  /** Leading zeros still denote the integer. */
  lemma LeadingZeroEquals()
    ensures LooseEq(Some(JNumber(42)), Some(JString("042")))
  {
    FortyTwoText();
    LooseEqNumberString(42, true, "042");
  }

  /** A leading white space character does not change the conversion. */
  lemma LeadingSpaceIgnored(c: char, u: string)
    requires IsSpace(c)
    ensures StringToInteger([c] + u) == StringToInteger(u)
  {
    assert ([c] + u)[1..] == u;
  }

  lemma ZeroOne()
    ensures UnsignedDecimal("01") == Some(1)
  {
    var u := "01";
    assert FindChar(u, 'e') == 2 && FindChar(u, 'E') == 2 && FindChar(u, '.') == 2;
    assert u[..2] == u && u + "" == u;
    assert u[..1] == "0" && "0"[..0] == "";
  }

  /** A boolean compares as 0 or 1: `true == "01"`. */
  lemma TrueEqualsOne()
    ensures LooseEq(Some(JBool(true)), Some(JString("01")))
  {
    var u := "01";
    ZeroOne();
    DigitNotSpace(u[0]);
    DigitNotSpace(u[1]);
    TrimmedText(u);
    DecimalText(u);
    LooseEqNumberString(1, true, u);
  }
}
