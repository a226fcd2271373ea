/** JavaScript values as the application handles them: the values held in form
    state and in stored documents, JavaScript truthiness and `||`, the coercion
    `Number(value)` that the validators apply, and `String.prototype.startsWith`. */
module JsValues {

  datatype Option<+T> = None | Some(value: T)

  /** A value held in a form field or in a field of a stored document.
      A key missing from a document stands for `undefined`. */
  datatype Value =
    | Str(s: string)
    | Num(x: real)
    | Bool(b: bool)
    | Null
    | ServerTimestamp                 // the opaque token `serverTimestamp()` stands for
    | Measures(m: map<string, real>)  // a nested object of numbers (the `measurements` field)

  /** A document or a form-state record: field name to value. */
  type Doc = map<string, Value>

  /** `obj.field`: `None` when the field is undefined. */
  function Field(d: Doc, k: string): Option<Value>
  {
    if k in d then Some(d[k]) else None
  }

  /** JavaScript truthiness: the empty string, 0, false and null are falsy; objects are truthy. */
  predicate Truthy(v: Value)
  {
    match v
    case Str(s) => s != ""
    case Num(x) => x != 0.0
    case Bool(b) => b
    case Null => false
    case ServerTimestamp => true
    case Measures(_) => true
  }

  /** `a || b` where `a` may be undefined. */
  function Or(a: Option<Value>, b: Value): Value
  {
    if a.Some? && Truthy(a.value) then a.value else b
  }

  /** `s || fallback` on a nullable string (`null` is `None`). */
  function OrText(a: Option<string>, fallback: string): string
  {
    if a.Some? && a.value != "" then a.value else fallback
  }

  /** A nullable string stored as a document value. */
  function NullableText(a: Option<string>): Value
  {
    if a.Some? then Str(a.value) else Null
  }

  /** The name the validation library gives to the type of a received value. */
  function TypeName(v: Value): string
  {
    match v
    case Str(_) => "string"
    case Num(_) => "number"
    case Bool(_) => "boolean"
    case Null => "null"
    case ServerTimestamp => "object"
    case Measures(_) => "object"
  }

  // ---------------------------------------------------------------------------
  // Number(value): `None` stands for NaN.

  predicate IsDigit(c: char) { '0' <= c <= '9' }

  predicate AllDigits(s: string)
  {
    forall i :: 0 <= i < |s| ==> IsDigit(s[i])
  }

  /** The white space and line terminators that `Number()` trims: tab, line
      feed, vertical tab, form feed, carriage return, the Unicode space
      separators, the line and paragraph separators, and the byte-order mark. */
  predicate IsSpace(c: char)
  {
    || ('\t' <= c <= '\r')
    || c == ' ' || c == '\U{00A0}' || c == '\U{1680}'
    || ('\U{2000}' <= c <= '\U{200A}')
    || c == '\U{2028}' || c == '\U{2029}' || c == '\U{202F}' || c == '\U{205F}'
    || c == '\U{3000}' || c == '\U{FEFF}'
  }

  function TrimStart(s: string): (r: string)
    ensures |r| <= |s|
    ensures r == [] || !IsSpace(r[0])
    decreases |s|
  {
    if s != [] && IsSpace(s[0]) then TrimStart(s[1..]) else s
  }

  function TrimEnd(s: string): (r: string)
    ensures |r| <= |s|
    ensures r == [] || !IsSpace(r[|r| - 1])
    decreases |s|
  {
    if s != [] && IsSpace(s[|s| - 1]) then TrimEnd(s[..|s| - 1]) else s
  }

  function Trim(s: string): string
  {
    TrimEnd(TrimStart(s))
  }

  /** The first position of `c` in `s`, or `|s|` when there is none. */
  function FirstIndex(s: string, c: char): (i: nat)
    ensures i <= |s|
    ensures i < |s| ==> s[i] == c
    ensures forall j :: 0 <= j < i ==> s[j] != c
  {
    if s == [] then 0
    else if s[0] == c then 0
    else 1 + FirstIndex(s[1..], c)
  }

  function DigitValue(c: char): nat
    requires IsDigit(c)
  {
    (c as int - '0' as int) as nat
  }

  /** The value of a string of decimal digits, most significant first. */
  function DigitsValue(s: string): nat
    requires AllDigits(s)
  {
    if s == [] then 0 else 10 * DigitsValue(s[..|s| - 1]) + DigitValue(s[|s| - 1])
  }

  function Pow10(n: nat): (r: nat)
    ensures r >= 1
  {
    if n == 0 then 1 else 10 * Pow10(n - 1)
  }

  /** Digits with at most one decimal point and at least one digit: `12`, `12.5`, `.5`, `12.`. */
  function ParseUnsigned(t: string): Option<real>
  {
    var k := FirstIndex(t, '.');
    var whole := t[..k];
    var frac := if k < |t| then t[k + 1..] else [];
    if AllDigits(whole) && AllDigits(frac) && |whole| + |frac| > 0 then
      Some(DigitsValue(whole) as real + DigitsValue(frac) as real / Pow10(|frac|) as real)
    else
      None
  }

  /** `Number(s)` on a string: surrounding white space is ignored, the empty
      string is 0, an optional sign precedes a decimal numeral; anything else is NaN. */
  function ParseNumber(s: string): Option<real>
  {
    var t := Trim(s);
    if t == [] then Some(0.0)
    else if t[0] == '-' then
      (match ParseUnsigned(t[1..]) case Some(x) => Some(-x) case None => None)
    else if t[0] == '+' then ParseUnsigned(t[1..])
    else ParseUnsigned(t)
  }

  /** `Number(v)` for an optional value (`None` is `undefined`). */
  function ToNumber(v: Option<Value>): Option<real>
  {
    match v
    case None => None
    case Some(Str(s)) => ParseNumber(s)
    case Some(Num(x)) => Some(x)
    case Some(Bool(b)) => Some(if b then 1.0 else 0.0)
    case Some(Null) => Some(0.0)
    case Some(ServerTimestamp) => None
    case Some(Measures(_)) => None
  }

  /** The decimal numeral of a natural number, as a number input field holds it. */
  function NatText(n: nat): (r: string)
    ensures |r| >= 1 && AllDigits(r)
  {
    if n < 10 then [('0' as int + n) as char]
    else NatText(n / 10) + [('0' as int + n % 10) as char]
  }

  lemma {:induction false} DigitsValueOfNatText(n: nat)
    ensures DigitsValue(NatText(n)) == n
  {
    var r := NatText(n);
    if n >= 10 {
      DigitsValueOfNatText(n / 10);
      assert r[..|r| - 1] == NatText(n / 10);
    }
  }

  /** Coercion reads back the number a numeral denotes: a number input holding
      the text of `n` is coerced to `n`. */
  lemma ParseNumberOfNatText(n: nat)
    ensures ParseNumber(NatText(n)) == Some(n as real)
  {
    var r := NatText(n);
    assert TrimStart(r) == r by {
      assert !IsSpace(r[0]);
    }
    assert TrimEnd(r) == r by {
      assert !IsSpace(r[|r| - 1]);
    }
    assert r[0] != '-' && r[0] != '+';
    assert forall i :: 0 <= i < |r| ==> r[i] != '.';
    assert r[..|r|] == r;
    DigitsValueOfNatText(n);
  }

  /** An empty number input is coerced to 0, not to NaN. */
  lemma EmptyTextIsZero()
    ensures ToNumber(Some(Str(""))) == Some(0.0)
  {
  }

  // ---------------------------------------------------------------------------

  /** `s.startsWith(prefix)`. */
  predicate StartsWith(s: string, prefix: string)
  {
    |prefix| <= |s| && s[..|prefix|] == prefix
  }

  /** Two prefixes of one string: the shorter is a prefix of the longer. */
  lemma CommonPrefix(s: string, a: string, b: string)
    requires StartsWith(s, a) && StartsWith(s, b) && |a| <= |b|
    ensures StartsWith(b, a)
  {
    assert b[..|a|] == s[..|b|][..|a|] == s[..|a|];
  }
}
