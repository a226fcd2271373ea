/** The field checks of the validation library (zod, version 3) that the
    application's schemas are built from, with the library's own messages:
    `z.string().min(n, msg)`, `z.coerce.number().min(n, msg)`, `z.enum([...])`,
    `z.string().optional()` and `z.string().email(msg).optional()`.
    A missing field is `undefined`. */
module Zod {
  import opened JsValues

  /** The outcome of one field check: the parsed value (`None` for an absent
      optional field) or the field's messages, in order. */
  datatype Check = Pass(out: Option<Value>) | Issue(msgs: seq<string>)

  const Required: string := "Required"

  function Expected(expected: string, got: Value): string
  {
    "Expected " + expected + ", received " + TypeName(got)
  }

  /** `z.string().min(n, msg)` */
  function StringMin(v: Option<Value>, n: nat, msg: string): (c: Check)
    ensures c.Pass? <==> v.Some? && v.value.Str? && |v.value.s| >= n
    ensures c.Pass? ==> c.out == v
    ensures v.Some? && v.value.Str? && |v.value.s| < n ==> c == Issue([msg])
  {
    match v
    case None => Issue([Required])
    case Some(Str(s)) => if |s| < n then Issue([msg]) else Pass(Some(Str(s)))
    case Some(other) => Issue([Expected("string", other)])
  }

  const NotANumber: string := "Expected number, received nan"

  /** `z.coerce.number().min(n, msg)`: the value is first passed through `Number(...)`. */
  function CoercedNumberMin(v: Option<Value>, n: real, msg: string): (c: Check)
    ensures c.Pass? <==> ToNumber(v).Some? && ToNumber(v).value >= n
    ensures c.Pass? ==> c.out == Some(Num(ToNumber(v).value))
    ensures ToNumber(v).None? ==> c == Issue([NotANumber])
    ensures ToNumber(v).Some? && ToNumber(v).value < n ==> c == Issue([msg])
  {
    match ToNumber(v)
    case None => Issue([NotANumber])
    case Some(x) => if x < n then Issue([msg]) else Pass(Some(Num(x)))
  }

  /** The default message of `.min(1)` on a number. */
  const NumberAtLeastOne: string := "Number must be greater than or equal to 1"

  /** `'a' | 'b' | 'c'`, as the library lists the options of an enum. */
  function Joined(options: seq<string>): string
  {
    if options == [] then ""
    else if |options| == 1 then "'" + options[0] + "'"
    else "'" + options[0] + "' | " + Joined(options[1..])
  }

  /** `z.enum(options)`: membership is exact, so case matters. */
  function EnumOf(v: Option<Value>, options: seq<string>): (c: Check)
    ensures c.Pass? <==> v.Some? && v.value.Str? && v.value.s in options
    ensures c.Pass? ==> c.out == v
  {
    match v
    case None => Issue([Required])
    case Some(Str(s)) =>
      if s in options then Pass(Some(Str(s)))
      else Issue(["Invalid enum value. Expected " + Joined(options) + ", received '" + s + "'"])
    case Some(other) => Issue([Expected(Joined(options), other)])
  }

  /** `z.string().optional()` */
  function OptionalString(v: Option<Value>): (c: Check)
    ensures c.Pass? <==> v.None? || v.value.Str?
    ensures c.Pass? ==> c.out == v
  {
    match v
    case None => Pass(None)
    case Some(Str(s)) => Pass(Some(Str(s)))
    case Some(other) => Issue([Expected("string", other)])
  }

  /** `z.string().email(msg).optional()` */
  function OptionalEmail(v: Option<Value>, msg: string): (c: Check)
    ensures c.Pass? <==> v.None? || (v.value.Str? && EmailShaped(v.value.s))
    ensures c.Pass? ==> c.out == v
    ensures v.Some? && v.value.Str? && !EmailShaped(v.value.s) ==> c == Issue([msg])
  {
    match v
    case None => Pass(None)
    case Some(Str(s)) => if EmailShaped(s) then Pass(Some(Str(s))) else Issue([msg])
    case Some(other) => Issue([Expected("string", other)])
  }

  // ---------------------------------------------------------------------------
  // The library's e-mail pattern, case-insensitive:
  //   ^(?!\.)(?!.*\.\.)([A-Z0-9_'+\-\.]*)[A-Z0-9_+-]@([A-Z0-9][A-Z0-9\-]*\.)+[A-Z]{2,}$

  predicate IsLetter(c: char) { 'a' <= c <= 'z' || 'A' <= c <= 'Z' }

  predicate IsAlnum(c: char) { IsLetter(c) || IsDigit(c) }

  predicate LocalChar(c: char) { IsAlnum(c) || c == '_' || c == '\'' || c == '+' || c == '-' || c == '.' }

  predicate LocalLastChar(c: char) { IsAlnum(c) || c == '_' || c == '+' || c == '-' }

  predicate LocalPart(l: string)
  {
    |l| >= 1 && l[0] != '.' && LocalLastChar(l[|l| - 1]) &&
    forall i :: 0 <= i < |l| ==> LocalChar(l[i])
  }

  /** `[A-Z0-9][A-Z0-9\-]*` */
  predicate Label(x: string)
  {
    |x| >= 1 && IsAlnum(x[0]) && forall i :: 0 <= i < |x| ==> IsAlnum(x[i]) || x[i] == '-'
  }

  /** `([A-Z0-9][A-Z0-9\-]*\.)+[A-Z]{2,}` */
  predicate DomainPart(d: string)
    decreases |d|
  {
    var k := FirstIndex(d, '.');
    k < |d| && Label(d[..k]) &&
    var rest := d[k + 1..];
    (|rest| >= 2 && (forall i :: 0 <= i < |rest| ==> IsLetter(rest[i]))) || DomainPart(rest)
  }

  predicate HasDoubleDot(s: string)
  {
    exists i :: 0 <= i < |s| - 1 && s[i] == '.' && s[i + 1] == '.'
  }

  predicate EmailShaped(s: string)
  {
    var at := FirstIndex(s, '@');
    at < |s| && !HasDoubleDot(s) && LocalPart(s[..at]) && DomainPart(s[at + 1..])
  }

  /** The empty string is not an e-mail address. */
  lemma EmptyIsNotEmail()
    ensures !EmailShaped("")
  {
  }
}
