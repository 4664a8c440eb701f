/** Field values as the client handles them: what a Python caller may put in the
    parameter dict (text, an integer, a boolean flag or None), how Python judges
    them true or false, and how they are turned into text. */
module Values {

  datatype Option<+T> = None | Some(value: T)

  /** One value of a field mapping. Python's bool is a subclass of int, so the
      two are kept apart here only to say how each one is printed. */
  datatype Value = Str(s: string) | Int(i: int) | Bool(b: bool) | Null

  /** A field mapping: field name to value, keys unique, no nesting. */
  type Fields = map<string, Value>

  /** Python truthiness of a value. */
  predicate Truthy(v: Value)
  {
    match v
    case Str(s) => s != ""
    case Int(i) => i != 0
    case Bool(b) => b
    case Null => false
  }

  predicate IsDigit(c: char)
  {
    '0' <= c <= '9'
  }

  predicate AllDigits(s: string)
  {
    forall i :: 0 <= i < |s| ==> IsDigit(s[i])
  }

  function DigitChar(d: nat): (c: char)
    requires d < 10
    ensures IsDigit(c) && c as int - '0' as int == d
  {
    ('0' as int + d) as char
  }

  /** Python's str() of a non-negative integer: its decimal digits, no leading zero. */
  function NatText(n: nat): (r: string)
    ensures |r| > 0 && AllDigits(r)
    ensures r[0] == '0' ==> n == 0
  {
    if n < 10 then [DigitChar(n)] else NatText(n / 10) + [DigitChar(n % 10)]
  }

  /** Python's str() of an integer: a minus sign before the digits of a negative one. */
  function IntText(i: int): (r: string)
    ensures |r| > 0
    ensures i >= 0 <==> r[0] != '-'
  {
    if i < 0 then "-" + NatText(-i) else NatText(i)
  }

  /** Python's str() of a bool. */
  function BoolText(b: bool): (r: string)
    ensures r != ""
  {
    if b then "True" else "False"
  }

  /** The number a string of decimal digits denotes. */
  function DigitsValue(s: string): nat
    requires AllDigits(s)
  {
    if s == [] then 0 else DigitsValue(s[..|s| - 1]) * 10 + (s[|s| - 1] as int - '0' as int)
  }

  /** The integer a decimal text produced by IntText denotes. */
  function ReadIntText(s: string): int
    requires |s| > 0
    requires AllDigits(if s[0] == '-' then s[1..] else s)
  {
    if s[0] == '-' then 0 - DigitsValue(s[1..]) as int else DigitsValue(s)
  }

  lemma {:induction false} NatTextRoundTrip(n: nat)
    ensures DigitsValue(NatText(n)) == n
  {
    if n >= 10 {
      var r := NatText(n);
      assert r[..|r| - 1] == NatText(n / 10);
      NatTextRoundTrip(n / 10);
    }
  }

  /** Different integers are printed differently: str() loses nothing. */
  lemma IntTextRoundTrip(i: int)
    ensures var r := IntText(i); AllDigits(if r[0] == '-' then r[1..] else r) && ReadIntText(r) == i
  {
    var r := IntText(i);
    if i < 0 {
      assert r[1..] == NatText(-i);
      NatTextRoundTrip(-i);
    } else {
      NatTextRoundTrip(i);
    }
  }

  /** The conversion the signer applies before filtering: integers (and so
      bools) become their str() text, everything else is left alone. */
  function Converted(v: Value): (r: Value)
    ensures r.Str? || r.Null?
    ensures v.Str? || v.Null? ==> r == v
  {
    match v
    case Int(i) => Str(IntText(i))
    case Bool(b) => Str(BoolText(b))
    case _ => v
  }

  /** The text str.format gives a value when the envelope is written. */
  function Format(v: Value): string
  {
    match v
    case Str(s) => s
    case Int(i) => IntText(i)
    case Bool(b) => BoolText(b)
    case Null => "None"
  }

  /** A pair survives the signer's filter iff its value is truthy after conversion. */
  predicate Kept(v: Value)
  {
    Truthy(Converted(v))
  }

  /** Only None and the empty string are dropped: 0 becomes "0" and False
      becomes "False", and both are kept. */
  lemma KeptIff(v: Value)
    ensures Kept(v) <==> v != Null && v != Str("")
    ensures Kept(v) ==> Converted(v) == Str(Format(v))
  {
  }

  /** setdefault: the value already under `k` is never replaced. */
  function SetDefault(m: Fields, k: string, v: Value): (r: Fields)
    ensures r.Keys == m.Keys + {k}
    ensures forall j :: j in m ==> r[j] == m[j]
    ensures k !in m ==> r[k] == v
  {
    if k in m then m else m[k := v]
  }
}
