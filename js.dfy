/** The JavaScript values and string built-ins that the components rely on:
    `undefined`, numbers that may be NaN, `String.prototype.trim`,
    `String.prototype.split`, `parseInt` and `Number`. Strings are modelled as
    `seq<char>`, sequences of Unicode scalar values; JavaScript strings are
    UTF-16 code units, so the two differ only for characters outside the
    Basic Multilingual Plane, which no modelled operation looks at. */
module Js {

  /** An optional field: `None` stands for `undefined`. */
  datatype Option<+T> = None | Some(value: T)

  /** A JavaScript number as the modelled code produces it: an integer or NaN.
      Every comparison with NaN is false. */
  datatype JsNumber = Num(value: int) | NaN

  // ---------------------------------------------------------------- trim

  /** The code units `trim` removes: ECMAScript WhiteSpace and LineTerminator. */
  predicate IsSpace(c: char)
  {
    c == ' ' || c == '\t' || c == '\n' || c == '\r' || c == '\U{B}' || c == '\U{C}'
    || c == '\U{A0}' || c == '\U{1680}' || ('\U{2000}' <= c <= '\U{200A}')
    || c == '\U{2028}' || c == '\U{2029}' || c == '\U{202F}' || c == '\U{205F}'
    || c == '\U{3000}' || c == '\U{FEFF}'
  }

  predicate IsBlank(s: string)
  {
    forall i :: 0 <= i < |s| ==> IsSpace(s[i])
  }

  function TrimStart(s: string): string
  {
    if s != [] && IsSpace(s[0]) then TrimStart(s[1..]) else s
  }

  function TrimEnd(s: string): string
  {
    if s != [] && IsSpace(s[|s| - 1]) then TrimEnd(s[..|s| - 1]) else s
  }

  /** `s.trim()`; it is empty exactly when `s` holds only white space. */
  function Trim(s: string): (r: string)
    ensures r == "" <==> IsBlank(s)
  {
    TrimStartFacts(s);
    TrimEndEmpty(TrimStart(s));
    TrimEnd(TrimStart(s))
  }

  lemma {:induction false} TrimStartFacts(s: string)
    ensures TrimStart(s) == "" <==> IsBlank(s)
    ensures TrimStart(s) != "" ==> !IsSpace(TrimStart(s)[0])
  {
    if s != [] && IsSpace(s[0]) {
      TrimStartFacts(s[1..]);
      assert forall i :: 1 <= i < |s| ==> s[i] == s[1..][i - 1];
    }
  }

  lemma {:induction false} TrimEndEmpty(s: string)
    ensures TrimEnd(s) == "" <==> IsBlank(s)
  {
    if s != [] && IsSpace(s[|s| - 1]) {
      TrimEndEmpty(s[..|s| - 1]);
      assert forall i :: 0 <= i < |s| - 1 ==> s[i] == s[..|s| - 1][i];
    }
  }

  // ---------------------------------------------------------------- split

  /** `parts.join(sep)`. */
  function Join(parts: seq<string>, sep: char): string
    requires |parts| >= 1
  {
    if |parts| == 1 then parts[0] else parts[0] + [sep] + Join(parts[1..], sep)
  }

  /** `s.split(sep)` for a one-character separator: the pieces between the
      separators, at least one (`"".split(":")` is `[""]`); joining them
      again gives back `s`. */
  function Split(s: string, sep: char): (parts: seq<string>)
    ensures |parts| >= 1
    ensures forall i :: 0 <= i < |parts| ==> sep !in parts[i]
    ensures Join(parts, sep) == s
  {
    if s == [] then [""]
    else
      var rest := Split(s[1..], sep);
      if s[0] == sep then
        assert ([""] + rest)[1..] == rest;
        [""] + rest
      else
        var parts := [[s[0]] + rest[0]] + rest[1..];
        assert parts[1..] == rest[1..];
        assert |rest| > 1 ==> Join(rest, sep) == rest[0] + [sep] + Join(rest[1..], sep);
        parts
  }

  // ---------------------------------------------------------------- numbers

  predicate IsDigit(c: char)
  {
    '0' <= c <= '9'
  }

  predicate AllDigits(s: string)
  {
    forall i :: 0 <= i < |s| ==> IsDigit(s[i])
  }

  /** The value of a string of decimal digits, most significant first. */
  function DigitsValue(s: string): nat
    requires AllDigits(s)
  {
    if s == [] then 0
    else DigitsValue(s[..|s| - 1]) * 10 + (s[|s| - 1] as int - '0' as int)
  }

  /** `String(n)` for a natural number: its decimal digits, the value they
      denote being `n`. */
  function ShowNat(n: nat): (r: string)
    ensures |r| >= 1 && AllDigits(r) && DigitsValue(r) == n
  {
    var last := ('0' as int + n % 10) as char;
    if n < 10 then
      assert [last][..0] == [];
      [last]
    else
      var r := ShowNat(n / 10) + [last];
      assert r[..|r| - 1] == ShowNat(n / 10);
      r
  }

  /** `String(n)` for an integer. */
  function Show(n: int): string
  {
    if n < 0 then "-" + ShowNat(-n) else ShowNat(n)
  }

  /** The longest prefix of `s` made of decimal digits. */
  function LeadingDigits(s: string): (r: string)
    ensures |r| <= |s| && r == s[..|r|] && AllDigits(r)
    ensures |r| < |s| ==> !IsDigit(s[|r|])
  {
    if s != [] && IsDigit(s[0]) then [s[0]] + LeadingDigits(s[1..]) else []
  }

  /** `parseInt(s)` (radix 10): leading white space skipped, an optional sign,
      then the longest run of digits; NaN when there is none. */
  function ParseInt(s: string): (r: JsNumber)
    ensures IsBlank(s) ==> r == NaN
    ensures s != "" && AllDigits(s) ==> r == Num(DigitsValue(s))
  {
    TrimStartFacts(s);
    DigitsParse(s);
    var t := TrimStart(s);
    var negative := t != [] && t[0] == '-';
    var body := if t != [] && (t[0] == '-' || t[0] == '+') then t[1..] else t;
    var digits := LeadingDigits(body);
    if digits == [] then NaN
    else
      var magnitude: int := DigitsValue(digits);
      Num(if negative then -magnitude else magnitude)
  }

  /** `parseInt` reads back every integer that `String` writes. */
  lemma ParseIntShow(n: int)
    ensures ParseInt(Show(n)) == Num(n)
  {
    var digits := ShowNat(if n < 0 then -n else n);
    AllDigitsLeading(digits);
    if n < 0 {
      assert ("-" + digits)[1..] == digits;
    }
  }

  lemma DigitsParse(s: string)
    ensures s != "" && AllDigits(s) ==> TrimStart(s) == s && LeadingDigits(s) == s
  {
    if s != "" && AllDigits(s) {
      assert IsDigit(s[0]);
      AllDigitsLeading(s);
    }
  }

  lemma {:induction false} AllDigitsLeading(s: string)
    requires AllDigits(s)
    ensures LeadingDigits(s) == s
  {
    if s != [] {
      AllDigitsLeading(s[1..]);
    }
  }

  /** `Number(s)` for the strings a time input yields: white space around the
      text is ignored, the empty string is 0, a run of decimal digits is its
      value; anything else is reported as NaN. */
  function NumberOf(s: string): (r: JsNumber)
    ensures IsBlank(s) ==> r == Num(0)
    ensures AllDigits(s) && s != "" ==> r == Num(DigitsValue(s))
  {
    var t := Trim(s);
    assert AllDigits(s) ==> t == s by {
      if AllDigits(s) { TrimDigits(s); }
    }
    if t == "" then Num(0)
    else if AllDigits(t) then Num(DigitsValue(t))
    else NaN
  }

  lemma TrimDigits(s: string)
    requires AllDigits(s)
    ensures Trim(s) == s
  {
    if s != [] {
      assert !IsSpace(s[0]) && !IsSpace(s[|s| - 1]);
    }
  }
}
