/** The part of JavaScript's global `parseInt(string)` (no radix argument)
    that the waste-offer form relies on, and the decimal rendering of
    non-negative integers that it inverts. Following ECMAScript's definition:
    leading white space is skipped, one optional sign is read, a "0x"/"0X"
    prefix switches to radix 16, and the longest run of digits of the radix
    that follows is the number; no digit at all gives NaN (here None). */
module JsNumber {
  import opened Common

  predicate IsDecimalDigit(c: char) {
    '0' <= c <= '9'
  }

  predicate IsDigitIn(c: char, radix: int) {
    if radix == 16 then IsDecimalDigit(c) || 'a' <= c <= 'f' || 'A' <= c <= 'F'
    else IsDecimalDigit(c)
  }

  /** The value of a digit of radix 16 or less; 0 for any other character. */
  function DigitValue(c: char): (d: nat)
    ensures d < 16
    ensures IsDecimalDigit(c) ==> d < 10
  {
    if IsDecimalDigit(c) then c as int - '0' as int
    else if 'a' <= c <= 'f' then c as int - 'a' as int + 10
    else if 'A' <= c <= 'F' then c as int - 'A' as int + 10
    else 0
  }

  /** The string with its leading white space removed. */
  function TrimStart(s: string): (r: string)
    ensures |r| <= |s| && r == s[|s| - |r|..]
    ensures forall i :: 0 <= i < |s| - |r| ==> IsJsWhitespace(s[i])
    ensures r == [] || !IsJsWhitespace(r[0])
  {
    if s != [] && IsJsWhitespace(s[0]) then
      var r := TrimStart(s[1..]);
      assert s[1..][|s| - 1 - |r|..] == s[|s| - |r|..];
      r
    else s
  }

  /** `s.trim() === ''` exactly when trimming the front already leaves
      nothing: both hold exactly for all-white-space text. */
  lemma BlankIffTrimStartEmpty(s: string)
    ensures IsBlank(s) <==> TrimStart(s) == []
  {
    if TrimStart(s) == [] {
      assert forall i :: 0 <= i < |s| ==> IsJsWhitespace(s[i]);
    }
  }

  /** The longest prefix of s made of digits of the radix. */
  function LeadingDigits(s: string, radix: int): (r: string)
    ensures r <= s
    ensures forall i :: 0 <= i < |r| ==> IsDigitIn(r[i], radix)
    ensures |r| == |s| || !IsDigitIn(s[|r|], radix)
  {
    if s != [] && IsDigitIn(s[0], radix) then [s[0]] + LeadingDigits(s[1..], radix) else []
  }

  /** The value of a digit string in the radix, most significant digit first. */
  function DigitsValue(ds: string, radix: nat): nat {
    if ds == [] then 0
    else DigitsValue(ds[..|ds| - 1], radix) * radix + DigitValue(ds[|ds| - 1])
  }

  /** The text starts with a minus sign. */
  predicate IsNegative(t: string) {
    t != [] && t[0] == '-'
  }

  /** The text after one leading sign character, if there is one. */
  function AfterSign(t: string): string {
    if t != [] && (t[0] == '-' || t[0] == '+') then t[1..] else t
  }

  predicate HasHexPrefix(u: string) {
    |u| >= 2 && u[0] == '0' && (u[1] == 'x' || u[1] == 'X')
  }

  /** The unsigned magnitude: a hexadecimal literal after "0x"/"0X",
      a decimal one otherwise; None when no digit follows. */
  function Magnitude(u: string): (r: Option<nat>)
    ensures r.None? <==>
      var body := if HasHexPrefix(u) then u[2..] else u;
      body == [] || !IsDigitIn(body[0], if HasHexPrefix(u) then 16 else 10)
    ensures r.Some? && !HasHexPrefix(u) ==> u != [] && IsDecimalDigit(u[0])
  {
    var radix := if HasHexPrefix(u) then 16 else 10;
    var z := LeadingDigits(if HasHexPrefix(u) then u[2..] else u, radix);
    if z == [] then None else Some(DigitsValue(z, radix))
  }

  /** NaN exactly when no digit follows the white space and the sign; otherwise
      the magnitude read there, negated after a minus sign. */
  function ParseInt(s: string): (r: Option<int>)
    ensures r.None? <==> Magnitude(AfterSign(TrimStart(s))).None?
    ensures r.Some? ==>
      (if IsNegative(TrimStart(s)) then -r.value else r.value) == Magnitude(AfterSign(TrimStart(s))).value
  {
    ReadNumber(TrimStart(s))
  }

  /** The number at the start of already trimmed text. */
  function ReadNumber(t: string): (r: Option<int>)
    ensures r.None? <==> Magnitude(AfterSign(t)).None?
    ensures r.Some? && !IsNegative(t) ==> r.value >= 0
    ensures r.Some? && IsNegative(t) ==> r.value <= 0
  {
    match Magnitude(AfterSign(t))
    case None => None
    case Some(m) => Some(if IsNegative(t) then -(m as int) else m)
  }

  function DigitChar(d: nat): (c: char)
    requires d < 10
    ensures IsDecimalDigit(c) && DigitValue(c) == d
  {
    ('0' as int + d) as char
  }

  /** `String(n)` for a non-negative integer: its decimal digits. */
  function Decimal(n: nat): (r: string)
    ensures r != []
    ensures forall i :: 0 <= i < |r| ==> IsDecimalDigit(r[i])
  {
    if n < 10 then [DigitChar(n)] else Decimal(n / 10) + [DigitChar(n % 10)]
  }

  /** A decimal rendering starts with '0' only when it renders zero. */
  lemma {:induction false} DecimalLeadingZero(n: nat)
    ensures Decimal(n)[0] == '0' <==> n == 0
  {
    if n >= 10 {
      DecimalLeadingZero(n / 10);
      assert Decimal(n)[0] == Decimal(n / 10)[0];
    }
  }

  /** Reading the decimal digits back gives the number. */
  lemma {:induction false} DigitsValueOfDecimal(n: nat)
    ensures DigitsValue(Decimal(n), 10) == n
  {
    var d := Decimal(n);
    if n >= 10 {
      assert d[..|d| - 1] == Decimal(n / 10);
      DigitsValueOfDecimal(n / 10);
    }
  }

  /** The digit run of a digit string followed by a non-digit is that string. */
  lemma {:induction false} LeadingDigitsOfDigits(ds: string, rest: string, radix: int)
    requires forall i :: 0 <= i < |ds| ==> IsDigitIn(ds[i], radix)
    requires rest == [] || !IsDigitIn(rest[0], radix)
    ensures LeadingDigits(ds + rest, radix) == ds
  {
    if ds == [] {
      assert ds + rest == rest;
    } else {
      assert (ds + rest)[0] == ds[0] && (ds + rest)[1..] == ds[1..] + rest;
      LeadingDigitsOfDigits(ds[1..], rest, radix);
    }
  }

  /** The magnitude of a rendered number followed by non-digit text. */
  lemma MagnitudeOfDecimal(n: nat, rest: string)
    requires rest == [] || !IsDecimalDigit(rest[0])
    requires n == 0 ==> rest == [] || (rest[0] != 'x' && rest[0] != 'X')
    ensures Magnitude(Decimal(n) + rest) == Some(n)
  {
    var u := Decimal(n) + rest;
    assert u[0] == Decimal(n)[0];
    DecimalLeadingZero(n);
    if n == 0 {
      assert Decimal(n) == "0";
    }
    assert !HasHexPrefix(u);
    LeadingDigitsOfDigits(Decimal(n), rest, 10);
    DigitsValueOfDecimal(n);
  }

  /** parseInt reads back a rendered non-negative integer, whatever non-digit
      text follows it, except that "0" followed by 'x' or 'X' opens a
      hexadecimal literal. */
  lemma ParseIntOfDecimal(n: nat, rest: string)
    requires rest == [] || !IsDecimalDigit(rest[0])
    requires n == 0 ==> rest == [] || (rest[0] != 'x' && rest[0] != 'X')
    ensures ParseInt(Decimal(n) + rest) == Some(n)
  {
    DecimalStartsWithDigit(n, rest);
    ParseIntOfUnsigned(Decimal(n) + rest);
    MagnitudeOfDecimal(n, rest);
  }

  /** A leading minus sign negates the parsed value. */
  lemma ParseIntOfNegativeDecimal(n: nat, rest: string)
    requires rest == [] || !IsDecimalDigit(rest[0])
    requires n == 0 ==> rest == [] || (rest[0] != 'x' && rest[0] != 'X')
    ensures ParseInt("-" + (Decimal(n) + rest)) == Some(-(n as int))
  {
    MagnitudeOfDecimal(n, rest);
    ParseIntOfMinus(Decimal(n) + rest, n);
  }

  lemma DecimalStartsWithDigit(n: nat, rest: string)
    ensures Decimal(n) + rest != [] && IsDecimalDigit((Decimal(n) + rest)[0])
  {
    assert (Decimal(n) + rest)[0] == Decimal(n)[0];
  }

  /** Text that starts with a digit is read as an unsigned magnitude. */
  lemma ParseIntOfUnsigned(u: string)
    requires u != [] && IsDecimalDigit(u[0])
    ensures ParseInt(u) == Magnitude(u)
  {
    assert TrimStart(u) == u;
  }

  /** Text after a '-' is read as a magnitude and negated. */
  lemma ParseIntOfMinus(u: string, m: nat)
    requires Magnitude(u) == Some(m)
    ensures ParseInt("-" + u) == Some(-(m as int))
  {
    var s := "-" + u;
    assert s[0] == '-' && s[1..] == u;
    assert TrimStart(s) == s;
  }

  /** Leading white space never changes what parseInt reads. */
  lemma {:induction false} ParseIntSkipsWhitespace(w: string, s: string)
    requires IsBlank(w)
    ensures ParseInt(w + s) == ParseInt(s)
  {
    TrimStartSkipsWhitespace(w, s);
  }

  lemma {:induction false} TrimStartSkipsWhitespace(w: string, s: string)
    requires IsBlank(w)
    ensures TrimStart(w + s) == TrimStart(s)
  {
    if w == [] {
      assert w + s == s;
    } else {
      assert (w + s)[0] == w[0] && (w + s)[1..] == w[1..] + s;
      TrimStartSkipsWhitespace(w[1..], s);
    }
  }

  /** Text that starts with something other than white space, a sign or a
      digit is not a number. */
  lemma ParseIntOfNonNumeric(s: string)
    requires s != [] && !IsJsWhitespace(s[0]) && !IsDecimalDigit(s[0])
    requires s[0] != '-' && s[0] != '+'
    ensures ParseInt(s) == None
  {
  }

  /** A "0x" prefix reads the rest in base 16: "0x1f" is 31. */
  lemma ParseIntHexExample()
    ensures ParseInt("0x1f") == Some(31)
    ensures ParseInt("0x") == None
  {
    ParseIntOfUnsigned("0x1f");
    ParseIntOfUnsigned("0x");
    HexMagnitudes();
  }

  lemma HexMagnitudes()
    ensures Magnitude("0x1f") == Some(31)
    ensures Magnitude("0x") == None
  {
    assert HasHexPrefix("0x1f") && "0x1f"[2..] == "1f";
    assert LeadingDigits("1f", 16) == "1f";
    assert "1f"[..1] == "1" && "1"[..0] == [];
    assert DigitsValue("1f", 16) == 31;
    assert HasHexPrefix("0x") && "0x"[2..] == [];
  }
}
