/** The JavaScript text conversions the core relies on: how a template
    literal renders numbers and missing values (`${n}`, `${undefined}`),
    and `parseInt(s, 10)`. Numbers are modelled as unbounded integers; a
    missing number (`NaN`) is `None`. */
module JsText {
  import opened Wrappers

  predicate IsDigit(c: char) {
    '0' <= c <= '9'
  }

  function DigitValue(c: char): (d: nat)
    requires IsDigit(c)
    ensures d < 10
  {
    (c as int) - ('0' as int)
  }

  function DigitChar(d: nat): (c: char)
    requires d < 10
    ensures IsDigit(c) && DigitValue(c) == d
  {
    (('0' as int) + d) as char
  }

  predicate AllDigits(s: string) {
    forall i :: 0 <= i < |s| ==> IsDigit(s[i])
  }

  /** The number a string of decimal digits denotes; leading zeros count for nothing. */
  function DigitsValue(s: string): nat
    requires AllDigits(s)
    decreases |s|
  {
    if s == [] then 0 else DigitsValue(s[..|s| - 1]) * 10 + DigitValue(s[|s| - 1])
  }

  function Pow10(n: nat): (p: nat)
    ensures p >= 1
  {
    if n == 0 then 1 else 10 * Pow10(n - 1)
  }

  /** n decimal digits denote a number below 10^n. */
  lemma {:induction false} DigitsValueBound(s: string)
    requires AllDigits(s)
    ensures DigitsValue(s) < Pow10(|s|)
    decreases |s|
  {
    if s != [] {
      DigitsValueBound(s[..|s| - 1]);
    }
  }

  /** `${n}` for an integer n >= 0: the shortest decimal numeral of n. */
  function NatToString(n: nat): (r: string)
    ensures r != [] && AllDigits(r) && DigitsValue(r) == n
    ensures r[0] == '0' ==> n == 0
    ensures n < 10 ==> |r| == 1
    decreases n
  {
    if n < 10 then [DigitChar(n)]
    else
      var high := NatToString(n / 10);
      assert (high + [DigitChar(n % 10)])[..|high|] == high;
      high + [DigitChar(n % 10)]
  }

  /** The numeral of n has no more digits than any digit string denoting n. */
  lemma {:induction false} NatToStringShortest(n: nat, k: nat)
    requires n < Pow10(k) && k >= 1
    ensures |NatToString(n)| <= k
    decreases k
  {
    if n >= 10 {
      assert k >= 2;
      NatToStringShortest(n / 10, k - 1);
    }
  }

  /** `${i}` for any integer i. */
  function IntToString(i: int): string {
    if i < 0 then "-" + NatToString(-i) else NatToString(i)
  }

  /** `${x}` for a string that may be `undefined`. */
  function Template(x: Option<string>): string {
    match x
    case Some(s) => s
    case None => "undefined"
  }

  /** `${x}` for a number that may be `NaN`. */
  function NumberText(x: Option<int>): string {
    match x
    case Some(n) => IntToString(n)
    case None => "NaN"
  }

  /** The length of the longest prefix of s made of decimal digits. */
  function DigitRun(s: string): (k: nat)
    ensures k <= |s| && AllDigits(s[..k])
    ensures k < |s| ==> !IsDigit(s[k])
  {
    if s != [] && IsDigit(s[0]) then
      var k := 1 + DigitRun(s[1..]);
      assert forall i :: 1 <= i < k ==> s[..k][i] == s[1..][..k - 1][i - 1];
      k
    else 0
  }

  /** A digit string followed by a non-digit is read up to its end. */
  lemma {:induction false} DigitRunOfNumeral(ds: string, rest: string)
    requires AllDigits(ds)
    requires rest == [] || !IsDigit(rest[0])
    ensures DigitRun(ds + rest) == |ds|
    decreases |ds|
  {
    if ds != [] {
      assert (ds + rest)[1..] == ds[1..] + rest;
      DigitRunOfNumeral(ds[1..], rest);
    }
  }

  /** The characters `parseInt` skips before the numeral: the WhiteSpace and
      LineTerminator code points of ECMA-262 (section 7.2 and 7.3). */
  predicate IsJsSpace(c: char) {
    || c == ' ' || c == '\t' || c == '\n' || c == '\r'
    || c as int == 0x0B || c as int == 0x0C || c as int == 0xA0
    || c as int == 0x1680 || (0x2000 <= c as int <= 0x200A)
    || c as int == 0x2028 || c as int == 0x2029 || c as int == 0x202F
    || c as int == 0x205F || c as int == 0x3000 || c as int == 0xFEFF
  }

  /** s without its leading JavaScript white space. */
  function TrimStart(s: string): (r: string)
    ensures |r| <= |s| && r == s[|s| - |r|..]
    ensures r == [] || !IsJsSpace(r[0])
  {
    if s != [] && IsJsSpace(s[0]) then TrimStart(s[1..]) else s
  }

  /** `parseInt(s, 10)`: skip leading white space, take an optional sign
      and then the longest run of decimal digits; no digits gives `NaN`
      (None). Whatever follows the digits is ignored. */
  function ParseInt(s: string): Option<int> {
    ParseSigned(TrimStart(s))
  }

  function ParseSigned(t: string): Option<int> {
    if t != [] && t[0] == '-' then
      match ParseUnsigned(t[1..])
      case Some(v) => Some(-v)
      case None => None
    else if t != [] && t[0] == '+' then ParseUnsigned(t[1..])
    else ParseUnsigned(t)
  }

  function ParseUnsigned(u: string): Option<int> {
    var k := DigitRun(u);
    if k == 0 then None else Some(DigitsValue(u[..k]))
  }

  /** A numeral followed by nothing is read in full. */
  lemma ParseUnsignedOfNumeral(ds: string)
    requires ds != [] && AllDigits(ds)
    ensures ParseUnsigned(ds) == Some(DigitsValue(ds))
  {
    DigitRunOfNumeral(ds, []);
    assert ds + [] == ds;
    assert ds[..|ds|] == ds;
  }

  /** A text that starts with a digit or a sign has no white space to skip. */
  lemma TrimStartNoSpace(s: string)
    requires s != [] && (IsDigit(s[0]) || s[0] == '-')
    ensures TrimStart(s) == s
  {
  }

  /** `parseInt` reads back every integer a template literal renders. */
  lemma ParseIntOfIntToString(i: int)
    ensures ParseInt(IntToString(i)) == Some(i)
  {
    if i < 0 {
      var digits := NatToString(-i);
      var t := "-" + digits;
      assert IntToString(i) == t;
      TrimStartNoSpace(t);
      assert t[1..] == digits;
      ParseUnsignedOfNumeral(digits);
      assert ParseSigned(t) == Some(-(-i));
    } else {
      var digits := NatToString(i);
      assert IntToString(i) == digits;
      TrimStartNoSpace(digits);
      ParseUnsignedOfNumeral(digits);
      assert ParseSigned(digits) == ParseUnsigned(digits);
    }
  }

  /** `parseInt` of a space followed by n >= 1 digits is the value of the
      digits; the leading space and any leading zeros are dropped. */
  lemma ParseIntOfSpacedDigits(ds: string)
    requires ds != [] && AllDigits(ds)
    ensures ParseInt(" " + ds) == Some(DigitsValue(ds))
  {
    assert (" " + ds)[1..] == ds;
    assert IsJsSpace((" " + ds)[0]);
    assert !IsJsSpace(ds[0]) by { assert IsDigit(ds[0]); }
    assert TrimStart(ds) == ds;
    assert TrimStart(" " + ds) == ds;
    ParseUnsignedOfNumeral(ds);
  }

  /** A text that starts with neither white space, a sign nor a digit has no numeral. */
  lemma ParseIntOfWord(w: string)
    requires w != [] && !IsJsSpace(w[0]) && !IsDigit(w[0]) && w[0] != '-' && w[0] != '+'
    ensures ParseInt(w) == None
  {
    assert TrimStart(w) == w;
    assert DigitRun(w) == 0;
  }

  /** Texts with no numeral read as `NaN`: the text of `null` (a missing
      hash field), of `undefined`, of `NaN` itself, and a lone space. */
  lemma ParseIntOfNonNumerals()
    ensures ParseInt("null") == None
    ensures ParseInt("undefined") == None
    ensures ParseInt("NaN") == None
    ensures ParseInt(" ") == None
  {
    ParseIntOfWord("null");
    ParseIntOfWord("undefined");
    ParseIntOfWord("NaN");
    assert " "[1..] == [];
    assert TrimStart(" ") == [];
  }
}
