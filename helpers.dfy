/** The static helpers of `Helpers`: name capitalisation, lower-casing, the
    random digit string read back with `parseInt`, and `JSON.parse` with
    the input itself as fallback. Case mapping is modelled on ASCII letters
    only; every other character is left as it is. */
module Helpers {
  import opened Wrappers
  import opened JsText
  import opened Json
  import JsonLaws

  predicate IsUpper(c: char) {
    'A' <= c <= 'Z'
  }

  predicate IsLower(c: char) {
    'a' <= c <= 'z'
  }

  /** `toLowerCase` of one character. */
  function LowerChar(c: char): (d: char)
    ensures !IsUpper(d)
    ensures IsUpper(c) || d == c
    ensures IsUpper(c) ==> IsLower(d)
  {
    if IsUpper(c) then (c as int + 32) as char else c
  }

  /** `toUpperCase` of one character. */
  function UpperChar(c: char): (d: char)
    ensures !IsLower(d)
    ensures IsLower(c) || d == c
    ensures IsLower(c) ==> IsUpper(d)
  {
    if IsLower(c) then (c as int - 32) as char else c
  }

  lemma CaseRoundTrip(c: char)
    ensures LowerChar(LowerChar(c)) == LowerChar(c)
    ensures UpperChar(UpperChar(c)) == UpperChar(c)
    ensures UpperChar(LowerChar(UpperChar(c))) == UpperChar(c)
    ensures LowerChar(UpperChar(LowerChar(c))) == LowerChar(c)
  {
  }

  /** `Helpers.lowerCase(str)`: `str.toLowerCase()`. */
  function LowerCase(s: string): (r: string)
    ensures |r| == |s|
    ensures forall i :: 0 <= i < |s| ==> r[i] == LowerChar(s[i])
  {
    seq(|s|, i requires 0 <= i < |s| => LowerChar(s[i]))
  }

  /** Lower-casing twice is lower-casing once; no upper-case letter is left. */
  lemma LowerCaseIdempotent(s: string)
    ensures LowerCase(LowerCase(s)) == LowerCase(s)
    ensures forall i :: 0 <= i < |s| ==> !IsUpper(LowerCase(s)[i])
  {
    forall i | 0 <= i < |s|
      ensures LowerCase(LowerCase(s))[i] == LowerCase(s)[i]
    {
      CaseRoundTrip(s[i]);
    }
  }

  /** `str.split(' ')`: the pieces between single spaces, empty pieces
      included; there is always at least one. */
  function Split(s: string): (ws: seq<string>)
    ensures |ws| >= 1
    ensures forall k :: 0 <= k < |ws| ==> ' ' !in ws[k]
  {
    if s == [] then [[]]
    else if s[0] == ' ' then [[]] + Split(s[1..])
    else
      var ws := Split(s[1..]);
      [[s[0]] + ws[0]] + ws[1..]
  }

  /** `ws.join(' ')`. */
  function Join(ws: seq<string>): string {
    if ws == [] then []
    else if |ws| == 1 then ws[0]
    else ws[0] + " " + Join(ws[1..])
  }

  /** Joining the pieces of a split gives the text back. */
  lemma {:induction false} JoinSplit(s: string)
    ensures Join(Split(s)) == s
  {
    if s != [] {
      JoinSplit(s[1..]);
      var ws := Split(s[1..]);
      if s[0] != ' ' {
        JoinConsHead([s[0]], ws[0], ws[1..]);
        assert [ws[0]] + ws[1..] == ws;
      }
    }
  }

  /** Splitting the join of space-free pieces gives the pieces back. */
  lemma {:induction false} SplitJoin(ws: seq<string>)
    requires |ws| >= 1
    requires forall k :: 0 <= k < |ws| ==> ' ' !in ws[k]
    ensures Split(Join(ws)) == ws
    decreases |ws|, |ws[0]|
  {
    if |ws| == 1 {
      SplitWord(ws[0]);
    } else if ws[0] == [] {
      SplitJoin(ws[1..]);
      assert Join(ws) == " " + Join(ws[1..]);
      assert (" " + Join(ws[1..]))[1..] == Join(ws[1..]);
      assert [[]] + ws[1..] == ws;
    } else {
      var w := ws[0];
      var shorter := [w[1..]] + ws[1..];
      assert shorter[1..] == ws[1..];
      assert ' ' !in w[1..] by {
        forall j | 0 <= j < |w[1..]| ensures w[1..][j] != ' ' {
          assert w[1..][j] == w[j + 1];
        }
      }
      SplitJoin(shorter);
      assert Join(ws) == [w[0]] + Join(shorter);
      assert ([w[0]] + Join(shorter))[1..] == Join(shorter);
      assert [w[0]] + w[1..] == w;
    }
  }

  lemma {:induction false} SplitWord(w: string)
    requires ' ' !in w
    ensures Split(w) == [w]
  {
    if w != [] {
      assert ' ' !in w[1..] by {
        forall j | 0 <= j < |w[1..]| ensures w[1..][j] != ' ' {
          assert w[1..][j] == w[j + 1];
        }
      }
      SplitWord(w[1..]);
      assert [w[0]] + w[1..] == w;
    }
  }

  /** Joining after extending the first piece at its front. */
  lemma JoinConsHead(a: string, b: string, rest: seq<string>)
    ensures Join([a + b] + rest) == a + Join([b] + rest)
  {
    if rest != [] {
      assert ([a + b] + rest)[1..] == rest;
      assert ([b] + rest)[1..] == rest;
    }
  }

  /** One piece mapped by `firstLatterUppercase`: its first character
      upper-cased and the rest lower-cased; an empty piece stays empty. */
  function CapWord(w: string): string {
    if w == [] then [] else [UpperChar(w[0])] + LowerCase(w[1..])
  }

  function CapWords(ws: seq<string>): (cs: seq<string>)
    ensures |cs| == |ws|
  {
    if ws == [] then [] else [CapWord(ws[0])] + CapWords(ws[1..])
  }

  /** `Helpers.firstLatterUppercase(str)`: lower-case, split on spaces,
      capitalise each piece, join with spaces. */
  function FirstLatterUppercase(s: string): string {
    Join(CapWords(Split(LowerCase(s))))
  }

  /** Reference reading of the capitalisation, one character at a time:
      a character that starts a word (the first one, or one after a space)
      is upper-cased, any other is lower-cased. atStart says whether the
      first character of t starts a word. */
  function CapFrom(t: string, atStart: bool): (r: string)
    ensures |r| == |t|
  {
    if t == [] then []
    else if t[0] == ' ' then " " + CapFrom(t[1..], true)
    else [if atStart then UpperChar(t[0]) else LowerChar(t[0])] + CapFrom(t[1..], false)
  }

  /** The word-by-word computation agrees with the character-by-character one. */
  lemma {:induction false} CapWordsIsCapFrom(t: string)
    ensures Join(CapWords(Split(t))) == CapFrom(t, true)
    ensures var ws := Split(t); Join([LowerCase(ws[0])] + CapWords(ws[1..])) == CapFrom(t, false)
  {
    if t == [] {
      assert LowerCase([]) == [];
    } else if t[0] == ' ' {
      CapWordsIsCapFrom(t[1..]);
      CapSpaceStep(t);
    } else {
      CapWordsIsCapFrom(t[1..]);
      CapLetterStep(t);
    }
  }

  /** A leading space starts an empty first piece. */
  lemma CapSpaceStep(t: string)
    requires t != [] && t[0] == ' '
    requires Join(CapWords(Split(t[1..]))) == CapFrom(t[1..], true)
    ensures Join(CapWords(Split(t))) == CapFrom(t, true)
    ensures var ws := Split(t); Join([LowerCase(ws[0])] + CapWords(ws[1..])) == CapFrom(t, false)
  {
    var ws, ws' := Split(t), Split(t[1..]);
    assert ws == [[]] + ws';
    assert ws[1..] == ws';
    assert CapWords(ws) == [[]] + CapWords(ws');
    assert (CapWords(ws))[1..] == CapWords(ws');
    assert LowerCase(ws[0]) == [];
    assert ([LowerCase(ws[0])] + CapWords(ws[1..]))[1..] == CapWords(ws');
  }

  /** A leading letter joins the first piece of the rest. */
  lemma CapLetterStep(t: string)
    requires t != [] && t[0] != ' '
    requires var ws' := Split(t[1..]); Join([LowerCase(ws'[0])] + CapWords(ws'[1..])) == CapFrom(t[1..], false)
    ensures Join(CapWords(Split(t))) == CapFrom(t, true)
    ensures var ws := Split(t); Join([LowerCase(ws[0])] + CapWords(ws[1..])) == CapFrom(t, false)
  {
    var ws, ws' := Split(t), Split(t[1..]);
    var c, w0, r := t[0], ws'[0], ws'[1..];
    assert ws == [[c] + w0] + r;
    assert ws[1..] == r;
    assert ws[0] == [c] + w0;
    assert CapWord(ws[0]) == [UpperChar(c)] + LowerCase(w0) by {
      assert ws[0][1..] == w0;
    }
    assert CapWords(ws) == [[UpperChar(c)] + LowerCase(w0)] + CapWords(r);
    JoinConsHead([UpperChar(c)], LowerCase(w0), CapWords(r));
    assert LowerCase([c] + w0) == [LowerChar(c)] + LowerCase(w0);
    JoinConsHead([LowerChar(c)], LowerCase(w0), CapWords(r));
  }

  /** Character i of the capitalised text of t. */
  lemma {:induction false} CapFromAt(t: string, atStart: bool, i: nat)
    requires i < |t|
    ensures CapFrom(t, atStart)[i]
         == if t[i] == ' ' then ' '
            else if (i == 0 && atStart) || (i > 0 && t[i - 1] == ' ') then UpperChar(t[i])
            else LowerChar(t[i])
    decreases i
  {
    if i > 0 {
      CapFromAt(t[1..], t[0] == ' ', i - 1);
    }
  }

  /** Character i of a capitalised name: a space stays a space, a word's
      first character is upper-cased and every other is lower-cased. */
  function CapAt(s: string, i: nat): char
    requires i < |s|
  {
    if s[i] == ' ' then ' '
    else if i == 0 || s[i - 1] == ' ' then UpperChar(LowerChar(s[i]))
    else LowerChar(s[i])
  }

  function Capitalised(s: string): (r: string)
    ensures |r| == |s|
  {
    seq(|s|, i requires 0 <= i < |s| => CapAt(s, i))
  }

  /** `firstLatterUppercase` keeps the length and the spaces, upper-cases the
      first character of each word and lower-cases every other one. */
  lemma FirstLatterUppercaseIsCapitalised(s: string)
    ensures FirstLatterUppercase(s) == Capitalised(s)
  {
    var t := LowerCase(s);
    CapWordsIsCapFrom(t);
    forall i | 0 <= i < |s|
      ensures FirstLatterUppercase(s)[i] == CapAt(s, i)
    {
      CapFromAt(t, true, i);
      assert t[i] == ' ' <==> s[i] == ' ';
      assert i > 0 ==> (t[i - 1] == ' ' <==> s[i - 1] == ' ');
    }
  }

  /** Capitalising a capitalised name changes nothing. */
  lemma FirstLatterUppercaseIdempotent(s: string)
    ensures FirstLatterUppercase(FirstLatterUppercase(s)) == FirstLatterUppercase(s)
  {
    var f := Capitalised(s);
    FirstLatterUppercaseIsCapitalised(s);
    FirstLatterUppercaseIsCapitalised(f);
    forall i | 0 <= i < |s|
      ensures f[i] == ' ' <==> s[i] == ' '
    {
    }
    forall i | 0 <= i < |s|
      ensures Capitalised(f)[i] == f[i]
    {
      CaseRoundTrip(s[i]);
      CaseRoundTrip(LowerChar(s[i]));
      if i > 0 {
        assert f[i - 1] == ' ' <==> s[i - 1] == ' ';
      }
    }
  }

  /** Lower-casing a name first makes no difference to its capitalisation. */
  lemma FirstLatterUppercaseOfLower(s: string)
    ensures FirstLatterUppercase(LowerCase(s)) == FirstLatterUppercase(s)
  {
    LowerCaseIdempotent(s);
  }

  /** The digit characters for a sequence of digit values. */
  function DigitString(ds: seq<nat>): (r: string)
    requires forall i :: 0 <= i < |ds| ==> ds[i] < 10
    ensures |r| == |ds| && AllDigits(r)
    ensures forall i :: 0 <= i < |ds| ==> DigitValue(r[i]) == ds[i]
  {
    seq(|ds|, i requires 0 <= i < |ds| => DigitChar(ds[i]))
  }

  /** `Helpers.generateRundomIntegers(integerLength)`: a space followed by
      integerLength digits, read back with `parseInt(result, 10)`. The digit
      drawn on round i (`Math.floor(Math.random() * 10)`) is choices[i]. */
  method GenerateRandomIntegers(integerLength: int, choices: seq<nat>) returns (r: Option<int>)
    requires integerLength <= |choices|
    requires forall i :: 0 <= i < |choices| ==> choices[i] < 10
    ensures integerLength <= 0 ==> r == None
    ensures integerLength > 0 ==> r == Some(DigitsValue(DigitString(choices[..integerLength])))
    ensures integerLength > 0 ==> 0 <= r.value < Pow10(integerLength)
  {
    var result := " ";
    var i := 0;
    while i < integerLength
      invariant 0 <= i <= |choices| && (i > 0 ==> i <= integerLength)
      invariant result == " " + DigitString(choices[..i])
    {
      assert DigitString(choices[..i + 1]) == DigitString(choices[..i]) + [DigitChar(choices[i])];
      result := result + [DigitChar(choices[i])];
      i := i + 1;
    }
    if integerLength <= 0 {
      assert result == " ";
      assert TrimStart(" ") == [];
      assert DigitRun([]) == 0;
    } else {
      var ds := DigitString(choices[..integerLength]);
      assert i == integerLength;
      ParseIntOfSpacedDigits(ds);
      DigitsValueBound(ds);
    }
    r := ParseInt(result);
  }

  /** The leading zeros are dropped: the value's own numeral is no longer
      than the digit string drawn. */
  lemma GeneratedNumeralLength(n: nat, ds: seq<nat>)
    requires |ds| >= 1 && forall i :: 0 <= i < |ds| ==> ds[i] < 10
    requires n == DigitsValue(DigitString(ds))
    ensures |NatToString(n)| <= |ds|
  {
    DigitsValueBound(DigitString(ds));
    NatToStringShortest(n, |ds|);
  }

  /** `Helpers.parseJson(props)`: `JSON.parse(props)`, or props itself when
      parsing throws. It never throws. */
  function ParseJson(s: string): (r: Json)
    ensures Parse(s).Some? ==> r == Parse(s).value
    ensures Parse(s) == None ==> r == Str(s)
  {
    match Parse(s)
    case Some(v) => v
    case None => Str(s)
  }

  /** The decimal rendering of an integer is parsed back as that number. */
  lemma ParseJsonOfInt(n: int)
    ensures ParseJson(IntToString(n)) == Num(n)
  {
    JsonLaws.RoundTrip(Num(n));
  }

  /** Whatever `JSON.stringify` writes, `parseJson` reads back. */
  lemma ParseJsonOfStringify(v: Json)
    requires WellFormed(v)
    ensures ParseJson(Stringify(v)) == v
  {
    JsonLaws.RoundTrip(v);
  }

  /** A stringified value with `;` appended is not JSON, so it comes back as the raw text. */
  lemma ParseJsonOfSemicolon(v: Json)
    requires WellFormed(v)
    ensures ParseJson(Stringify(v) + ";") == Str(Stringify(v) + ";")
  {
    JsonLaws.TrailingSemicolonRejected(v);
  }

  /** `${undefined}` is not JSON: a missing field comes back as the text "undefined". */
  lemma ParseJsonOfUndefined()
    ensures ParseJson(Template(None)) == Str("undefined")
  {
    assert SkipSpace("undefined") == "undefined";
  }
}
