/** `JSON.parse` inverts `JSON.stringify`: the laws the cache codecs rely on. */
module JsonLaws {
  import opened Wrappers
  import opened JsText
  import opened Json

  /** A character that can begin the text of a value. */
  predicate StartsValue(c: char) {
    c == 'n' || c == 't' || c == 'f' || c == '"' || c == '[' || c == '{' || c == '-' || IsDigit(c)
  }

  /** What may follow a value in the texts the caches read: the end, a
      separator, a closing bracket, or the `;` the user decoder appends. */
  predicate Delimited(rest: string) {
    rest == [] || rest[0] == ',' || rest[0] == ']' || rest[0] == '}' || rest[0] == ';'
  }

  lemma HexDigitValue(d: nat)
    requires d < 16
    ensures IsHexDigit(HexDigit(d)) && HexValue(HexDigit(d)) == d
  {
  }

  /** Reading one escaped character back. */
  lemma {:induction false} EscapeCharRoundTrip(c: char, after: string)
    ensures ParseChars(EscapeChar(c) + after) ==
      match ParseChars(after)
      case None => None
      case Some((t, rest)) => Some(([c] + t, rest))
  {
    var e := EscapeChar(c);
    var s := e + after;
    if c == '"' || c == '\\' || c as int == 0x08 || c == '\t' || c == '\n' || c as int == 0x0C || c == '\r' {
      assert s[0] == '\\';
      assert s[1..] == [e[1]] + after;
      assert Unescape(s[1..]) == Some((c, after));
    } else if c as int < 0x20 {
      var hi, lo := c as int / 16, c as int % 16;
      HexDigitValue(hi);
      HexDigitValue(lo);
      assert s[0] == '\\';
      var u := s[1..];
      assert u == ['u', '0', '0', HexDigit(hi), HexDigit(lo)] + after;
      assert u[5..] == after;
      assert HexValue(u[1]) * 4096 + HexValue(u[2]) * 256 + HexValue(u[3]) * 16 + HexValue(u[4]) == c as int;
      assert (c as int) as char == c;
      assert Unescape(u) == Some((c, after));
    } else {
      assert e == [c];
      assert s[1..] == after;
    }
  }

  /** A quoted string is read back up to its closing quote. */
  lemma {:induction false} EscapeRoundTrip(str: string, rest: string)
    ensures ParseChars(Escape(str) + "\"" + rest) == Some((str, rest))
    decreases |str|
  {
    if str == [] {
      assert Escape(str) + "\"" + rest == "\"" + rest;
    } else {
      var after := Escape(str[1..]) + "\"" + rest;
      assert Escape(str) + "\"" + rest == EscapeChar(str[0]) + after;
      EscapeRoundTrip(str[1..], rest);
      EscapeCharRoundTrip(str[0], after);
      assert [str[0]] + str[1..] == str;
    }
  }

  lemma QuoteRoundTrip(str: string, rest: string)
    ensures Quote(str) + rest == "\"" + (Escape(str) + "\"" + rest)
    ensures ParseValue(Quote(str) + rest) == Some((Str(str), rest))
  {
    QuoteText(str, rest);
    EscapeRoundTrip(str, rest);
    ParseValueOfString(Quote(str) + rest, str, rest);
  }

  lemma QuoteText(str: string, rest: string)
    ensures Quote(str) + rest == "\"" + (Escape(str) + "\"" + rest)
    ensures (Quote(str) + rest)[0] == '"' && (Quote(str) + rest)[1..] == Escape(str) + "\"" + rest
  {
  }

  lemma ParseValueOfString(s: string, str: string, rest: string)
    requires s != [] && s[0] == '"' && ParseChars(s[1..]) == Some((str, rest))
    ensures ParseValue(s) == Some((Str(str), rest))
  {
  }

  lemma ParseValueOfNumber(s: string)
    requires s != [] && (s[0] == '-' || IsDigit(s[0]))
    ensures ParseValue(s) == ParseNumber(s)
  {
  }

  lemma ParseValueOfArray(s: string)
    requires s != [] && s[0] == '['
    ensures ParseValue(s) == ParseArray(SkipSpace(s[1..]))
  {
  }

  lemma ParseValueOfObject(s: string)
    requires s != [] && s[0] == '{'
    ensures ParseValue(s) == ParseObject(SkipSpace(s[1..]))
  {
  }

  /** The numeral of a natural number, followed by a delimiter, is read as that number. */
  lemma NumeralRoundTrip(d: nat, rest: string)
    requires Delimited(rest)
    ensures ParseNatural(NatToString(d) + rest) == Some((d, rest))
  {
    var digits := NatToString(d);
    var t := digits + rest;
    assert t[0] == digits[0];
    DigitRunOfNumeral(digits, rest);
    assert NumeralLength(t) == |digits|;
    assert t[..|digits|] == digits;
    assert t[|digits|..] == rest;
  }

  lemma NegativeNumber(t: string, m: nat, rest: string)
    requires ParseNatural(t) == Some((m, rest))
    ensures ParseNumber("-" + t) == Some((Num(-(m as int)), rest))
  {
    assert ("-" + t)[1..] == t;
  }

  lemma NegativeRoundTrip(n: int, rest: string)
    requires Delimited(rest) && n < 0
    ensures ParseValue(IntToString(n) + rest) == Some((Num(n), rest))
  {
    var m: nat := -n;
    var t := NatToString(m) + rest;
    assert IntToString(n) + rest == "-" + t;
    NumeralRoundTrip(m, rest);
    NegativeNumber(t, m, rest);
    ParseValueOfNumber("-" + t);
  }

  lemma NonNegativeRoundTrip(n: nat, rest: string)
    requires Delimited(rest)
    ensures ParseValue(IntToString(n) + rest) == Some((Num(n), rest))
  {
    var s := IntToString(n) + rest;
    assert s == NatToString(n) + rest;
    NumeralRoundTrip(n, rest);
    assert s[0] != '-';
    assert ParseNumber(s) == Some((Num(n), rest));
    ParseValueOfNumber(s);
  }

  /** An integer is read back when a delimiter or nothing follows it. */
  lemma NumRoundTrip(n: int, rest: string)
    requires Delimited(rest)
    ensures ParseValue(IntToString(n) + rest) == Some((Num(n), rest))
  {
    if n < 0 {
      NegativeRoundTrip(n, rest);
    } else {
      NonNegativeRoundTrip(n, rest);
    }
  }

  /** The text of every value is non-empty and starts like a value. */
  lemma StringifyStarts(v: Json)
    ensures Stringify(v) != [] && StartsValue(Stringify(v)[0])
  {
    if v.Num? {
      assert v.n >= 0 ==> Stringify(v) == NatToString(v.n);
    }
  }

  /** The head of a comma-joined list is the head of its first text. */
  lemma JoinCommaStarts(ss: seq<string>)
    requires ss != [] && ss[0] != []
    ensures JoinComma(ss) != [] && JoinComma(ss)[0] == ss[0][0]
  {
  }

  lemma JoinCommaSplit(ss: seq<string>, k: nat)
    requires k + 1 < |ss|
    ensures JoinComma(ss[k..]) == ss[k] + "," + JoinComma(ss[k + 1..])
  {
    assert ss[k..][1..] == ss[k + 1..];
  }

  lemma PutFresh(ms: seq<(string, Json)>, k: string, v: Json)
    requires forall i :: 0 <= i < |ms| ==> ms[i].0 != k
    ensures Put(ms, k, v) == ms + [(k, v)]
  {
    if ms != [] {
      PutFresh(ms[1..], k, v);
    }
  }

  lemma ElementsLast(s: string, acc: seq<Json>, v: Json, rest: string)
    requires ParseValue(s) == Some((v, "]" + rest))
    ensures ParseElements(s, acc) == Some((Arr(acc + [v]), rest))
  {
    assert ("]" + rest)[1..] == rest;
  }

  lemma ElementsNext(s: string, acc: seq<Json>, v: Json, tail: string)
    requires ParseValue(s) == Some((v, "," + tail))
    requires tail != [] && !IsJsonSpace(tail[0])
    ensures ParseElements(s, acc) == ParseElements(tail, acc + [v])
  {
    assert ("," + tail)[1..] == tail;
  }

  /** The text of a list from its last item on. */
  lemma ListTextLast(ss: seq<string>, k: nat, close: string, rest: string)
    requires k + 1 == |ss|
    ensures JoinComma(ss[k..]) + close + rest == ss[k] + (close + rest)
  {
    assert ss[k..] == [ss[k]];
  }

  /** The text of a list from its k-th item on: that item, a comma, and the text from the next one. */
  lemma ListTextNext(ss: seq<string>, k: nat, close: string, rest: string)
    requires k + 1 < |ss| && ss[k + 1] != []
    ensures JoinComma(ss[k..]) + close + rest == ss[k] + ("," + (JoinComma(ss[k + 1..]) + close + rest))
    ensures (JoinComma(ss[k + 1..]) + close + rest)[0] == ss[k + 1][0]
  {
    JoinCommaSplit(ss, k);
    assert ss[k + 1..][0] == ss[k + 1];
    JoinCommaStarts(ss[k + 1..]);
  }

  /** The elements from the k-th on, once the first k are read. */
  lemma {:induction false} ElementsRoundTrip(es: seq<Json>, ss: seq<string>, k: nat, rest: string)
    requires k < |es| && |ss| == |es|
    requires forall i :: 0 <= i < |es| ==> ss[i] == Stringify(es[i])
    requires forall i, r :: 0 <= i < |es| && Delimited(r) ==> ParseValue(Stringify(es[i]) + r) == Some((es[i], r))
    ensures ParseElements(JoinComma(ss[k..]) + "]" + rest, es[..k]) == Some((Arr(es), rest))
    decreases |es| - k
  {
    var x := JoinComma(ss[k..]) + "]" + rest;
    assert es[..k] + [es[k]] == es[..k + 1];
    if k == |es| - 1 {
      ListTextLast(ss, k, "]", rest);
      assert Delimited("]" + rest);
      assert ParseValue(Stringify(es[k]) + ("]" + rest)) == Some((es[k], "]" + rest));
      ElementsLast(x, es[..k], es[k], rest);
      assert es[..k + 1] == es;
    } else {
      StringifyStarts(es[k + 1]);
      ListTextNext(ss, k, "]", rest);
      var tail := JoinComma(ss[k + 1..]) + "]" + rest;
      assert Delimited("," + tail);
      assert ParseValue(Stringify(es[k]) + ("," + tail)) == Some((es[k], "," + tail));
      ElementsNext(x, es[..k], es[k], tail);
      ElementsRoundTrip(es, ss, k + 1, rest);
    }
  }

  /** One member `"key":value` at the start of s, followed by `after`. */
  ghost predicate MemberAt(s: string, key: string, v: Json, after: string) {
    && s != [] && s[0] == '"'
    && exists w :: ParseChars(s[1..]) == Some((key, ":" + w)) && ParseValue(w) == Some((v, after)) && w != [] && !IsJsonSpace(w[0])
  }

  lemma MemberText(key: string, v: Json, after: string)
    requires WellFormed(v) && Delimited(after)
    requires ParseValue(Stringify(v) + after) == Some((v, after))
    ensures MemberAt(Quote(key) + ":" + Stringify(v) + after, key, v, after)
  {
    StringifyStarts(v);
    StartsNotSpace(Stringify(v)[0]);
    QuotedKey(key, ":" + (Stringify(v) + after));
    MemberFromParts(Quote(key), key, Stringify(v), v, after);
  }

  /** A member put together from a quoted key q read as key and a value
      text t read as v. */
  lemma MemberFromParts(q: string, key: string, t: string, v: Json, after: string)
    requires q != [] && q[0] == '"'
    requires ParseChars((q + (":" + (t + after)))[1..]) == Some((key, ":" + (t + after)))
    requires t != [] && !IsJsonSpace(t[0])
    requires ParseValue(t + after) == Some((v, after))
    ensures MemberAt(q + ":" + t + after, key, v, after)
  {
    var w := t + after;
    ConcatHead(t, after);
    MemberAtIntro(q + (":" + w), key, v, after, w);
    ConcatAssoc(q, ":", t, after);
  }

  lemma ConcatHead(t: string, after: string)
    requires t != []
    ensures t + after != [] && (t + after)[0] == t[0]
  {
  }

  lemma ConcatAssoc(a: string, b: string, c: string, d: string)
    ensures a + b + c + d == a + (b + (c + d))
  {
  }

  /** A quoted key is read up to its closing quote. */
  lemma QuotedKey(key: string, rest: string)
    ensures Quote(key) != [] && Quote(key)[0] == '"'
    ensures ParseChars((Quote(key) + rest)[1..]) == Some((key, rest))
  {
    QuoteText(key, rest);
    EscapeRoundTrip(key, rest);
  }

  lemma MemberAtIntro(s: string, key: string, v: Json, after: string, w: string)
    requires s != [] && s[0] == '"' && ParseChars(s[1..]) == Some((key, ":" + w))
    requires ParseValue(w) == Some((v, after)) && w != [] && !IsJsonSpace(w[0])
    ensures MemberAt(s, key, v, after)
  {
  }

  lemma StartsNotSpace(c: char)
    requires StartsValue(c)
    ensures !IsJsonSpace(c)
  {
  }

  lemma MembersLast(s: string, acc: seq<(string, Json)>, key: string, v: Json, rest: string)
    requires MemberAt(s, key, v, "}" + rest)
    ensures ParseMembers(s, acc) == Some((Obj(Put(acc, key, v)), rest))
  {
    var w :| ParseChars(s[1..]) == Some((key, ":" + w)) && ParseValue(w) == Some((v, "}" + rest)) && w != [] && !IsJsonSpace(w[0]);
    assert (":" + w)[1..] == w;
    assert ("}" + rest)[1..] == rest;
  }

  lemma MembersNext(s: string, acc: seq<(string, Json)>, key: string, v: Json, tail: string)
    requires MemberAt(s, key, v, "," + tail)
    requires tail != [] && !IsJsonSpace(tail[0])
    ensures ParseMembers(s, acc) == ParseMembers(tail, Put(acc, key, v))
  {
    var w :| ParseChars(s[1..]) == Some((key, ":" + w)) && ParseValue(w) == Some((v, "," + tail)) && w != [] && !IsJsonSpace(w[0]);
    assert (":" + w)[1..] == w;
    assert ("," + tail)[1..] == tail;
    assert SkipSpace(":" + w) == ":" + w;
    assert SkipSpace(w) == w;
    assert SkipSpace("," + tail) == "," + tail;
    assert SkipSpace(tail) == tail;
  }

  /** The last member, once all the others are read. */
  lemma MembersFinal(ms: seq<(string, Json)>, ss: seq<string>, rest: string)
    requires ms != [] && |ss| == |ms|
    requires DistinctKeys(ms) && WellFormed(ms[|ms| - 1].1)
    requires ss[|ms| - 1] == Quote(ms[|ms| - 1].0) + ":" + Stringify(ms[|ms| - 1].1)
    requires ParseValue(Stringify(ms[|ms| - 1].1) + ("}" + rest)) == Some((ms[|ms| - 1].1, "}" + rest))
    ensures ParseMembers(JoinComma(ss[|ms| - 1..]) + "}" + rest, ms[..|ms| - 1]) == Some((Obj(ms), rest))
  {
    var k := |ms| - 1;
    var key, val := ms[k].0, ms[k].1;
    PutFresh(ms[..k], key, val);
    assert ms[..k] + [(key, val)] == ms;
    ListTextLast(ss, k, "}", rest);
    assert Delimited("}" + rest);
    MemberText(key, val, "}" + rest);
    MembersLast(JoinComma(ss[k..]) + "}" + rest, ms[..k], key, val, rest);
  }

  /** Reading the k-th member and the comma after it. */
  lemma MembersStep(ms: seq<(string, Json)>, ss: seq<string>, k: nat, rest: string)
    requires k + 1 < |ms| && |ss| == |ms|
    requires DistinctKeys(ms) && WellFormed(ms[k].1)
    requires ss[k] == Quote(ms[k].0) + ":" + Stringify(ms[k].1)
    requires ss[k + 1] != [] && ss[k + 1][0] == '"'
    requires forall r :: Delimited(r) ==> ParseValue(Stringify(ms[k].1) + r) == Some((ms[k].1, r))
    ensures ParseMembers(JoinComma(ss[k..]) + "}" + rest, ms[..k])
         == ParseMembers(JoinComma(ss[k + 1..]) + "}" + rest, ms[..k + 1])
  {
    var key, val := ms[k].0, ms[k].1;
    PutFresh(ms[..k], key, val);
    assert ms[..k] + [(key, val)] == ms[..k + 1];
    ListTextNext(ss, k, "}", rest);
    var tail := JoinComma(ss[k + 1..]) + "}" + rest;
    assert Delimited("," + tail);
    MemberText(key, val, "," + tail);
    MembersNext(JoinComma(ss[k..]) + "}" + rest, ms[..k], key, val, tail);
  }

  /** The members from the k-th on, once the first k are read. */
  lemma {:induction false} MembersRoundTrip(ms: seq<(string, Json)>, ss: seq<string>, k: nat, rest: string)
    requires k < |ms| && |ss| == |ms|
    requires DistinctKeys(ms)
    requires forall i :: 0 <= i < |ms| ==> WellFormed(ms[i].1)
    requires forall i :: 0 <= i < |ms| ==> ss[i] == Quote(ms[i].0) + ":" + Stringify(ms[i].1)
    requires forall i, r :: 0 <= i < |ms| && Delimited(r) ==> ParseValue(Stringify(ms[i].1) + r) == Some((ms[i].1, r))
    ensures ParseMembers(JoinComma(ss[k..]) + "}" + rest, ms[..k]) == Some((Obj(ms), rest))
    decreases |ms| - k
  {
    if k == |ms| - 1 {
      assert Delimited("}" + rest);
      MembersFinal(ms, ss, rest);
    } else {
      assert ss[k + 1] != [] && ss[k + 1][0] == '"';
      MembersStep(ms, ss, k, rest);
      MembersRoundTrip(ms, ss, k + 1, rest);
    }
  }

  lemma ArrayRoundTrip(es: seq<Json>, rest: string)
    requires forall i, r :: 0 <= i < |es| && Delimited(r) ==> ParseValue(Stringify(es[i]) + r) == Some((es[i], r))
    ensures ParseValue(Stringify(Arr(es)) + rest) == Some((Arr(es), rest))
  {
    var ss := seq(|es|, i requires 0 <= i < |es| => Stringify(es[i]));
    var s := "[" + JoinComma(ss) + "]" + rest;
    assert Stringify(Arr(es)) + rest == s;
    assert s[1..] == JoinComma(ss) + "]" + rest;
    ParseValueOfArray(s);
    if es == [] {
      assert s[1..] == "]" + rest;
    } else {
      StringifyStarts(es[0]);
      JoinCommaStarts(ss);
      assert SkipSpace(s[1..]) == s[1..];
      assert ss[0..] == ss;
      assert es[..0] == [];
      ElementsRoundTrip(es, ss, 0, rest);
    }
  }

  lemma ObjectRoundTrip(ms: seq<(string, Json)>, rest: string)
    requires DistinctKeys(ms)
    requires forall i :: 0 <= i < |ms| ==> WellFormed(ms[i].1)
    requires forall i, r :: 0 <= i < |ms| && Delimited(r) ==> ParseValue(Stringify(ms[i].1) + r) == Some((ms[i].1, r))
    ensures ParseValue(Stringify(Obj(ms)) + rest) == Some((Obj(ms), rest))
  {
    var ss := MemberTexts(ms);
    StringifyObj(ms);
    BraceText(JoinComma(ss), rest);
    ParseValueOfObject("{" + JoinComma(ss) + "}" + rest);
    ObjectBody(ms, ss, rest);
  }

  /** The texts `JSON.stringify` writes for the members of an object. */
  function MemberTexts(ms: seq<(string, Json)>): (ss: seq<string>)
    ensures |ss| == |ms|
    ensures forall i :: 0 <= i < |ms| ==> ss[i] == Quote(ms[i].0) + ":" + Stringify(ms[i].1)
  {
    seq(|ms|, i requires 0 <= i < |ms| => Quote(ms[i].0) + ":" + Stringify(ms[i].1))
  }

  lemma StringifyObj(ms: seq<(string, Json)>)
    ensures Stringify(Obj(ms)) == "{" + JoinComma(MemberTexts(ms)) + "}"
  {
  }

  lemma BraceText(body: string, rest: string)
    ensures var s := "{" + body + "}" + rest; s != [] && s[0] == '{' && s[1..] == body + "}" + rest
  {
  }

  /** The members and the closing brace after `{`. */
  lemma ObjectBody(ms: seq<(string, Json)>, ss: seq<string>, rest: string)
    requires |ss| == |ms| && DistinctKeys(ms)
    requires forall i :: 0 <= i < |ms| ==> WellFormed(ms[i].1)
    requires forall i :: 0 <= i < |ms| ==> ss[i] == Quote(ms[i].0) + ":" + Stringify(ms[i].1)
    requires forall i, r :: 0 <= i < |ms| && Delimited(r) ==> ParseValue(Stringify(ms[i].1) + r) == Some((ms[i].1, r))
    ensures ParseObject(SkipSpace(JoinComma(ss) + "}" + rest)) == Some((Obj(ms), rest))
  {
    var t := JoinComma(ss) + "}" + rest;
    if ms == [] {
      assert t == "}" + rest;
    } else {
      assert ss[0] != [] && ss[0][0] == '"';
      JoinCommaStarts(ss);
      assert t[0] == '"';
      assert SkipSpace(t) == t;
      assert ss[0..] == ss;
      assert ms[..0] == [];
      MembersRoundTrip(ms, ss, 0, rest);
    }
  }

  /** `JSON.parse` reads back the text `JSON.stringify` writes for a value,
      leaving whatever delimiter follows it. */
  lemma {:induction false} ValueRoundTrip(v: Json, rest: string)
    requires WellFormed(v) && Delimited(rest)
    ensures ParseValue(Stringify(v) + rest) == Some((v, rest))
    decreases v
  {
    match v
    case Null =>
    case Bool(b) =>
    case Num(n) => NumRoundTrip(n, rest);
    case Str(str) => QuoteRoundTrip(str, rest);
    case Arr(es) =>
      forall i, r | 0 <= i < |es| && Delimited(r)
        ensures ParseValue(Stringify(es[i]) + r) == Some((es[i], r))
      {
        ValueRoundTrip(es[i], r);
      }
      ArrayRoundTrip(es, rest);
    case Obj(ms) =>
      forall i, r | 0 <= i < |ms| && Delimited(r)
        ensures ParseValue(Stringify(ms[i].1) + r) == Some((ms[i].1, r))
      {
        ValueRoundTrip(ms[i].1, r);
      }
      ObjectRoundTrip(ms, rest);
  }

  /** `JSON.parse(JSON.stringify(v))` gives v back. */
  lemma RoundTrip(v: Json)
    requires WellFormed(v)
    ensures Parse(Stringify(v)) == Some(v)
  {
    ValueRoundTrip(v, []);
    assert Stringify(v) + [] == Stringify(v);
    StringifyStarts(v);
  }

  /** A value's text followed by `;` is not JSON: `JSON.parse` throws. */
  lemma TrailingSemicolonRejected(v: Json)
    requires WellFormed(v)
    ensures Parse(Stringify(v) + ";") == None
  {
    ValueRoundTrip(v, ";");
    StringifyStarts(v);
    assert SkipSpace(Stringify(v) + ";") == Stringify(v) + ";";
    assert SkipSpace(";") == ";";
  }
}
