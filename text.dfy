/** The pieces of Python's string handling that the bots rely on: str.lower() on the
    letters the validators compare, str.strip(), str(n) for an int, int(s) for a decimal
    literal, and app.py's safe_int. */
module Text {
  import opened Common

  predicate IsDigit(c: char) {
    '0' <= c <= '9'
  }

  predicate AllDigits(s: string) {
    forall i :: 0 <= i < |s| ==> IsDigit(s[i])
  }

  function DigitChar(d: nat): (c: char)
    requires d < 10
    ensures IsDigit(c) && c as int - '0' as int == d
  {
    ('0' as int + d) as char
  }

  /** str(n) for n >= 0: the decimal digits of n, most significant first, without leading zeros. */
  function NatToString(n: nat): (s: string)
    ensures |s| > 0 && AllDigits(s)
    ensures s[0] != '0' || n == 0
    decreases n
  {
    if n < 10 then [DigitChar(n)] else NatToString(n / 10) + [DigitChar(n % 10)]
  }

  /** The number a non-empty run of decimal digits denotes. */
  function DigitsValue(s: string): nat
    requires AllDigits(s)
  {
    if s == [] then 0 else DigitsValue(s[..|s| - 1]) * 10 + (s[|s| - 1] as int - '0' as int)
  }

  lemma {:induction false} DigitsValueOfNatToString(n: nat)
    ensures DigitsValue(NatToString(n)) == n
  {
    if n >= 10 {
      var s := NatToString(n / 10);
      var t := s + [DigitChar(n % 10)];
      assert t[..|t| - 1] == s;
      DigitsValueOfNatToString(n / 10);
    }
  }

  /** str(n) for any int. */
  function IntToString(n: int): (s: string)
    ensures |s| > 0 && (s[0] == '-' || IsDigit(s[0]))
  {
    if n < 0 then "-" + NatToString(-n) else NatToString(n)
  }

  /** int(s) on the strings the partner column holds: an optional sign followed by at least
      one ASCII decimal digit, and None for anything else. Python also accepts surrounding
      whitespace, underscores between digits and non-ASCII digits; no stored value has them. */
  function ParseInt(s: string): Option<int> {
    if |s| > 1 && (s[0] == '-' || s[0] == '+') && AllDigits(s[1..]) then
      var v: int := DigitsValue(s[1..]);
      Some(if s[0] == '-' then -v else v)
    else if |s| > 0 && AllDigits(s) then
      Some(DigitsValue(s))
    else
      None
  }

  /** int(str(n)) == n. */
  lemma ParseIntOfIntToString(n: int)
    ensures ParseInt(IntToString(n)) == Some(n)
  {
    var s := IntToString(n);
    if n < 0 {
      assert s[1..] == NatToString(-n);
      DigitsValueOfNatToString(-n);
    } else {
      DigitsValueOfNatToString(n);
    }
  }

  /** str.lower() on ASCII letters. */
  function LowerChar(c: char): char {
    if 'A' <= c <= 'Z' then (c as int + 32) as char else c
  }

  function Lower(s: string): (r: string)
    ensures |r| == |s|
    ensures forall i :: 0 <= i < |s| ==> r[i] == LowerChar(s[i])
  {
    seq(|s|, i requires 0 <= i < |s| => LowerChar(s[i]))
  }

  /** The two strings are equal once `s` is lower-cased, stated character by character. */
  predicate EqualsIgnoringCase(s: string, lower: string) {
    |s| == |lower| && forall i :: 0 <= i < |s| ==> LowerChar(s[i]) == lower[i]
  }

  lemma LowerEquals(s: string, lower: string)
    ensures Lower(s) == lower <==> EqualsIgnoringCase(s, lower)
  {
    if EqualsIgnoringCase(s, lower) {
      assert forall i :: 0 <= i < |s| ==> Lower(s)[i] == lower[i];
    }
  }

  /** app.py:653-656: None and any spelling of "none" give None; anything else goes through int(). */
  function SafeInt(v: Option<string>): Result<Option<int>> {
    if v.None? || Lower(v.value) == "none" then
      Ok(None)
    else
      match ParseInt(v.value)
      case Some(n) => Ok(Some(n))
      case None => ValueError
  }

  /** safe_int undoes str() on an int. */
  lemma SafeIntOfIntToString(n: int)
    ensures SafeInt(Some(IntToString(n))) == Ok(Some(n))
  {
    var s := IntToString(n);
    assert Lower(s)[0] == s[0] != "none"[0];
    ParseIntOfIntToString(n);
  }

  /** safe_int turns every spelling of "none" into None, whatever the case of its letters. */
  lemma SafeIntOfNone(s: string)
    requires EqualsIgnoringCase(s, "none")
    ensures SafeInt(Some(s)) == Ok(None)
  {
    LowerEquals(s, "none");
  }

  /** str.isspace() for one character: the ASCII controls \t..\r and \x1c..\x1f, the space,
      and the Unicode spaces and separators Python counts as whitespace. */
  predicate IsSpace(c: char) {
    c == ' ' || '\t' <= c <= '\r' || '\U{1C}' <= c <= '\U{1F}' || c == '\U{85}' || c == '\U{A0}'
    || c == '\U{1680}' || '\U{2000}' <= c <= '\U{200A}' || c == '\U{2028}' || c == '\U{2029}'
    || c == '\U{202F}' || c == '\U{205F}' || c == '\U{3000}'
  }

  /** str.lstrip(): drops the leading whitespace, and only that. */
  function TrimStart(s: string): (r: string)
    ensures |r| <= |s| && r == s[|s| - |r|..]
    ensures forall i :: 0 <= i < |s| - |r| ==> IsSpace(s[i])
    ensures r == [] || !IsSpace(r[0])
  {
    if s != [] && IsSpace(s[0]) then TrimStart(s[1..]) else s
  }

  /** str.rstrip(): drops the trailing whitespace, and only that. */
  function TrimEnd(s: string): (r: string)
    ensures |r| <= |s| && r == s[..|r|]
    ensures forall i :: |r| <= i < |s| ==> IsSpace(s[i])
    ensures r == [] || !IsSpace(r[|r| - 1])
  {
    if s != [] && IsSpace(s[|s| - 1]) then TrimEnd(s[..|s| - 1]) else s
  }

  /** str.strip(). */
  function Strip(s: string): string {
    TrimEnd(TrimStart(s))
  }

  /** strip()'s result sits in its input right after the leading whitespace. */
  lemma StripSlice(s: string)
    ensures var r, lo := Strip(s), |s| - |TrimStart(s)|;
      0 <= lo && lo + |r| <= |s| && r == s[lo..lo + |r|]
  {
    var t := TrimStart(s);
    var lo := |s| - |t|;
    assert t == s[lo..];
    assert TrimEnd(t) == t[..|TrimEnd(t)|];
  }

  /** Everything after strip()'s result in its input is whitespace. */
  lemma StripTail(s: string)
    ensures var r, lo := Strip(s), |s| - |TrimStart(s)|;
      forall i :: lo + |r| <= i < |s| ==> IsSpace(s[i])
  {
    var t := TrimStart(s);
    var r := TrimEnd(t);
    var lo := |s| - |t|;
    forall i | lo + |r| <= i < |s| ensures IsSpace(s[i]) {
      assert s[i] == t[i - lo];
    }
  }

  /** strip()'s result neither starts nor ends with whitespace. */
  lemma StripEnds(s: string)
    ensures var r := Strip(s); r == [] || (!IsSpace(r[0]) && !IsSpace(r[|r| - 1]))
  {
    var t := TrimStart(s);
    var r := TrimEnd(t);
    if r != [] {
      assert r[0] == t[0];
    }
  }

  /** strip() leaves a slice of its input with whitespace cut from both ends, and nothing
      else: the result neither starts nor ends with whitespace. */
  lemma StripIsTrimmedSlice(s: string)
    ensures var r, lo := Strip(s), |s| - |TrimStart(s)|;
      0 <= lo && lo + |r| <= |s| && r == s[lo..lo + |r|]
        && (forall i :: 0 <= i < lo ==> IsSpace(s[i]))
        && (forall i :: lo + |r| <= i < |s| ==> IsSpace(s[i]))
        && (r == [] || (!IsSpace(r[0]) && !IsSpace(r[|r| - 1])))
  {
    StripSlice(s);
    StripTail(s);
    StripEnds(s);
  }
}
