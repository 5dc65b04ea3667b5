/**
 * The few Python string operations the listener layer relies on, restricted to
 * ASCII: `str.title()` (keyword types), `str.strip()` and `int()` on a string
 * (the listener API version), and `str()` of an integer (error messages).
 */
module PyText {
  import opened Wrappers

  predicate IsUpper(c: char) { 'A' <= c <= 'Z' }
  predicate IsLower(c: char) { 'a' <= c <= 'z' }
  predicate IsCased(c: char) { IsUpper(c) || IsLower(c) }
  predicate IsDigit(c: char) { '0' <= c <= '9' }

  /** ASCII whitespace (space, \t, \n, \v, \f, \r), the part of the
      whitespace `int()` skips around its digits that this model handles. */
  predicate IsSpace(c: char) { c == ' ' || 9 <= c as int <= 13 }

  function ToUpper(c: char): (r: char)
    ensures IsCased(r) == IsCased(c) && !IsLower(r)
    ensures !IsLower(c) ==> r == c
  {
    if IsLower(c) then (c as int - 32) as char else c
  }

  function ToLower(c: char): (r: char)
    ensures IsCased(r) == IsCased(c) && !IsUpper(r)
    ensures !IsUpper(c) ==> r == c
  {
    if IsUpper(c) then (c as int + 32) as char else c
  }

  /** `s.title()`: every cased letter that follows an uncased character (or
      starts the string) is upper-cased, every other cased letter lower-cased. */
  function Title(s: string): (r: string)
    ensures |r| == |s|
    ensures forall k :: 0 <= k < |s| ==>
      r[k] == if k > 0 && IsCased(s[k - 1]) then ToLower(s[k]) else ToUpper(s[k])
  {
    TitleAfter(s, false)
  }

  function TitleAfter(s: string, afterCased: bool): (r: string)
    ensures |r| == |s|
    ensures forall k :: 0 <= k < |s| ==>
      r[k] == if (if k == 0 then afterCased else IsCased(s[k - 1])) then ToLower(s[k]) else ToUpper(s[k])
  {
    if s == [] then []
    else [if afterCased then ToLower(s[0]) else ToUpper(s[0])] + TitleAfter(s[1..], IsCased(s[0]))
  }

  /** Title-casing a title-cased string changes nothing. */
  lemma TitleIdempotent(s: string)
    ensures Title(Title(s)) == Title(s)
  {
    var t := Title(s);
    forall k | 0 <= k < |s|
      ensures Title(t)[k] == t[k]
    {
      if k > 0 {
        var j := k - 1;
        assert t[j] == if j > 0 && IsCased(s[j - 1]) then ToLower(s[j]) else ToUpper(s[j]);
        assert IsCased(t[j]) == IsCased(s[j]);
      }
    }
  }

  /** A lower-case word is title-cased by upper-casing its first letter. */
  lemma TitleLowerWord(s: string)
    requires |s| > 0 && forall k :: 0 <= k < |s| ==> IsLower(s[k])
    ensures Title(s) == [ToUpper(s[0])] + s[1..]
  {
    var r := Title(s);
    forall k | 0 < k < |s|
      ensures r[k] == s[k]
    {
      assert IsCased(s[k - 1]);
    }
  }

  function StripLeft(s: string): (r: string)
    ensures |r| <= |s| && r == s[|s| - |r|..]
    ensures r == [] || !IsSpace(r[0])
  {
    if s != [] && IsSpace(s[0]) then StripLeft(s[1..]) else s
  }

  function StripRight(s: string): (r: string)
    ensures |r| <= |s| && r == s[..|r|]
    ensures r == [] || !IsSpace(r[|r| - 1])
  {
    if s != [] && IsSpace(s[|s| - 1]) then StripRight(s[..|s| - 1]) else s
  }

  /** `s.strip()` for ASCII whitespace. */
  function Strip(s: string): string {
    StripRight(StripLeft(s))
  }

  predicate AllDigits(s: string) {
    forall k :: 0 <= k < |s| ==> IsDigit(s[k])
  }

  /** The value of a string of decimal digits, most significant first. */
  function DigitsValue(s: string): nat
    requires AllDigits(s)
  {
    if s == [] then 0
    else DigitsValue(s[..|s| - 1]) * 10 + (s[|s| - 1] as int - '0' as int)
  }

  /** `int(s)` for a string: `None` where Python raises ValueError. Surrounding
      whitespace is ignored, one optional sign is accepted, then at least one
      decimal digit and nothing else. */
  function ParseInt(s: string): Option<int> {
    var t := Strip(s);
    if t != [] && (t[0] == '+' || t[0] == '-') then
      if |t| > 1 && AllDigits(t[1..]) then
        var v: int := DigitsValue(t[1..]);
        Some(if t[0] == '-' then -v else v)
      else None
    else if t != [] && AllDigits(t) then Some(DigitsValue(t))
    else None
  }

  function DigitChar(d: nat): char
    requires d < 10
  {
    ('0' as int + d) as char
  }

  /** The decimal digits of `n`, without leading zeros. */
  function DecimalDigits(n: nat): (r: string)
    ensures r != [] && AllDigits(r)
  {
    if n < 10 then [DigitChar(n)] else DecimalDigits(n / 10) + [DigitChar(n % 10)]
  }

  /** `str(n)` for an integer. */
  function IntToString(n: int): string {
    if n < 0 then "-" + DecimalDigits(-n) else DecimalDigits(n)
  }

  lemma {:induction false} DecimalDigitsValue(n: nat)
    ensures DigitsValue(DecimalDigits(n)) == n
  {
    if n >= 10 {
      var r := DecimalDigits(n);
      assert r[..|r| - 1] == DecimalDigits(n / 10);
      DecimalDigitsValue(n / 10);
    }
  }

  lemma StripUnpadded(s: string)
    requires s != [] && !IsSpace(s[0]) && !IsSpace(s[|s| - 1])
    ensures Strip(s) == s
  {
  }

  /** Parsing what `str()` renders gives the integer back. */
  lemma ParseIntRoundTrip(n: int)
    ensures ParseInt(IntToString(n)) == Some(n)
  {
    var m: nat := if n < 0 then -n else n;
    var d := DecimalDigits(m);
    DecimalDigitsValue(m);
    assert IsDigit(d[0]) && IsDigit(d[|d| - 1]);
    if n < 0 {
      var s := "-" + d;
      assert s == IntToString(n);
      StripUnpadded(s);
      assert s[1..] == d;
    } else {
      assert d == IntToString(n);
      StripUnpadded(d);
    }
  }

}
