/** The JavaScript string operations the core relies on: decimal digits,
    `Number.prototype.toString` for naturals, ASCII case mapping,
    `startsWith`, substring search and `split(c)[0]`. */
module Text {

  predicate IsDigit(c: char) {
    '0' <= c <= '9'
  }

  /** A non-empty string of decimal digits. */
  predicate IsDigits(s: string) {
    |s| > 0 && forall i :: 0 <= i < |s| ==> IsDigit(s[i])
  }

  /** The value of a string of decimal digits, most significant digit first. */
  function DigitsValue(s: string): nat
    requires forall i :: 0 <= i < |s| ==> IsDigit(s[i])
  {
    if s == [] then 0
    else
      assert IsDigit(s[|s| - 1]);
      DigitsValue(s[..|s| - 1]) * 10 + (s[|s| - 1] as int - '0' as int)
  }

  function DigitChar(d: nat): (c: char)
    requires d < 10
    ensures IsDigit(c) && c as int - '0' as int == d
  {
    (d + '0' as int) as char
  }

  /** Decimal text of a natural number, as `n.toString()` writes it. */
  function NatToText(n: nat): (r: string)
    ensures IsDigits(r)
    ensures r[0] == '0' ==> r == "0"
  {
    if n < 10 then [DigitChar(n)] else NatToText(n / 10) + [DigitChar(n % 10)]
  }

  /** Reading back the decimal text of a natural gives the natural. */
  lemma {:induction false} NatToTextRoundTrip(n: nat)
    ensures DigitsValue(NatToText(n)) == n
  {
    if n >= 10 {
      var s := NatToText(n);
      assert s[..|s| - 1] == NatToText(n / 10);
      NatToTextRoundTrip(n / 10);
    }
  }

  function LowerChar(c: char): char {
    if 'A' <= c <= 'Z' then (c as int + 32) as char else c
  }

  function UpperChar(c: char): char {
    if 'a' <= c <= 'z' then (c as int - 32) as char else c
  }

  function Lower(s: string): (r: string)
    ensures |r| == |s| && forall i :: 0 <= i < |s| ==> r[i] == LowerChar(s[i])
  {
    seq(|s|, i requires 0 <= i < |s| => LowerChar(s[i]))
  }

  function Upper(s: string): (r: string)
    ensures |r| == |s| && forall i :: 0 <= i < |s| ==> r[i] == UpperChar(s[i])
  {
    seq(|s|, i requires 0 <= i < |s| => UpperChar(s[i]))
  }

  predicate StartsWith(s: string, prefix: string) {
    |prefix| <= |s| && s[..|prefix|] == prefix
  }

  /** `needle` occurs in `hay` starting at position `i`. */
  predicate OccursAt(needle: string, hay: string, i: int) {
    0 <= i && i + |needle| <= |hay| && hay[i..i + |needle|] == needle
  }

  /** Substring search, scanning `hay` from the left. */
  predicate IsSubstring(needle: string, hay: string)
    decreases |hay|
  {
    StartsWith(hay, needle) || (|hay| > 0 && IsSubstring(needle, hay[1..]))
  }

  /** The scan finds `needle` exactly when it occurs at some position. */
  lemma {:induction false} IsSubstringIffOccurs(needle: string, hay: string)
    ensures IsSubstring(needle, hay) <==> exists i :: OccursAt(needle, hay, i)
    decreases |hay|
  {
    if StartsWith(hay, needle) {
      assert OccursAt(needle, hay, 0);
    } else if |hay| > 0 {
      IsSubstringIffOccurs(needle, hay[1..]);
      if IsSubstring(needle, hay[1..]) {
        var i :| OccursAt(needle, hay[1..], i);
        assert hay[1..][i..i + |needle|] == hay[i + 1..i + 1 + |needle|];
        assert OccursAt(needle, hay, i + 1);
      }
      forall i | OccursAt(needle, hay, i) ensures OccursAt(needle, hay[1..], i - 1) {
        assert i != 0;
        assert hay[1..][i - 1..i - 1 + |needle|] == hay[i..i + |needle|];
      }
    }
  }

  /** PostgreSQL `ILIKE '%needle%'` read as a case-insensitive substring test. */
  predicate ContainsIgnoringCase(hay: string, needle: string) {
    IsSubstring(Lower(needle), Lower(hay))
  }

  lemma LowerUpperLower(s: string)
    ensures Lower(Upper(s)) == Lower(s) && Lower(Lower(s)) == Lower(s)
  {
  }

  /** The case of either text never changes whether the match holds. */
  lemma ContainsIgnoringCaseIsCaseBlind(hay: string, needle: string)
    ensures ContainsIgnoringCase(hay, needle) == ContainsIgnoringCase(Upper(hay), needle)
    ensures ContainsIgnoringCase(hay, needle) == ContainsIgnoringCase(hay, Upper(needle))
    ensures ContainsIgnoringCase(hay, needle) == ContainsIgnoringCase(Lower(hay), Lower(needle))
  {
    LowerUpperLower(hay);
    LowerUpperLower(needle);
  }

  /** A verbatim occurrence of the needle is always a match. */
  lemma {:induction false} OccurrenceMatches(hay: string, needle: string, i: int)
    requires OccursAt(needle, hay, i)
    ensures ContainsIgnoringCase(hay, needle)
  {
    assert Lower(hay)[i..i + |needle|] == Lower(needle);
    assert OccursAt(Lower(needle), Lower(hay), i);
    IsSubstringIffOccurs(Lower(needle), Lower(hay));
  }

  /** `s.split(c)[0]`: the text before the first `c`, or all of `s` when it has none. */
  function BeforeFirst(s: string, c: char): (r: string)
    ensures |r| <= |s| && r == s[..|r|]
    ensures c !in r
    ensures |r| < |s| ==> s[|r|] == c
  {
    if s == [] then [] else if s[0] == c then [] else [s[0]] + BeforeFirst(s[1..], c)
  }
}
