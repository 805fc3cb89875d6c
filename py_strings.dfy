/** The Python string built-ins the operations rely on: `str.strip()`,
    `str.lower()`, `str.split(',')`, `sep.join(...)`, `str(n)` for integers
    and `int(s)` for strings. Strings are sequences of characters. Parameter
    strings come from the workflow's JSON, so they are Python 2 `unicode`
    values: whitespace is the Unicode whitespace of `unicode.strip()`; case
    mapping covers the ASCII letters only. */
module PyStrings {
  import opened Outcomes

  /** The characters Python 2's `unicode.isspace()` accepts, which
      `unicode.strip()` removes: the ASCII controls tab to carriage return and
      file to unit separator, space, next line, no-break space, Ogham space
      mark, Mongolian vowel separator, the en quad to hair space range, the
      line and paragraph separators, narrow no-break space, medium
      mathematical space and ideographic space. */
  predicate IsSpace(c: char) {
    || ('\t' <= c <= '\r')
    || ('\U{1C}' <= c <= ' ')
    || c == '\U{85}' || c == '\U{A0}' || c == '\U{1680}' || c == '\U{180E}'
    || ('\U{2000}' <= c <= '\U{200A}')
    || c == '\U{2028}' || c == '\U{2029}' || c == '\U{202F}' || c == '\U{205F}' || c == '\U{3000}'
  }

  predicate IsDigit(c: char) {
    '0' <= c <= '9'
  }

  predicate AllDigits(s: string) {
    forall k :: 0 <= k < |s| ==> IsDigit(s[k])
  }

  /** Only ASCII characters, the ones Python 2 can put into a byte string
      without an explicit encoding. */
  predicate IsAscii(s: string) {
    forall k :: 0 <= k < |s| ==> s[k] as int < 128
  }

  // ---------------------------------------------------------------------------
  // strip

  function StripLeft(s: string): (r: string)
    ensures |r| <= |s| && r == s[|s| - |r|..]
    ensures |r| > 0 ==> !IsSpace(r[0])
    ensures forall k :: 0 <= k < |s| - |r| ==> IsSpace(s[k])
  {
    if |s| > 0 && IsSpace(s[0]) then StripLeft(s[1..]) else s
  }

  function StripRight(s: string): (r: string)
    ensures |r| <= |s| && r == s[..|r|]
    ensures |r| > 0 ==> !IsSpace(r[|r| - 1])
    ensures forall k :: |r| <= k < |s| ==> IsSpace(s[k])
  {
    if |s| > 0 && IsSpace(s[|s| - 1]) then StripRight(s[..|s| - 1]) else s
  }

  /** `s.strip()`: the longest infix of `s` that neither starts nor ends with
      whitespace, obtained by dropping whitespace at both ends. */
  function Strip(s: string): (r: string)
    ensures |r| <= |s|
    ensures |r| > 0 ==> !IsSpace(r[0]) && !IsSpace(r[|r| - 1])
    ensures exists i, j ::
              && 0 <= i <= j <= |s| && r == s[i..j]
              && (forall k :: 0 <= k < i ==> IsSpace(s[k]))
              && (forall k :: j <= k < |s| ==> IsSpace(s[k]))
  {
    var left := StripLeft(s);
    KeptInfix(s, left, StripRight(left));
    StripRight(left)
  }

  /** A prefix `r` of a suffix `left` of `s` is an infix of `s`; whatever
      `left` has after `r` is what `s` has after it. */
  lemma KeptInfix(s: string, left: string, r: string)
    requires |r| <= |left| <= |s| && left == s[|s| - |left|..] && r == left[..|r|]
    requires forall k :: |r| <= k < |left| ==> IsSpace(left[k])
    ensures r == s[|s| - |left|..|s| - |left| + |r|]
    ensures forall k :: |s| - |left| + |r| <= k < |s| ==> IsSpace(s[k])
  {
    var i := |s| - |left|;
    forall k | i + |r| <= k < |s|
      ensures IsSpace(s[k])
    {
      assert s[k] == left[k - i];
    }
  }

  /** A string without whitespace at either end is its own strip; in
      particular stripping twice is stripping once. */
  lemma StripKeeps(s: string)
    requires |s| > 0 ==> !IsSpace(s[0]) && !IsSpace(s[|s| - 1])
    ensures Strip(s) == s
    ensures Strip(Strip(s)) == Strip(s)
  {
    assert StripLeft(s) == s;
    assert StripRight(s) == s;
  }

  // ---------------------------------------------------------------------------
  // lower

  function LowerChar(c: char): char {
    if 'A' <= c <= 'Z' then (c as int + 32) as char else c
  }

  /** `s.lower()` on ASCII letters: every upper-case ASCII letter becomes
      its lower-case letter and every other character is kept. */
  function Lower(s: string): (r: string)
    ensures |r| == |s|
    ensures forall k :: 0 <= k < |s| && 'A' <= s[k] <= 'Z' ==> r[k] as int == s[k] as int + 32 && 'a' <= r[k] <= 'z'
    ensures forall k :: 0 <= k < |s| && !('A' <= s[k] <= 'Z') ==> r[k] == s[k]
    ensures forall k :: 0 <= k < |r| ==> !('A' <= r[k] <= 'Z')
  {
    seq(|s|, k requires 0 <= k < |s| => LowerChar(s[k]))
  }

  // ---------------------------------------------------------------------------
  // join and split

  /** `sep.join(parts)`. */
  function Join(sep: string, parts: seq<string>): string {
    if |parts| == 0 then ""
    else if |parts| == 1 then parts[0]
    else parts[0] + sep + Join(sep, parts[1..])
  }

  lemma JoinPair(sep: string, first: string, second: string)
    ensures Join(sep, [first, second]) == first + sep + second
  {
    assert [first, second][1..] == [second];
  }

  /** `s.split(sep)` for a one-character separator: the maximal pieces of `s`
      between separators, empty pieces included; never an empty list. */
  function Split(s: string, sep: char): (parts: seq<string>)
    ensures |parts| >= 1
    ensures forall k :: 0 <= k < |parts| ==> sep !in parts[k]
  {
    if |s| == 0 then [""]
    else
      var rest := Split(s[1..], sep);
      if s[0] == sep then [""] + rest
      else [[s[0]] + rest[0]] + rest[1..]
  }

  /** Every character of a piece is a character of the split string. */
  lemma {:induction false} SplitChars(s: string, sep: char)
    ensures forall k, c :: 0 <= k < |Split(s, sep)| && c in Split(s, sep)[k] ==> c in s
  {
    if |s| > 0 {
      SplitChars(s[1..], sep);
      var rest := Split(s[1..], sep);
      var parts := Split(s, sep);
      forall k, c | 0 <= k < |parts| && c in parts[k]
        ensures c in s
      {
        if s[0] == sep {
          assert k > 0 && parts[k] == rest[k - 1];
        } else if k == 0 {
          assert parts[0] == [s[0]] + rest[0];
        } else {
          assert parts[k] == rest[k];
        }
        assert c in s[1..] ==> c in s;
      }
    }
  }

  /** Splitting then joining with the same separator gives the string back. */
  lemma {:induction false} JoinSplit(s: string, sep: char)
    ensures Join([sep], Split(s, sep)) == s
  {
    if |s| > 0 {
      var rest := Split(s[1..], sep);
      JoinSplit(s[1..], sep);
      if s[0] == sep {
        assert Join([sep], [""] + rest) == "" + [sep] + Join([sep], rest);
        assert s == [s[0]] + s[1..];
      } else {
        var parts := [[s[0]] + rest[0]] + rest[1..];
        if |rest| == 1 {
          assert Join([sep], parts) == [s[0]] + rest[0];
        } else {
          assert Join([sep], rest) == rest[0] + [sep] + Join([sep], rest[1..]);
          assert parts[1..] == rest[1..];
          assert Join([sep], parts) == [s[0]] + rest[0] + [sep] + Join([sep], rest[1..]);
        }
        assert s == [s[0]] + s[1..];
      }
    }
  }

  /** A piece free of the separator splits to itself. */
  lemma {:induction false} SplitPiece(a: string, sep: char)
    requires sep !in a
    ensures Split(a, sep) == [a]
  {
    if |a| > 0 {
      assert sep !in a[1..] by {
        forall k | 0 <= k < |a[1..]| ensures a[1..][k] != sep {
          assert a[1..][k] == a[k + 1];
        }
      }
      SplitPiece(a[1..], sep);
      assert a == [a[0]] + a[1..];
    }
  }

  /** A separator-free piece followed by the separator splits off as one part. */
  lemma {:induction false} SplitCons(a: string, sep: char, rest: string)
    requires sep !in a
    ensures Split(a + [sep] + rest, sep) == [a] + Split(rest, sep)
  {
    var s := a + [sep] + rest;
    if |a| == 0 {
      assert s[0] == sep && s[1..] == rest;
    } else {
      assert sep !in a[1..] by {
        forall k | 0 <= k < |a[1..]| ensures a[1..][k] != sep {
          assert a[1..][k] == a[k + 1];
        }
      }
      SplitCons(a[1..], sep, rest);
      assert s[0] == a[0] && s[1..] == a[1..] + [sep] + rest;
      assert a == [a[0]] + a[1..];
    }
  }

  /** Joining non-empty lists of separator-free parts then splitting gives the
      parts back. */
  lemma {:induction false} SplitJoin(parts: seq<string>, sep: char)
    requires |parts| >= 1
    requires forall k :: 0 <= k < |parts| ==> sep !in parts[k]
    ensures Split(Join([sep], parts), sep) == parts
  {
    if |parts| == 1 {
      SplitPiece(parts[0], sep);
    } else {
      SplitJoin(parts[1..], sep);
      SplitCons(parts[0], sep, Join([sep], parts[1..]));
      assert parts == [parts[0]] + parts[1..];
    }
  }

  // ---------------------------------------------------------------------------
  // integers as decimal text

  function DigitChar(d: nat): (c: char)
    requires d < 10
    ensures IsDigit(c)
  {
    ('0' as int + d) as char
  }

  function DigitValue(c: char): nat
    requires IsDigit(c)
  {
    c as int - '0' as int
  }

  /** `str(n)` for a natural number: decimal digits, most significant first. */
  function NatToString(n: nat): (s: string)
    ensures |s| > 0 && AllDigits(s)
  {
    if n < 10 then [DigitChar(n)] else NatToString(n / 10) + [DigitChar(n % 10)]
  }

  /** `str(i)` for any integer. */
  function IntToString(i: int): (s: string)
    ensures |s| > 0 && !IsSpace(s[0]) && !IsSpace(s[|s| - 1])
  {
    if i < 0 then "-" + NatToString(-i) else NatToString(i)
  }

  function DigitsValue(s: string): nat
    requires AllDigits(s)
  {
    if |s| == 0 then 0 else DigitsValue(s[..|s| - 1]) * 10 + DigitValue(s[|s| - 1])
  }

  /** `int(s)` on a string: optional surrounding whitespace, an optional sign,
      optional whitespace after the sign, then at least one decimal digit;
      anything else is refused. */
  function ParseInt(s: string): Option<int> {
    ParseSigned(Strip(s))
  }

  /** The text of `int()` once surrounding whitespace is gone: an optional
      sign, whitespace the conversion skips again after the sign, and at
      least one decimal digit. */
  function ParseSigned(t: string): Option<int> {
    if |t| > 0 && (t[0] == '-' || t[0] == '+') then ParseAfterSign(t[0], t[1..])
    else ParseDigits(t)
  }

  /** What follows the sign: whitespace, skipped, then the digits, read with
      that sign. */
  function ParseAfterSign(sign: char, rest: string): Option<int> {
    if |rest| > 0 && IsSpace(rest[0]) then ParseAfterSign(sign, rest[1..])
    else
      match ParseDigits(rest)
      case Some(magnitude) => Some(if sign == '-' then -magnitude else magnitude)
      case None => None
  }

  /** At least one decimal digit and nothing else. */
  function ParseDigits(d: string): Option<int> {
    if |d| > 0 && AllDigits(d) then Some(DigitsValue(d)) else None
  }

  lemma {:induction false} NatToStringRoundTrip(n: nat)
    ensures DigitsValue(NatToString(n)) == n
  {
    if n >= 10 {
      var s := NatToString(n);
      assert s[..|s| - 1] == NatToString(n / 10);
      NatToStringRoundTrip(n / 10);
    }
  }

  /** `int(str(i)) == i`: the decimal text of an integer parses back to it. */
  lemma ParseIntToString(i: int)
    ensures ParseInt(IntToString(i)) == Some(i)
  {
    StripKeeps(IntToString(i));
    ParseSignedToString(i);
  }

  /** The decimal text of an integer, without surrounding whitespace, reads
      back as that integer. */
  lemma ParseSignedToString(i: int)
    ensures ParseSigned(IntToString(i)) == Some(i)
  {
    if i < 0 {
      SignedNatToString('-', -i);
    } else {
      UnsignedNatToString(i);
    }
  }

  lemma ParseDigitsNatToString(n: nat)
    ensures ParseDigits(NatToString(n)) == Some(n)
  {
    NatToStringRoundTrip(n);
  }

  lemma UnsignedNatToString(n: nat)
    ensures ParseSigned(NatToString(n)) == Some(n)
  {
    assert IsDigit(NatToString(n)[0]);
    ParseDigitsNatToString(n);
  }

  /** A sign in front of the decimal text of a natural number applies to it. */
  lemma SignedNatToString(sign: char, n: nat)
    requires sign == '+' || sign == '-'
    ensures ParseSigned([sign] + NatToString(n)) == Some(if sign == '-' then -(n as int) else n as int)
  {
    var digits := NatToString(n);
    var t := [sign] + digits;
    assert IsDigit(digits[0]);
    assert t[0] == sign && t[1..] == digits;
    ParseDigitsNatToString(n);
  }

  lemma {:induction false} SkipSpacesAfterSign(sign: char, spaces: string, rest: string)
    requires forall k :: 0 <= k < |spaces| ==> IsSpace(spaces[k])
    ensures ParseAfterSign(sign, spaces + rest) == ParseAfterSign(sign, rest)
  {
    if |spaces| > 0 {
      assert (spaces + rest)[1..] == spaces[1..] + rest;
      SkipSpacesAfterSign(sign, spaces[1..], rest);
    } else {
      assert spaces + rest == rest;
    }
  }

  /** Whitespace between the sign and what follows changes nothing. */
  lemma ParseSignedSpacesAfterSign(sign: char, spaces: string, rest: string)
    requires sign == '+' || sign == '-'
    requires forall k :: 0 <= k < |spaces| ==> IsSpace(spaces[k])
    ensures ParseSigned([sign] + spaces + rest) == ParseSigned([sign] + rest)
  {
    var t, u := [sign] + spaces + rest, [sign] + rest;
    assert t[0] == sign && t[1..] == spaces + rest;
    assert u[0] == sign && u[1..] == rest;
    SkipSpacesAfterSign(sign, spaces, rest);
  }

  /** Whitespace between the sign and the digits is skipped: `int(u"+ 3")`
      is 3 and `int(u"- 5")` is -5. */
  lemma ParseIntSpaceAfterSign(sign: char, spaces: string, n: nat)
    requires sign == '+' || sign == '-'
    requires forall k :: 0 <= k < |spaces| ==> IsSpace(spaces[k])
    ensures ParseInt([sign] + spaces + NatToString(n)) == Some(if sign == '-' then -(n as int) else n as int)
  {
    var digits := NatToString(n);
    var t := [sign] + spaces + digits;
    assert t[|t| - 1] == digits[|digits| - 1];
    StripKeeps(t);
    ParseSignedSpacesAfterSign(sign, spaces, digits);
    SignedNatToString(sign, n);
  }

  /** Distinct integers have distinct decimal text. */
  lemma IntToStringInjective(a: int, b: int)
    requires a != b
    ensures IntToString(a) != IntToString(b)
  {
    ParseIntToString(a);
    ParseIntToString(b);
  }
}
