/** The string operations the forms and the dashboard apply: `trim`,
    ASCII `toLowerCase`, `split("@")[0]`, `replace(/[0-9]/g, "")`, number
    to decimal text, and the string-to-number conversion behind `<`. */
module Text {
  import opened Wrappers

  /** The code points `String.prototype.trim` removes: ECMAScript's
      WhiteSpace (tab, vertical tab, form feed, no-break space, byte order
      mark and every space separator) and LineTerminator code points. */
  predicate IsSpace(c: char) {
    || c == '\t' || c == '\n' || c == '\U{B}' || c == '\U{C}' || c == '\r' || c == ' '
    || c == '\U{A0}' || c == '\U{1680}' || ('\U{2000}' <= c <= '\U{200A}')
    || c == '\U{2028}' || c == '\U{2029}' || c == '\U{202F}' || c == '\U{205F}'
    || c == '\U{3000}' || c == '\U{FEFF}'
  }

  predicate AllSpace(s: string) {
    forall i :: 0 <= i < |s| ==> IsSpace(s[i])
  }

  /** `s` with its leading white space removed. */
  function TrimStart(s: string): (r: string)
    ensures |r| <= |s| && r == s[|s| - |r|..]
    ensures AllSpace(s[..|s| - |r|])
    ensures r == [] || !IsSpace(r[0])
  {
    if s != [] && IsSpace(s[0]) then
      var r := TrimStart(s[1..]);
      DropOneMore(s, r);
      r
    else s
  }

  /** A suffix of `s[1..]` behind white space is one of `s` behind white
      space when `s[0]` is white space too. */
  lemma DropOneMore(s: string, r: string)
    requires s != [] && IsSpace(s[0])
    requires |r| <= |s| - 1 && r == s[1..][|s| - 1 - |r|..]
    requires AllSpace(s[1..][..|s| - 1 - |r|])
    ensures r == s[|s| - |r|..]
    ensures AllSpace(s[..|s| - |r|])
  {
    var k := |s| - |r|;
    assert s[1..][k - 1..] == s[k..];
    forall i | 0 <= i < k ensures IsSpace(s[..k][i]) {
      if i > 0 { assert s[..k][i] == s[1..][..k - 1][i - 1]; }
    }
  }

  /** `s` with its trailing white space removed. */
  function TrimEnd(s: string): (r: string)
    ensures |r| <= |s| && r == s[..|r|]
    ensures AllSpace(s[|r|..])
    ensures r == [] || !IsSpace(r[|r| - 1])
  {
    if s != [] && IsSpace(s[|s| - 1]) then
      var r := TrimEnd(s[..|s| - 1]);
      CutOneMore(s, r);
      r
    else s
  }

  /** A prefix of `s` without its last element, before white space, is one
      of `s` before white space when that last element is white space too. */
  lemma CutOneMore(s: string, r: string)
    requires s != [] && IsSpace(s[|s| - 1])
    requires |r| <= |s| - 1 && r == s[..|s| - 1][..|r|]
    requires AllSpace(s[..|s| - 1][|r|..])
    ensures r == s[..|r|]
    ensures AllSpace(s[|r|..])
  {
    var k := |r|;
    var t := s[..|s| - 1];
    assert t[..k] == s[..k];
    forall i | 0 <= i < |s| - k ensures IsSpace(s[k..][i]) {
      if i < |s| - 1 - k { assert s[k..][i] == t[k..][i]; }
    }
  }

  /** A code point above U+FFFF: JavaScript strings hold it as a
      surrogate pair, two UTF-16 code units. */
  predicate Astral(c: char) {
    c > '\U{FFFF}'
  }

  /** `s.length`: the number of UTF-16 code units of `s`. */
  function Utf16Length(s: string): (n: nat)
    ensures |s| <= n <= 2 * |s|
    ensures n == |s| <==> forall i :: 0 <= i < |s| ==> !Astral(s[i])
    ensures |s| == 1 ==> n == (if Astral(s[0]) then 2 else 1)
  {
    if s == [] then 0
    else
      var rest := Utf16Length(s[1..]);
      assert forall i :: 0 < i < |s| ==> s[i] == s[1..][i - 1];
      (if Astral(s[0]) then 2 else 1) + rest
  }

  /** The length of a concatenation is the sum of the lengths, so with the
      one-character case of `Utf16Length` it fixes the length of every
      string: one unit per code point, two per code point above U+FFFF. */
  lemma {:induction false} Utf16LengthAppend(a: string, b: string)
    ensures Utf16Length(a + b) == Utf16Length(a) + Utf16Length(b)
    decreases |a|
  {
    if a == [] {
      assert a + b == b;
    } else {
      assert (a + b)[1..] == a[1..] + b;
      Utf16LengthAppend(a[1..], b);
    }
  }

  /** Five letters and one emoji make seven code units. */
  lemma Utf16LengthOfMixed()
    ensures Utf16Length("abcde\U{1F600}") == 7
  {
    var letters := "abcde";
    assert letters[1..] == "bcde" && letters[1..][1..] == "cde";
    assert letters[1..][1..][1..] == "de" && letters[1..][1..][1..][1..] == "e";
    assert Utf16Length(letters) == 5;
    assert Utf16Length("\U{1F600}") == 2;
    Utf16LengthAppend(letters, "\U{1F600}");
    assert letters + "\U{1F600}" == "abcde\U{1F600}";
  }

  /** Four emoji make eight code units. */
  lemma Utf16LengthOfEmoji()
    ensures Utf16Length("\U{1F600}\U{1F600}\U{1F600}\U{1F600}") == 8
  {
    var e := "\U{1F600}\U{1F600}\U{1F600}\U{1F600}";
    assert e[1..] == "\U{1F600}\U{1F600}\U{1F600}";
    assert e[1..][1..] == "\U{1F600}\U{1F600}";
    assert e[1..][1..][1..] == "\U{1F600}";
  }

  /** `s.trim()`: the slice of `s` left after its leading white space
      (`TrimStart`) loses its trailing white space; it neither starts nor
      ends with white space, is empty exactly when `s` is all white space,
      and is `s` itself when `s` has no white space at either end. */
  function Trim(s: string): (r: string)
    ensures r == [] <==> AllSpace(s)
    ensures r != [] ==> !IsSpace(r[0]) && !IsSpace(r[|r| - 1])
    ensures (s != [] && !IsSpace(s[0]) && !IsSpace(s[|s| - 1])) ==> r == s
  {
    var t := TrimStart(s);
    var r := TrimEnd(t);
    TrimParts(s, t, r);
    r
  }

  /** What the contracts of `TrimStart` and `TrimEnd` give about the part
      left after both. */
  lemma TrimParts(s: string, t: string, r: string)
    requires |t| <= |s| && t == s[|s| - |t|..] && AllSpace(s[..|s| - |t|]) && (t == [] || !IsSpace(t[0]))
    requires |r| <= |t| && r == t[..|r|] && AllSpace(t[|r|..])
    ensures r == [] <==> AllSpace(s)
    ensures r != [] ==> !IsSpace(r[0])
    ensures (s != [] && !IsSpace(s[0]) && !IsSpace(s[|s| - 1])) ==> r == s
  {
    var k := |s| - |t|;
    if r == [] {
      assert t[|r|..] == t;
      assert s[..k] == s;
    } else {
      assert r[0] == t[0] == s[k];
    }
    assert k > 0 ==> s[..k][0] == s[0];
    assert |r| < |t| ==> t[|r|..][|t| - 1 - |r|] == t[|t| - 1] == s[|s| - 1];
  }

  /** Leading white space before a part that starts with something else
      is exactly what `TrimStart` removes. */
  lemma {:induction false} TrimStartSkipsSpace(p: string, w: string)
    requires AllSpace(p) && (w == [] || !IsSpace(w[0]))
    ensures TrimStart(p + w) == w
    decreases |p|
  {
    if p == [] {
      assert p + w == w;
    } else {
      assert (p + w)[1..] == p[1..] + w;
      assert AllSpace(p[1..]) by {
        forall i | 0 <= i < |p[1..]| ensures IsSpace(p[1..][i]) {
          assert p[1..][i] == p[i + 1];
        }
      }
      TrimStartSkipsSpace(p[1..], w);
    }
  }

  /** Trailing white space after a part that ends with something else is
      exactly what `TrimEnd` removes. */
  lemma {:induction false} TrimEndSkipsSpace(w: string, q: string)
    requires AllSpace(q) && (w == [] || !IsSpace(w[|w| - 1]))
    ensures TrimEnd(w + q) == w
    decreases |q|
  {
    if q == [] {
      assert w + q == w;
    } else {
      var q' := q[..|q| - 1];
      assert (w + q)[..|w + q| - 1] == w + q';
      assert AllSpace(q') by {
        forall i | 0 <= i < |q'| ensures IsSpace(q'[i]) {
          assert q'[i] == q[i];
        }
      }
      TrimEndSkipsSpace(w, q');
    }
  }

  /** `Trim` is determined by its contract: whatever is surrounded by
      white space and neither starts nor ends with white space is what
      trimming leaves. */
  lemma {:induction false} TrimOfPadded(p: string, m: string, q: string)
    requires AllSpace(p) && AllSpace(q)
    requires m == [] || (!IsSpace(m[0]) && !IsSpace(m[|m| - 1]))
    ensures Trim(p + m + q) == m
  {
    if m == [] {
      assert p + m + q == p + q;
      AllSpaceConcat(p, q);
    } else {
      assert p + m + q == p + (m + q);
      assert (m + q)[0] == m[0];
      TrimStartSkipsSpace(p, m + q);
      TrimEndSkipsSpace(m, q);
    }
  }

  /** Every string is its trimmed text between two runs of white space. */
  lemma {:induction false} TrimSplits(s: string) returns (a: string, b: string)
    ensures AllSpace(a) && AllSpace(b) && s == a + Trim(s) + b
  {
    var t := TrimStart(s);
    var r := TrimEnd(t);
    assert Trim(s) == r;
    a := s[..|s| - |t|];
    b := t[|r|..];
    SliceParts(s, t, r);
  }

  /** A suffix of `s` split at `|r|` puts `s` back together in three parts. */
  lemma SliceParts(s: string, t: string, r: string)
    requires |t| <= |s| && t == s[|s| - |t|..]
    requires |r| <= |t| && r == t[..|r|]
    ensures s == s[..|s| - |t|] + r + t[|r|..]
  {
    assert t == r + t[|r|..];
    assert s == s[..|s| - |t|] + t;
  }

  lemma AllSpaceConcat(x: string, y: string)
    requires AllSpace(x) && AllSpace(y)
    ensures AllSpace(x + y)
  {
    forall i | 0 <= i < |x + y| ensures IsSpace((x + y)[i]) {
      if i < |x| { assert (x + y)[i] == x[i]; } else { assert (x + y)[i] == y[i - |x|]; }
    }
  }

  /** `!s.trim()`: the field is blank. */
  predicate Blank(s: string) {
    Trim(s) == []
  }

  /** ASCII `toLowerCase` of one character. */
  function LowerChar(c: char): (d: char)
    ensures !('A' <= d <= 'Z')
    ensures !('A' <= c <= 'Z') ==> d == c
    ensures 'A' <= c <= 'Z' ==> 'a' <= d <= 'z' && d as int - 'a' as int == c as int - 'A' as int
  {
    if 'A' <= c <= 'Z' then (c as int + 32) as char else c
  }

  /** `s.toLowerCase()`, restricted to ASCII letters. */
  function ToLower(s: string): (r: string)
    ensures |r| == |s|
    ensures forall i :: 0 <= i < |s| ==> r[i] == LowerChar(s[i])
  {
    if s == [] then [] else [LowerChar(s[0])] + ToLower(s[1..])
  }

  /** Lowercasing an already lowercased string changes nothing. */
  lemma ToLowerIdempotent(s: string)
    ensures ToLower(ToLower(s)) == ToLower(s)
  {
    var t := ToLower(s);
    assert forall i :: 0 <= i < |t| ==> LowerChar(t[i]) == t[i];
  }

  /** `s.split(sep)[0]`: the part of `s` before the first `sep`, or all of
      `s` when it has none. */
  function UpToFirst(s: string, sep: char): (r: string)
    ensures r <= s
    ensures sep !in r
    ensures |r| < |s| ==> s[|r|] == sep
  {
    if s == [] || s[0] == sep then [] else [s[0]] + UpToFirst(s[1..], sep)
  }

  /** `UpToFirst(s, sep)` is the one prefix of `s` without `sep` that is
      all of `s` or is followed by `sep`. */
  lemma {:induction false} UpToFirstUnique(s: string, sep: char, a: string)
    requires a <= s && sep !in a && (|a| == |s| || s[|a|] == sep)
    ensures UpToFirst(s, sep) == a
    decreases |a|
  {
    if a != [] {
      assert s[0] == a[0];
      assert a[1..] <= s[1..];
      assert |a| < |s| ==> s[1..][|a| - 1] == s[|a|];
      UpToFirstUnique(s[1..], sep, a[1..]);
      assert a == [a[0]] + a[1..];
    }
  }

  predicate IsDigit(c: char) {
    '0' <= c <= '9'
  }

  predicate AllDigits(s: string) {
    forall i :: 0 <= i < |s| ==> IsDigit(s[i])
  }

  /** `s.replace(/[0-9]/g, "")`: the characters of `s` that are not ASCII
      digits, in order. */
  function StripDigits(s: string): (r: string)
    ensures |r| <= |s|
    ensures forall i :: 0 <= i < |r| ==> !IsDigit(r[i]) && r[i] in s
    ensures (forall i :: 0 <= i < |s| ==> !IsDigit(s[i])) ==> r == s
  {
    if s == [] then []
    else
      var tail := StripDigits(s[1..]);
      if IsDigit(s[0]) then tail else [s[0]] + tail
  }

  /** Removing digits commutes with concatenation, so it acts on each
      character independently. */
  lemma {:induction false} StripDigitsAppend(a: string, b: string)
    ensures StripDigits(a + b) == StripDigits(a) + StripDigits(b)
  {
    if a == [] {
      assert a + b == b;
    } else {
      assert (a + b)[1..] == a[1..] + b;
      StripDigitsAppend(a[1..], b);
    }
  }

  function DigitChar(d: nat): (c: char)
    requires d < 10
    ensures IsDigit(c) && c as int - '0' as int == d
  {
    ('0' as int + d) as char
  }

  /** The decimal text of a natural number, most significant digit first. */
  function NatToString(n: nat): (r: string)
    ensures |r| >= 1 && AllDigits(r)
    ensures r[0] == '0' <==> n == 0
    ensures |r| > 1 ==> r[0] != '0'
    ensures n < 10 <==> |r| == 1
    decreases n
  {
    if n < 10 then [DigitChar(n)] else NatToString(n / 10) + [DigitChar(n % 10)]
  }

  /** The template-literal text `${n}` of an integer. */
  function IntToString(n: int): (r: string)
    ensures |r| >= 1
    ensures n >= 0 ==> AllDigits(r)
    ensures n < 0 ==> r[0] == '-' && AllDigits(r[1..]) && |r| >= 2
    ensures r[0] == '0' ==> r == "0"
    ensures n < 0 ==> r[1] != '0'
  {
    if n < 0 then "-" + NatToString(-n) else NatToString(n)
  }

  /** The value of a string of decimal digits. */
  function DigitsValue(s: string): nat
    requires AllDigits(s)
  {
    if s == [] then 0 else DigitsValue(s[..|s| - 1]) * 10 + (s[|s| - 1] as int - '0' as int)
  }

  /** Reading back the decimal text of `n` gives `n`. */
  lemma {:induction false} DigitsValueOfNatToString(n: nat)
    ensures DigitsValue(NatToString(n)) == n
    decreases n
  {
    if n >= 10 {
      var t := NatToString(n);
      assert t[..|t| - 1] == NatToString(n / 10);
      DigitsValueOfNatToString(n / 10);
    }
  }

  /** The number an already trimmed string denotes: the empty string is 0
      and an optionally signed run of decimal digits is its value; anything
      else is NaN (`None`). */
  function ParseDecimal(t: string): (r: Option<int>)
    ensures AllDigits(t) ==> r == Some(DigitsValue(t))
    ensures |t| > 1 && t[0] == '-' && AllDigits(t[1..]) ==> r == Some(-(DigitsValue(t[1..]) as int))
    ensures |t| > 1 && t[0] == '+' && AllDigits(t[1..]) ==> r == Some(DigitsValue(t[1..]))
    ensures r.Some? ==> AllDigits(t) || (|t| > 1 && (t[0] == '-' || t[0] == '+') && AllDigits(t[1..]))
  {
    if t == [] then Some(0)
    else if |t| > 1 && t[0] == '-' && AllDigits(t[1..]) then Some(-(DigitsValue(t[1..]) as int))
    else if |t| > 1 && t[0] == '+' && AllDigits(t[1..]) then Some(DigitsValue(t[1..]))
    else if AllDigits(t) then Some(DigitsValue(t))
    else None
  }

  /** JavaScript's `Number(s)` on the strings the model represents: the
      trimmed text read by `ParseDecimal`, so an all-white-space string is 0. */
  function ToNumber(s: string): (r: Option<int>)
    ensures AllSpace(s) ==> r == Some(0)
    ensures (s != [] && !IsSpace(s[0]) && !IsSpace(s[|s| - 1])) ==> r == ParseDecimal(s)
  {
    ParseDecimal(Trim(s))
  }

  /** `Number` ignores white space around the text. */
  lemma {:induction false} TrimIgnoresPadding(a: string, s: string, b: string)
    requires AllSpace(a) && AllSpace(b)
    ensures Trim(a + s + b) == Trim(s)
  {
    var p, q := PaddingAround(a, s, b);
    TrimOfPadded(p, Trim(s), q);
  }

  /** White space around `s` joins the white space around its trimmed
      text. */
  lemma {:induction false} PaddingAround(a: string, s: string, b: string) returns (p: string, q: string)
    requires AllSpace(a) && AllSpace(b)
    ensures AllSpace(p) && AllSpace(q) && a + s + b == p + Trim(s) + q
  {
    var a', b' := TrimSplits(s);
    Regroup(a + s + b, a, s, b, a', Trim(s), b');
    AllSpaceConcat(a, a');
    AllSpaceConcat(b', b);
    p, q := a + a', b' + b;
  }

  lemma {:induction false} ToNumberIgnoresPadding(a: string, s: string, b: string)
    requires AllSpace(a) && AllSpace(b)
    ensures ToNumber(a + s + b) == ToNumber(s)
  {
    TrimIgnoresPadding(a, s, b);
  }

  lemma Regroup(x: string, a: string, s: string, b: string, a': string, r: string, b': string)
    requires x == a + s + b && s == a' + r + b'
    ensures x == (a + a') + r + (b' + b)
  {
  }

  /** `Number` of any string is `ParseDecimal` of the text between its
      surrounding white space, so text `ParseDecimal` rejects is NaN. */
  lemma {:induction false} ToNumberOfPadded(a: string, t: string, b: string)
    requires AllSpace(a) && AllSpace(b)
    requires t == [] || (!IsSpace(t[0]) && !IsSpace(t[|t| - 1]))
    ensures ToNumber(a + t + b) == ParseDecimal(t)
  {
    TrimOfPadded(a, t, b);
  }

  lemma DigitIsNotSpace(c: char)
    requires IsDigit(c) || c == '-'
    ensures !IsSpace(c)
  {
  }

  /** `Number` of a word that starts and ends with a lower-case letter is
      NaN. */
  lemma WordIsNaN(s: string)
    requires |s| > 0 && 'a' <= s[0] <= 'z' && 'a' <= s[|s| - 1] <= 'z'
    ensures ToNumber(s) == None
  {
    assert !IsSpace(s[0]) && !IsSpace(s[|s| - 1]);
    var t := Trim(s);
    assert t == s;
    assert !IsDigit(t[0]) && t[0] != '-' && t[0] != '+';
    assert ParseDecimal(t) == None;
  }

  /** `Number` reads a run of decimal digits as its value. */
  lemma ToNumberOfDigits(d: string)
    requires |d| >= 1 && AllDigits(d)
    ensures ToNumber(d) == Some(DigitsValue(d))
  {
    DigitIsNotSpace(d[0]);
    DigitIsNotSpace(d[|d| - 1]);
  }

  /** `Number` reads a minus sign followed by a run of decimal digits as
      the negated value. */
  lemma ToNumberOfMinusDigits(t: string)
    requires |t| > 1 && t[0] == '-' && AllDigits(t[1..])
    ensures ToNumber(t) == Some(-(DigitsValue(t[1..]) as int))
  {
    assert t[1..][|t| - 2] == t[|t| - 1];
    DigitIsNotSpace(t[0]);
    DigitIsNotSpace(t[|t| - 1]);
  }

  /** `Number` reads back the text of a number that is not negative. */
  lemma NonNegativeRoundTrip(n: int)
    requires n >= 0
    ensures ToNumber(IntToString(n)) == Some(n)
  {
    ToNumberOfDigits(NatToString(n));
    DigitsValueOfNatToString(n);
  }

  /** `Number` reads back the text of a negative number. */
  lemma NegativeRoundTrip(n: int)
    requires n < 0
    ensures ToNumber(IntToString(n)) == Some(n)
  {
    var m: nat := -n;
    var t := IntToString(n);
    assert t[1..] == NatToString(m);
    ToNumberOfMinusDigits(t);
    DigitsValueOfNatToString(m);
  }

  /** `Number` reads back the text `${n}` as `n`. */
  lemma IntToStringRoundTrip(n: int)
    ensures ToNumber(IntToString(n)) == Some(n)
  {
    if n < 0 {
      NegativeRoundTrip(n);
    } else {
      NonNegativeRoundTrip(n);
    }
  }
}
