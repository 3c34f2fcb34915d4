/** The string operations of the JavaScript runtime that the application relies
    on: `trim`, `length` (in UTF-16 code units), `split(",")[0]`, `join`,
    `Number.prototype.toString(radix)` on non-negative integers and `padStart`. */
module Text {

  /** The characters `String.prototype.trim` removes: the WhiteSpace and
      LineTerminator code points of the ECMAScript grammar. */
  predicate IsSpace(c: char) {
    || c == '\t' || c == '\n' || c == '\U{000B}' || c == '\U{000C}' || c == '\r'
    || c == ' ' || c == '\U{00A0}' || c == '\U{1680}'
    || ('\U{2000}' <= c <= '\U{200A}')
    || c == '\U{2028}' || c == '\U{2029}' || c == '\U{202F}' || c == '\U{205F}'
    || c == '\U{3000}' || c == '\U{FEFF}'
  }

  predicate AllSpace(s: string) {
    forall i :: 0 <= i < |s| ==> IsSpace(s[i])
  }

  function TrimStart(s: string): (r: string)
    ensures |r| <= |s| && r == s[|s| - |r|..]
    ensures AllSpace(s[..|s| - |r|])
    ensures r != [] ==> !IsSpace(r[0])
  {
    if s != [] && IsSpace(s[0]) then
      var r := TrimStart(s[1..]);
      SliceOfSuffix(s, 1, |s| - 1 - |r|);
      SpaceBefore(s, |s| - |r|);
      r
    else s
  }

  /** A space followed by `n - 1` spaces is `n` spaces. */
  lemma SpaceBefore(s: string, n: nat)
    requires 1 <= n <= |s| && IsSpace(s[0]) && AllSpace(s[1..][..n - 1])
    ensures AllSpace(s[..n])
  {
    forall i | 0 <= i < n
      ensures IsSpace(s[..n][i])
    {
      if i > 0 {
        assert s[..n][i] == s[1..][..n - 1][i - 1];
      }
    }
  }

  /** `n` spaces at the end of `s[..|s| - 1]` and a space after them. */
  lemma SpaceAfter(s: string, n: nat)
    requires n < |s| && IsSpace(s[|s| - 1]) && AllSpace(s[..|s| - 1][n..])
    ensures AllSpace(s[n..])
  {
    forall i | 0 <= i < |s| - n
      ensures IsSpace(s[n..][i])
    {
      if i < |s| - 1 - n {
        assert s[n..][i] == s[..|s| - 1][n..][i];
      }
    }
  }

  function TrimEnd(s: string): (r: string)
    ensures |r| <= |s| && r == s[..|r|]
    ensures AllSpace(s[|r|..])
    ensures r != [] ==> !IsSpace(r[|r| - 1])
  {
    if s != [] && IsSpace(s[|s| - 1]) then
      var r := TrimEnd(s[..|s| - 1]);
      assert s[..|s| - 1][..|r|] == s[..|r|];
      SpaceAfter(s, |r|);
      r
    else s
  }

  /** Number of leading characters `Trim` drops. */
  function TrimOffset(s: string): (k: nat)
    ensures k <= |s|
  {
    |s| - |TrimStart(s)|
  }

  /** `String.prototype.trim`: the longest slice that neither starts nor ends
      with white space, obtained by dropping only white space. */
  function Trim(s: string): (r: string)
    ensures TrimOffset(s) + |r| <= |s|
    ensures r == s[TrimOffset(s)..TrimOffset(s) + |r|]
    ensures AllSpace(s[..TrimOffset(s)]) && AllSpace(s[TrimOffset(s) + |r|..])
    ensures r != [] ==> !IsSpace(r[0]) && !IsSpace(r[|r| - 1])
    ensures r == [] <==> AllSpace(s)
  {
    var t := TrimStart(s);
    var r := TrimEnd(t);
    TrimParts(s, t, r);
    r
  }

  /** How `Trim` cuts `s`: leading space, the result `r`, trailing space. */
  lemma TrimParts(s: string, t: string, r: string)
    requires t == TrimStart(s) && r == TrimEnd(t)
    ensures TrimOffset(s) + |r| <= |s|
    ensures r == s[TrimOffset(s)..TrimOffset(s) + |r|]
    ensures AllSpace(s[..TrimOffset(s)]) && AllSpace(s[TrimOffset(s) + |r|..])
    ensures r == [] <==> AllSpace(s)
  {
    CutParts(s, TrimOffset(s), t, r);
  }

  /** Cutting white space `s[..k]` off the front of `s` leaves `t`, and
      cutting white space off the back of `t` leaves `r`, which does not
      start with white space. */
  lemma CutParts(s: string, k: nat, t: string, r: string)
    requires k <= |s| && t == s[k..] && |r| <= |t| && r == t[..|r|]
    requires AllSpace(s[..k]) && AllSpace(t[|r|..])
    requires r != [] ==> !IsSpace(r[0])
    ensures r == s[k..k + |r|] && AllSpace(s[k + |r|..])
    ensures r == [] <==> AllSpace(s)
  {
    SliceOfSuffix(s, k, |r|);
    if r == [] {
      forall i | 0 <= i < |s|
        ensures IsSpace(s[i])
      {
        if i < k {
          assert s[i] == s[..k][i];
        } else {
          assert s[i] == t[i - k];
        }
      }
    } else {
      assert r[0] == s[k];
    }
  }

  lemma SliceOfSuffix<T>(s: seq<T>, k: nat, m: nat)
    requires k + m <= |s|
    ensures s[k..][..m] == s[k..k + m] && s[k..][m..] == s[k + m..]
  {
  }

  /** A string that neither starts nor ends with white space is its own trim. */
  lemma TrimmedIsFixed(s: string)
    requires s != [] ==> !IsSpace(s[0]) && !IsSpace(s[|s| - 1])
    ensures Trim(s) == s
  {
    assert TrimStart(s) == s;
  }

  /** Trimming twice is trimming once. */
  lemma TrimIdempotent(s: string)
    ensures Trim(Trim(s)) == Trim(s)
  {
    TrimmedIsFixed(Trim(s));
  }

  // ---------------------------------------------------------------------
  // UTF-16 view of a string

  /** The UTF-16 code units of one code point. */
  function CodeUnits(c: char): (u: seq<int>)
    ensures 1 <= |u| <= 2
    ensures forall i :: 0 <= i < |u| ==> 0 <= u[i] < 0x1_0000
    ensures c as int < 0x1_0000 <==> u == [c as int]
  {
    var v := c as int;
    if v < 0x1_0000 then [v]
    else [0xD800 + (v - 0x1_0000) / 0x400, 0xDC00 + (v - 0x1_0000) % 0x400]
  }

  /** The code units JavaScript sees (`charCodeAt(0 .. length - 1)`). */
  function Utf16(s: string): (u: seq<int>)
    ensures |s| <= |u| <= 2 * |s|
    ensures forall i :: 0 <= i < |u| ==> 0 <= u[i] < 0x1_0000
  {
    if s == [] then [] else CodeUnits(s[0]) + Utf16(s[1..])
  }

  /** `String.prototype.length`: the number of UTF-16 code units. */
  function JsLength(s: string): (n: nat)
    ensures |s| <= n <= 2 * |s|
  {
    |Utf16(s)|
  }

  /** A string of Basic Multilingual Plane characters has one code unit per
      character, and they are the characters' own values. */
  lemma {:induction false} Utf16OfBmp(s: string)
    requires forall i :: 0 <= i < |s| ==> s[i] as int < 0x1_0000
    ensures |Utf16(s)| == |s|
    ensures forall i :: 0 <= i < |s| ==> Utf16(s)[i] == s[i] as int
  {
    if s != [] {
      Utf16OfBmp(s[1..]);
      assert CodeUnits(s[0]) == [s[0] as int];
    }
  }

  /** The code units of a concatenation are those of its parts. */
  lemma {:induction false} Utf16Append(a: string, b: string)
    ensures Utf16(a + b) == Utf16(a) + Utf16(b)
  {
    if a != [] {
      assert (a + b)[0] == a[0] && (a + b)[1..] == a[1..] + b;
      Utf16Append(a[1..], b);
    } else {
      assert a + b == b;
    }
  }

  /** Trimming never makes a string longer in code units. */
  lemma TrimShortens(s: string)
    ensures JsLength(Trim(s)) <= JsLength(s)
  {
    var r := Trim(s);
    var k := TrimOffset(s);
    SplitThree(s, k, |r|);
    InnerShorter(s[..k], r, s[k + |r|..]);
  }

  lemma SplitThree<T>(s: seq<T>, k: nat, m: nat)
    requires k + m <= |s|
    ensures s == s[..k] + s[k..k + m] + s[k + m..]
  {
  }

  /** A part of a string has no more code units than the whole. */
  lemma InnerShorter(before: string, r: string, after: string)
    ensures JsLength(r) <= JsLength(before + r + after)
  {
    Utf16Append(before + r, after);
    Utf16Append(before, r);
  }

  // ---------------------------------------------------------------------
  // Searching, splitting, joining

  /** The index of the first `c` in `s`, or `|s|` when there is none. */
  function IndexOf(s: string, c: char): (k: nat)
    ensures k <= |s|
    ensures c !in s[..k]
    ensures k < |s| ==> s[k] == c
  {
    if s == [] then 0
    else if s[0] == c then 0
    else 1 + IndexOf(s[1..], c)
  }

  /** The first `c` is found right after a prefix without one. */
  lemma {:induction false} IndexOfFirst(a: string, c: char, b: string)
    requires c !in a
    ensures IndexOf(a + [c] + b, c) == |a|
  {
    if a != [] {
      assert (a + [c] + b)[1..] == a[1..] + [c] + b;
      IndexOfFirst(a[1..], c, b);
    }
  }

  /** `s.split(",")[0]`: everything before the first comma. */
  function FirstField(s: string): (r: string)
    ensures r <= s && ',' !in r
    ensures |r| < |s| ==> s[|r|] == ','
  {
    s[..IndexOf(s, ',')]
  }

  /** `Array.prototype.join(sep)`. */
  function Join(xs: seq<string>, sep: string): (r: string)
    ensures xs == [] ==> r == []
    ensures |xs| == 1 ==> r == xs[0]
    ensures xs != [] ==> xs[0] <= r
  {
    if |xs| == 0 then []
    else if |xs| == 1 then xs[0]
    else xs[0] + sep + Join(xs[1..], sep)
  }

  /** One more item adds the separator and the item at the end. */
  lemma {:induction false} JoinSnoc(xs: seq<string>, x: string, sep: string)
    requires xs != []
    ensures Join(xs + [x], sep) == Join(xs, sep) + sep + x
  {
    var ys := xs + [x];
    assert ys[0] == xs[0] && ys[1..] == xs[1..] + [x];
    if |xs| == 1 {
      assert ys[1..] == [x];
    } else {
      JoinSnoc(xs[1..], x, sep);
      assert Join(ys, sep) == xs[0] + sep + (Join(xs[1..], sep) + sep + x);
    }
  }

  /** The total length of the items. */
  function TotalLength(xs: seq<string>): nat {
    if xs == [] then 0 else |xs[0]| + TotalLength(xs[1..])
  }

  /** The joined text is the items and one separator between each two. */
  lemma {:induction false} JoinLength(xs: seq<string>, sep: string)
    requires xs != []
    ensures |Join(xs, sep)| == TotalLength(xs) + (|xs| - 1) * |sep|
  {
    if |xs| > 1 {
      JoinLength(xs[1..], sep);
      assert |Join(xs, sep)| == |xs[0]| + |sep| + TotalLength(xs[1..]) + (|xs| - 2) * |sep|;
    }
  }

  // ---------------------------------------------------------------------
  // Digits

  predicate IsDigit(c: char) {
    '0' <= c <= '9'
  }

  predicate IsAsciiAlnum(c: char) {
    IsDigit(c) || 'a' <= c <= 'z' || 'A' <= c <= 'Z'
  }

  predicate IsHexDigit(c: char) {
    IsDigit(c) || 'a' <= c <= 'f' || 'A' <= c <= 'F'
  }

  const LowerDigits: string := "0123456789abcdef"

  /** The digit character for `d` as `toString(radix)` writes it (lower case). */
  function DigitChar(d: nat): (c: char)
    requires d < 16
    ensures IsHexDigit(c) && !('A' <= c <= 'F')
    ensures d < 10 <==> IsDigit(c)
    ensures c == '0' <==> d == 0
    ensures d < 10 ==> c as int == '0' as int + d
  {
    LowerDigits[d]
  }

  /** The value of a digit character in any case; `parseInt` accepts both. */
  function DigitValue(c: char): (d: nat)
    requires IsHexDigit(c)
    ensures d < 16
    ensures IsDigit(c) ==> d < 10
  {
    if IsDigit(c) then c as int - '0' as int
    else if 'a' <= c <= 'f' then c as int - 'a' as int + 10
    else c as int - 'A' as int + 10
  }

  lemma DigitRoundTrip(d: nat)
    requires d < 16
    ensures DigitValue(DigitChar(d)) == d
  {
  }

  /** `n.toString(base)` for a non-negative integer `n`. */
  function Digits(n: nat, base: nat): (s: string)
    requires 2 <= base <= 16
    ensures |s| >= 1
    ensures forall i :: 0 <= i < |s| ==> IsHexDigit(s[i]) && DigitValue(s[i]) < base
    ensures forall i :: 0 <= i < |s| ==> !('A' <= s[i] <= 'F')
    ensures |s| > 1 ==> s[0] != '0'
  {
    if n < base then [DigitChar(n)]
    else
      var q, d := n / base, n % base;
      QuotientStep(n, base);
      var init := Digits(q, base);
      var s := init + [DigitChar(d)];
      assert forall i :: 0 <= i < |init| ==> s[i] == init[i];
      assert s[|init|] == DigitChar(d);
      assert |init| == 1 ==> init[0] == DigitChar(q) != '0';
      s
  }

  /** One step of writing `n >= base` in base `base`: a non-zero, smaller
      quotient and a remainder that is a digit. */
  lemma QuotientStep(n: nat, base: nat)
    requires 2 <= base <= n
    ensures 1 <= n / base < n && n % base < base
  {
  }

  /** The value `parseInt(s, base)` gives to a string of digits below `base`. */
  function Value(s: string, base: nat): nat
    requires 2 <= base <= 16
    requires forall i :: 0 <= i < |s| ==> IsHexDigit(s[i]) && DigitValue(s[i]) < base
  {
    if s == [] then 0
    else
      var init := s[..|s| - 1];
      assert forall i :: 0 <= i < |init| ==> init[i] == s[i];
      var high: nat := Value(init, base);
      var scaled: nat := high * base;
      scaled + DigitValue(s[|s| - 1])
  }

  lemma DivMod(n: nat, base: nat)
    requires 0 < base
    ensures n == (n / base) * base + n % base
  {
  }

  lemma QuotientSmaller(n: nat, base: nat)
    requires 2 <= base && 0 < n
    ensures n / base < n
  {
  }

  lemma ValueSnoc(s: string, c: char, base: nat)
    requires 2 <= base <= 16
    requires forall i :: 0 <= i < |s| ==> IsHexDigit(s[i]) && DigitValue(s[i]) < base
    requires IsHexDigit(c) && DigitValue(c) < base
    ensures Value(s + [c], base) == Value(s, base) * base + DigitValue(c)
  {
    assert (s + [c])[..|s|] == s;
  }


  lemma OneDigitValue(n: nat, base: nat)
    requires 2 <= base <= 16 && n < base
    ensures Value(Digits(n, base), base) == n
  {
    var s := Digits(n, base);
    assert s == [DigitChar(n)];
    assert s[..0] == [];
    assert Value(s[..0], base) == 0;
    DigitRoundTrip(n);
  }

  /** Reading back the digits `toString(base)` writes gives the number. */
  lemma {:induction false} DigitsRoundTrip(n: nat, base: nat)
    requires 2 <= base <= 16
    ensures Value(Digits(n, base), base) == n
  {
    if n < base {
      OneDigitValue(n, base);
    } else {
      var q, d := n / base, n % base;
      var high := Digits(q, base);
      assert Digits(n, base) == high + [DigitChar(d)];
      QuotientSmaller(n, base);
      DigitsRoundTrip(q, base);
      DigitRoundTrip(d);
      ValueSnoc(high, DigitChar(d), base);
      DivMod(n, base);
    }
  }

  /** Different numbers are written differently. */
  lemma DigitsInjective(m: nat, n: nat, base: nat)
    requires 2 <= base <= 16
    requires Digits(m, base) == Digits(n, base)
    ensures m == n
  {
    DigitsRoundTrip(m, base);
    DigitsRoundTrip(n, base);
  }

  /** `n.toString()` (decimal). */
  function NatToString(n: nat): (s: string)
    ensures |s| >= 1 && forall i :: 0 <= i < |s| ==> IsDigit(s[i])
  {
    Digits(n, 10)
  }

  function Repeat(c: char, n: nat): (s: string)
    ensures |s| == n && forall i :: 0 <= i < n ==> s[i] == c
  {
    if n == 0 then [] else [c] + Repeat(c, n - 1)
  }

  /** `s.padStart(n, c)` for a one-character pad string and ASCII `s`. */
  function PadStart(s: string, n: nat, c: char): (r: string)
    ensures |r| == if |s| < n then n else |s|
    ensures r[|r| - |s|..] == s
    ensures forall i :: 0 <= i < |r| - |s| ==> r[i] == c
  {
    if |s| < n then Repeat(c, n - |s|) + s else s
  }

  /** A value below `base * base` is written in exactly two digits once
      padded with '0': its high and its low digit. */
  lemma QuotientBelow(n: nat, base: nat)
    requires 0 < base && n < base * base
    ensures n / base < base
  {
    DivMod(n, base);
  }

  lemma SmallQuotient(n: nat, base: nat)
    requires n < base
    ensures n / base == 0 && n % base == n
  {
  }

  lemma PadTwoDigits(n: nat, base: nat)
    requires 2 <= base <= 16 && n < base * base
    ensures PadStart(Digits(n, base), 2, '0') == [DigitChar(n / base), DigitChar(n % base)]
  {
    var q, d := n / base, n % base;
    if n < base {
      SmallQuotient(n, base);
      assert Digits(n, base) == [DigitChar(n)];
    } else {
      QuotientBelow(n, base);
      assert Digits(q, base) == [DigitChar(q)];
      assert Digits(n, base) == [DigitChar(q), DigitChar(d)];
    }
  }
}
