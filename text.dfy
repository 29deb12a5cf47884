/**
  The string operations the three Python files rely on: `sub in s`, `s.split(':')[k]`,
  `s.strip()`, `s.upper()`, `s.capitalize()`, and the `int(...)` / `float(...)` conversions
  applied to colon-separated tokens. Numbers are carried as their text.
 */
module Text {
  import opened Wrappers

  // ---------------------------------------------------------------------------
  // Substring test (Python's `sub in s`)
  // ---------------------------------------------------------------------------

  predicate StartsWith(s: string, t: string) {
    |t| <= |s| && s[..|t|] == t
  }

  /** `t in s` for strings: some suffix of `s` starts with `t`. */
  predicate Contains(s: string, t: string)
    decreases |s|
  {
    StartsWith(s, t) || (|s| > 0 && Contains(s[1..], t))
  }

  /** Every character of a contained string occurs in the containing one. */
  lemma {:induction false} ContainsChars(s: string, t: string, k: nat)
    requires Contains(s, t) && k < |t|
    ensures t[k] in s
    decreases |s|
  {
    if StartsWith(s, t) {
      assert s[k] == t[k];
    } else {
      ContainsChars(s[1..], t, k);
      assert t[k] in s[1..];
    }
  }

  /** A character of `t` that `s` lacks rules out `t in s`. */
  lemma Absent(s: string, t: string, c: char)
    requires c in t && c !in s
    ensures !Contains(s, t)
  {
    if Contains(s, t) {
      var k :| 0 <= k < |t| && t[k] == c;
      ContainsChars(s, t, k);
    }
  }

  /** A prefix that contains `t` keeps containing it whatever follows. */
  lemma {:induction false} ContainsExtend(p: string, v: string, t: string)
    requires Contains(p, t)
    ensures Contains(p + v, t)
    decreases |p|
  {
    if StartsWith(p, t) {
      assert (p + v)[..|t|] == p[..|t|];
    } else {
      ContainsExtend(p[1..], v, t);
      assert (p + v)[1..] == p[1..] + v;
    }
  }

  /**
    When `t` ends with a character that `v` lacks, an occurrence of `t` in `p + v`
    must end inside `p`: text appended after `p` cannot create one.
   */
  lemma {:induction false} NotContainsExtend(p: string, v: string, t: string)
    requires |t| > 0 && t[|t| - 1] !in v
    requires !Contains(p, t)
    ensures !Contains(p + v, t)
    decreases |p|
  {
    if |p| == 0 {
      assert p + v == v;
      if Contains(v, t) {
        ContainsChars(v, t, |t| - 1);
      }
    } else {
      if |t| <= |p| {
        assert p[..|t|] == (p + v)[..|t|];
      } else if |t| <= |p + v| {
        assert (p + v)[|t| - 1] == v[|t| - 1 - |p|];
      }
      NotContainsExtend(p[1..], v, t);
      assert (p + v)[1..] == p[1..] + v;
    }
  }

  /** A text has an occurrence only of strings no longer than itself. */
  lemma {:induction false} ContainsLength(s: string, t: string)
    requires Contains(s, t)
    ensures |t| <= |s|
    decreases |s|
  {
    if !StartsWith(s, t) {
      ContainsLength(s[1..], t);
    }
  }

  /**
    Around a separator that ends `p` and is absent from `v`, an occurrence of `t` that holds the
    separator at most as its last character lies inside `p` or inside `v`.
   */
  lemma {:induction false} NotContainsJoin(p: string, v: string, t: string, sep: char)
    requires |p| > 0 && p[|p| - 1] == sep && sep !in v
    requires |t| > 0 && sep !in t[..|t| - 1]
    requires !Contains(p, t) && !Contains(v, t)
    ensures !Contains(p + v, t)
    decreases |p|
  {
    if |t| <= |p| {
      assert !StartsWith(p, t);
      assert (p + v)[..|t|] == p[..|t|];
    } else {
      assert t[..|t| - 1][|p| - 1] == t[|p| - 1];
      assert (p + v)[|p| - 1] == sep;
    }
    assert !StartsWith(p + v, t);
    if |p| == 1 {
      assert (p + v)[1..] == v;
    } else {
      assert (p + v)[1..] == p[1..] + v;
      NotContainsJoin(p[1..], v, t, sep);
    }
  }

  /** An occurrence at position k. */
  lemma {:induction false} ContainsAt(s: string, t: string, k: nat)
    requires k + |t| <= |s| && s[k..k + |t|] == t
    ensures Contains(s, t)
    decreases k
  {
    if k == 0 {
      assert s[..|t|] == t;
    } else {
      assert s[1..][k - 1..k - 1 + |t|] == s[k..k + |t|];
      ContainsAt(s[1..], t, k - 1);
    }
  }

  /** `t` is absent from `p + v` when `p` lacks one of its characters and `v` lacks its last. */
  lemma AbsentAfter(p: string, v: string, t: string, c: char)
    requires c in t && c !in p && |t| > 0 && t[|t| - 1] !in v
    ensures !Contains(p + v, t)
  {
    Absent(p, t, c);
    NotContainsExtend(p, v, t);
  }

  // ---------------------------------------------------------------------------
  // Splitting on a separator (Python's `s.split(sep)`) and joining back
  // ---------------------------------------------------------------------------

  /** `s.split(sep)`: the maximal separator-free pieces, always at least one. */
  function Split(s: string, sep: char): (r: seq<string>)
    ensures |r| >= 1
    decreases |s|
  {
    if |s| == 0 then [""]
    else
      var rest := Split(s[1..], sep);
      if s[0] == sep then [""] + rest else [[s[0]] + rest[0]] + rest[1..]
  }

  /** `sep.join(pieces)` */
  function Join(pieces: seq<string>, sep: char): string
    requires |pieces| >= 1
  {
    if |pieces| == 1 then pieces[0] else pieces[0] + [sep] + Join(pieces[1..], sep)
  }

  /** Splitting loses nothing: joining the pieces gives back the text. */
  lemma {:induction false} JoinSplit(s: string, sep: char)
    ensures Join(Split(s, sep), sep) == s
    decreases |s|
  {
    if |s| > 0 {
      JoinSplit(s[1..], sep);
      var rest := Split(s[1..], sep);
      if s[0] != sep {
        if |rest| > 1 {
          assert rest == [rest[0]] + rest[1..];
          assert Join(rest, sep) == rest[0] + [sep] + Join(rest[1..], sep);
        }
      }
    }
  }

  /** No piece contains the separator, and there are several pieces exactly when it occurs. */
  lemma {:induction false} SplitPieces(s: string, sep: char)
    ensures forall i :: 0 <= i < |Split(s, sep)| ==> sep !in Split(s, sep)[i]
    ensures |Split(s, sep)| >= 2 <==> sep in s
    decreases |s|
  {
    if |s| > 0 {
      SplitPieces(s[1..], sep);
      assert s == [s[0]] + s[1..];
      var rest := Split(s[1..], sep);
      if s[0] != sep {
        assert [s[0]] + rest[0] == s[..1] + rest[0];
        assert sep !in [s[0]];
      }
    }
  }

  /** Text with no separator is a single piece. */
  lemma {:induction false} SplitFree(s: string, sep: char)
    requires sep !in s
    ensures Split(s, sep) == [s]
    decreases |s|
  {
    if |s| > 0 {
      SplitFree(s[1..], sep);
      assert [s[0]] + s[1..] == s;
    }
  }

  /** A separator-free head before the first separator becomes the first piece. */
  lemma {:induction false} SplitAfter(a: string, sep: char, b: string)
    requires sep !in a
    ensures Split(a + [sep] + b, sep) == [a] + Split(b, sep)
    decreases |a|
  {
    if |a| == 0 {
      assert a + [sep] + b == [sep] + b;
      assert ([sep] + b)[1..] == b;
    } else {
      SplitAfter(a[1..], sep, b);
      assert (a + [sep] + b)[1..] == a[1..] + [sep] + b;
      assert [a[0]] + a[1..] == a;
    }
  }

  /** `s.split(':')[k]`, or None where Python raises IndexError. */
  function Token(s: string, k: nat): (r: Option<string>)
    ensures r.Some? ==> ':' !in r.value
    ensures r.Some? <==> k < |Split(s, ':')|
  {
    SplitPieces(s, ':');
    if k < |Split(s, ':')| then Some(Split(s, ':')[k]) else None
  }

  /** The token after the first colon exists exactly when the text has a colon. */
  lemma TokenOneExists(s: string)
    ensures Token(s, 1).Some? <==> ':' in s
  {
    SplitPieces(s, ':');
  }

  /** With a colon-free head ending in the first colon and a colon-free tail, token 1 is the tail. */
  lemma TokenAfterHead(head: string, v: string)
    requires ':' !in head && ':' !in v
    ensures Token(head + ":" + v, 1) == Some(v)
  {
    SplitAfter(head, ':', v);
    SplitFree(v, ':');
  }

  // ---------------------------------------------------------------------------
  // Whitespace stripping (Python's `s.strip()`)
  // ---------------------------------------------------------------------------

  /**
    The characters Python's `str.isspace` accepts, which `strip()` removes: the ASCII
    controls 9-13 and 28-31, the space, NEL, no-break space, the Ogham space mark, the
    spaces U+2000 to U+200A, the line and paragraph separators, the narrow no-break space,
    the medium mathematical space and the ideographic space.
   */
  predicate IsSpace(c: char) {
    if c <= ' ' then '\t' <= c <= '\r' || '\U{1C}' <= c
    else if c < '\U{85}' then false
    else IsWideSpace(c)
  }

  /** The whitespace characters beyond ASCII. */
  predicate IsWideSpace(c: char) {
    || c == '\U{85}' || c == '\U{A0}' || c == '\U{1680}' || '\U{2000}' <= c <= '\U{200A}'
    || c == '\U{2028}' || c == '\U{2029}' || c == '\U{202F}' || c == '\U{205F}' || c == '\U{3000}'
  }

  /**
    The whitespace `int()` and `float()` accept around a number: the `str.isspace` set
    without the four separators U+001C to U+001F, on which both conversions raise.
   */
  predicate IsNumberSpace(c: char) {
    IsSpace(c) && !('\U{1C}' <= c <= '\U{1F}')
  }

  /** The characters a trim removes: `str.isspace` for `strip()`, or those of `int()` / `float()`. */
  predicate Blank(c: char, numeric: bool) {
    if numeric then IsNumberSpace(c) else IsSpace(c)
  }

  /** Drops leading blanks: the result is a suffix and everything dropped was blank. */
  function TrimStart(s: string, numeric: bool): (r: string)
    ensures |r| <= |s| && r == s[|s| - |r|..]
    ensures |r| > 0 ==> !Blank(r[0], numeric)
    ensures forall i :: 0 <= i < |s| - |r| ==> Blank(s[i], numeric)
    decreases |s|
  {
    if |s| > 0 && Blank(s[0], numeric) then
      var r := TrimStart(s[1..], numeric);
      assert forall i :: 1 <= i < |s| ==> s[i] == s[1..][i - 1];
      r
    else s
  }

  /** Drops trailing blanks: the result is a prefix and everything dropped was blank. */
  function TrimEnd(s: string, numeric: bool): (r: string)
    ensures |r| <= |s| && r == s[..|r|]
    ensures |r| > 0 ==> !Blank(r[|r| - 1], numeric)
    ensures forall i :: |r| <= i < |s| ==> Blank(s[i], numeric)
    decreases |s|
  {
    if |s| > 0 && Blank(s[|s| - 1], numeric) then
      var r := TrimEnd(s[..|s| - 1], numeric);
      assert forall i :: 0 <= i < |s| - 1 ==> s[i] == s[..|s| - 1][i];
      r
    else s
  }

  function Trim(s: string, numeric: bool): string {
    TrimEnd(TrimStart(s, numeric), numeric)
  }

  /** `s.strip()` */
  function Strip(s: string): string {
    Trim(s, false)
  }

  /** The whitespace removal `int()` and `float()` apply to their argument. */
  function NumberStrip(s: string): string {
    Trim(s, true)
  }

  /**
    Trimming removes blanks from the two ends and nothing else: the result is a slice of
    the text with only blanks outside it, it has no blank at either end, and trimming
    again changes nothing.
   */
  lemma TrimSpec(s: string, numeric: bool)
    ensures var r := Trim(s, numeric);
      && (exists i, j :: 0 <= i <= j <= |s| && r == s[i..j]
            && forall k :: (0 <= k < i || j <= k < |s|) ==> Blank(s[k], numeric))
      && (|r| > 0 ==> !Blank(r[0], numeric) && !Blank(r[|r| - 1], numeric))
      && Trim(r, numeric) == r
  {
    var i, j := TrimSlice(s, numeric);
    TrimEnds(s, numeric);
  }

  /** The bounds of the slice that Trim keeps. */
  lemma TrimSlice(s: string, numeric: bool) returns (i: nat, j: nat)
    ensures i <= j <= |s| && Trim(s, numeric) == s[i..j]
    ensures forall k :: 0 <= k < i || j <= k < |s| ==> Blank(s[k], numeric)
  {
    var u := TrimStart(s, numeric);
    var r := TrimEnd(u, numeric);
    i := |s| - |u|;
    j := i + |r|;
    assert u == s[i..];
    forall k | j <= k < |s| ensures Blank(s[k], numeric) {
      assert s[k] == u[k - i];
    }
  }

  lemma TrimEnds(s: string, numeric: bool)
    ensures var r := Trim(s, numeric);
      (|r| > 0 ==> !Blank(r[0], numeric) && !Blank(r[|r| - 1], numeric)) && Trim(r, numeric) == r
  {
    TrimFirstLast(s, numeric);
    NoBlankEnds(Trim(s, numeric), numeric);
  }

  /** The first and the last character Trim keeps are not blank. */
  lemma TrimFirstLast(s: string, numeric: bool)
    ensures var r := Trim(s, numeric); |r| > 0 ==> !Blank(r[0], numeric) && !Blank(r[|r| - 1], numeric)
  {
    var u := TrimStart(s, numeric);
    var r := TrimEnd(u, numeric);
    assert r == u[..|r|];
    if |r| > 0 {
      assert r[0] == u[0];
    }
  }

  /** Text with no blank at its ends is left alone by Trim. */
  lemma NoBlankEnds(r: string, numeric: bool)
    requires |r| > 0 ==> !Blank(r[0], numeric) && !Blank(r[|r| - 1], numeric)
    ensures Trim(r, numeric) == r
  {
    assert TrimStart(r, numeric) == r;
  }

  /**
    The file separator U+001C around a number: `strip()` removes it, but `int()` and
    `float()` keep it and so reject the text.
   */
  lemma SeparatorAroundNumber()
    ensures Strip("\U{1C}5\U{1C}") == "5"
    ensures ParseInt("\U{1C}5\U{1C}").None? && ParseFloat("\U{1C}5\U{1C}").None?
  {
    SeparatorStripped();
    SeparatorKept();
  }

  lemma SeparatorStripped()
    ensures Strip("\U{1C}5\U{1C}") == "5"
  {
    var x, d := '\U{1C}', '5';
    assert "\U{1C}5\U{1C}" == [x, d, x] && "5" == [d];
    assert IsSpace(x) && !IsSpace(d);
    assert [x, d, x][1..] == [d, x];
    assert TrimStart([d, x], false) == [d, x];
    assert [d, x][..1] == [d];
    assert TrimEnd([d], false) == [d];
    assert TrimEnd([d, x], false) == [d];
  }

  lemma SeparatorKept()
    ensures NumberStrip("\U{1C}5\U{1C}") == "\U{1C}5\U{1C}"
    ensures ParseInt("\U{1C}5\U{1C}").None? && ParseFloat("\U{1C}5\U{1C}").None?
  {
    var x, d := '\U{1C}', '5';
    var s := [x, d, x];
    assert "\U{1C}5\U{1C}" == s;
    assert !Blank(x, true);
    NoBlankEnds(s, true);
    assert !AllDigits(s) by { assert !IsDigit(s[0]); }
    assert !IsFloatLiteral(s) by { NonFloatStart(s); }
  }

  /** A text that starts with a character outside the float alphabet is not a float literal. */
  lemma NonFloatStart(s: string)
    requires |s| > 0 && !FloatChar(s[0]) && s[0] != '+' && s[0] != '-'
    ensures !IsFloatLiteral(s)
  {
    if IsUnsignedFloat(s) {
      UnsignedFloatChars(s);
    }
  }

  // ---------------------------------------------------------------------------
  // Letter case (ASCII `upper`, `lower`, `capitalize`)
  // ---------------------------------------------------------------------------

  function UpperChar(c: char): char {
    if 'a' <= c <= 'z' then (c as int - 'a' as int + 'A' as int) as char else c
  }

  function LowerChar(c: char): char {
    if 'A' <= c <= 'Z' then (c as int - 'A' as int + 'a' as int) as char else c
  }

  function Upper(s: string): (r: string)
    ensures |r| == |s| && forall i :: 0 <= i < |s| ==> r[i] == UpperChar(s[i])
  {
    if |s| == 0 then [] else [UpperChar(s[0])] + Upper(s[1..])
  }

  function Lower(s: string): (r: string)
    ensures |r| == |s| && forall i :: 0 <= i < |s| ==> r[i] == LowerChar(s[i])
  {
    if |s| == 0 then [] else [LowerChar(s[0])] + Lower(s[1..])
  }

  /** `s.capitalize()`: first character upper-cased, the rest lower-cased. */
  function Capitalize(s: string): (r: string)
    ensures |r| == |s|
    ensures |s| > 0 ==> r[0] == UpperChar(s[0]) && r[1..] == Lower(s[1..])
  {
    if |s| == 0 then [] else [UpperChar(s[0])] + Lower(s[1..])
  }

  /** A word is capitalised to `r` when `r` upper-cases its first letter and lower-cases the rest. */
  lemma CapitalizedAs(s: string, r: string)
    requires |s| == |r| > 0 && r[0] == UpperChar(s[0])
    requires forall i :: 1 <= i < |s| ==> r[i] == LowerChar(s[i])
    ensures Capitalize(s) == r
  {
    var c := Capitalize(s);
    assert c[1..] == Lower(s[1..]);
    forall i | 0 <= i < |s| ensures c[i] == r[i] {
      if i > 0 { assert c[i] == c[1..][i-1]; }
    }
  }

  // ---------------------------------------------------------------------------
  // Integers: `str(n)` and `int(token)`
  // ---------------------------------------------------------------------------

  predicate IsDigit(c: char) {
    '0' <= c <= '9'
  }

  predicate AllDigits(s: string) {
    |s| > 0 && forall i :: 0 <= i < |s| ==> IsDigit(s[i])
  }

  function DigitValue(c: char): nat
    requires IsDigit(c)
  {
    c as int - '0' as int
  }

  function DigitChar(d: nat): (c: char)
    requires d < 10
    ensures IsDigit(c) && DigitValue(c) == d
  {
    ('0' as int + d) as char
  }

  /** The value of a run of decimal digits, most significant first. */
  function DigitsValue(s: string): nat
    requires forall i :: 0 <= i < |s| ==> IsDigit(s[i])
  {
    if |s| == 0 then 0 else 10 * DigitsValue(s[..|s| - 1]) + DigitValue(s[|s| - 1])
  }

  /** `str(n)` for a natural number. */
  function NatText(n: nat): (r: string)
    ensures AllDigits(r)
  {
    if n < 10 then [DigitChar(n)] else NatText(n / 10) + [DigitChar(n % 10)]
  }

  /** `str(n)` for an integer. */
  function IntText(n: int): string {
    if n < 0 then "-" + NatText(-n) else NatText(n)
  }

  /** `int(token)`: optional surrounding number whitespace, an optional sign and decimal digits. */
  function ParseInt(t: string): Option<int> {
    var u := NumberStrip(t);
    if |u| > 0 && (u[0] == '-' || u[0] == '+') then
      if AllDigits(u[1..]) then
        Some(if u[0] == '-' then -(DigitsValue(u[1..]) as int) else DigitsValue(u[1..]))
      else None
    else if AllDigits(u) then Some(DigitsValue(u))
    else None
  }

  lemma {:induction false} NatTextValue(n: nat)
    ensures DigitsValue(NatText(n)) == n
  {
    if n >= 10 {
      NatTextValue(n / 10);
      var s := NatText(n / 10) + [DigitChar(n % 10)];
      assert s[..|s| - 1] == NatText(n / 10);
    }
  }

  /** Printing an integer and parsing it back gives the integer. */
  lemma IntTextRoundTrip(n: int)
    ensures ParseInt(IntText(n)) == Some(n)
  {
    var s := IntText(n);
    assert |s| > 0 && !Blank(s[0], true) && !Blank(s[|s| - 1], true);
    NoBlankEnds(s, true);
    if n < 0 {
      assert s[1..] == NatText(-n);
      NatTextValue(-n);
    } else {
      NatTextValue(n);
    }
  }

  /** A token that holds an integer exactly as Python prints it. */
  predicate IsIntText(t: string) {
    var n := ParseInt(t);
    n.Some? && IntText(n.value) == t
  }

  // ---------------------------------------------------------------------------
  // Floats: the text accepted by `float(token)`
  // ---------------------------------------------------------------------------

  function IndexOf(s: string, c: char): (k: nat)
    ensures k <= |s|
    ensures k < |s| ==> s[k] == c
    ensures forall i :: 0 <= i < k ==> s[i] != c
  {
    if |s| == 0 then 0 else if s[0] == c then 0 else 1 + IndexOf(s[1..], c)
  }

  predicate DigitsOrEmpty(s: string) {
    s == [] || AllDigits(s)
  }

  /** Digits with at most one decimal point and at least one digit: `12`, `1.5`, `1.`, `.5`. */
  predicate IsMantissa(m: string) {
    var d := IndexOf(m, '.');
    if d == |m| then AllDigits(m)
    else |m| > 1 && DigitsOrEmpty(m[..d]) && DigitsOrEmpty(m[d + 1..])
  }

  predicate IsExponent(e: string) {
    if |e| > 0 && (e[0] == '+' || e[0] == '-') then AllDigits(e[1..]) else AllDigits(e)
  }

  /** An unsigned decimal literal with an optional exponent, or inf/infinity/nan in any case. */
  predicate IsUnsignedFloat(b: string) {
    var l := Lower(b);
    if l == "inf" || l == "infinity" || l == "nan" then true
    else
      var k := IndexOf(l, 'e');
      if k == |b| then IsMantissa(b) else IsMantissa(b[..k]) && IsExponent(b[k + 1..])
  }

  predicate IsFloatLiteral(u: string) {
    if |u| > 0 && (u[0] == '+' || u[0] == '-') then IsUnsignedFloat(u[1..]) else IsUnsignedFloat(u)
  }

  /** `float(token)` succeeds on the stripped token; the number is carried by that text. */
  function ParseFloat(t: string): Option<string> {
    var u := NumberStrip(t);
    if IsFloatLiteral(u) then Some(u) else None
  }

  /** The lower-case letters of the exponent mark and of inf, infinity and nan. */
  predicate FloatLetter(l: char) {
    l == 'a' || l == 'e' || l == 'f' || l == 'i' || l == 'n' || l == 't' || l == 'y'
  }

  /** The characters a float literal can be made of. */
  predicate FloatChar(c: char) {
    IsDigit(c) || c == '+' || c == '-' || c == '.' || FloatLetter(LowerChar(c))
  }

  lemma DigitsChars(s: string)
    requires DigitsOrEmpty(s)
    ensures forall i :: 0 <= i < |s| ==> FloatChar(s[i])
  {
  }

  lemma MantissaChars(m: string)
    requires IsMantissa(m)
    ensures forall i :: 0 <= i < |m| ==> FloatChar(m[i])
  {
    var d := IndexOf(m, '.');
    if d < |m| {
      assert m == m[..d] + ['.'] + m[d + 1..];
      forall i | 0 <= i < |m| ensures FloatChar(m[i]) {
        if i < d {
          assert m[i] == m[..d][i];
        } else if i > d {
          assert m[i] == m[d + 1..][i - d - 1];
        }
      }
    }
  }

  /** The special float words are made of float letters. */
  lemma SpecialWordLetters(w: string)
    requires w == "inf" || w == "infinity" || w == "nan"
    ensures forall i :: 0 <= i < |w| ==> FloatLetter(w[i])
  {
    if w == "inf" {
      assert w == ['i', 'n', 'f'];
    } else if w == "nan" {
      assert w == ['n', 'a', 'n'];
    } else {
      assert w == ['i', 'n', 'f', 'i', 'n', 'i', 't', 'y'];
    }
  }

  /** A text that lower-cases to a special float word is made of float characters. */
  lemma LowerWords(b: string)
    requires Lower(b) == "inf" || Lower(b) == "infinity" || Lower(b) == "nan"
    ensures forall i :: 0 <= i < |b| ==> FloatChar(b[i])
  {
    var l := Lower(b);
    SpecialWordLetters(l);
    forall i | 0 <= i < |b| ensures FloatChar(b[i]) {
      assert l[i] == LowerChar(b[i]);
    }
  }

  lemma UnsignedFloatChars(b: string)
    requires IsUnsignedFloat(b)
    ensures forall i :: 0 <= i < |b| ==> FloatChar(b[i])
  {
    var l := Lower(b);
    if l == "inf" || l == "infinity" || l == "nan" {
      LowerWords(b);
    } else {
      var k := IndexOf(l, 'e');
      if k == |b| {
        MantissaChars(b);
      } else {
        MantissaChars(b[..k]);
        var e := b[k + 1..];
        assert l[k] == LowerChar(b[k]) == 'e';
        forall i | 0 <= i < |b| ensures FloatChar(b[i]) {
          if i < k {
            assert b[i] == b[..k][i];
          } else if i > k {
            assert b[i] == e[i - k - 1];
            if |e| > 0 && (e[0] == '+' || e[0] == '-') {
              if i > k + 1 {
                assert b[i] == e[1..][i - k - 2];
              }
            }
          }
        }
      }
    }
  }

  /**
    A float token consists only of digits, signs, '.', exponent letters and the letters of
    inf/nan, so it never holds a colon, a closing bracket or the letter m.
   */
  lemma FloatTokenChars(t: string)
    requires ParseFloat(t).Some?
    ensures forall i :: 0 <= i < |ParseFloat(t).value| ==> FloatChar(ParseFloat(t).value[i])
    ensures ':' !in ParseFloat(t).value && ']' !in ParseFloat(t).value && 'm' !in ParseFloat(t).value
  {
    var u := NumberStrip(t);
    assert ParseFloat(t) == Some(u);
    if |u| > 0 && (u[0] == '+' || u[0] == '-') {
      SignedChars(u);
    } else {
      UnsignedFloatChars(u);
    }
    FloatCharsExclude(u);
  }

  lemma SignedChars(u: string)
    requires |u| > 0 && (u[0] == '+' || u[0] == '-') && IsUnsignedFloat(u[1..])
    ensures forall i :: 0 <= i < |u| ==> FloatChar(u[i])
  {
    UnsignedFloatChars(u[1..]);
    forall i | 0 < i < |u| ensures FloatChar(u[i]) {
      assert u[i] == u[1..][i - 1];
    }
  }

  lemma FloatCharsExclude(u: string)
    requires forall i :: 0 <= i < |u| ==> FloatChar(u[i])
    ensures ':' !in u && ']' !in u && 'm' !in u
  {
  }

  /**
    A token `float()` accepts, surrounding whitespace included, holds no colon, no closing
    bracket and no letter m.
   */
  lemma FloatTextChars(t: string)
    requires ParseFloat(t).Some?
    ensures ':' !in t && ']' !in t && 'm' !in t
  {
    var i, j := TrimSlice(t, true);
    var u := ParseFloat(t).value;
    FloatTokenChars(t);
    forall k | 0 <= k < |t| ensures t[k] != ':' && t[k] != ']' && t[k] != 'm' {
      if i <= k < j {
        assert t[k] == u[k - i];
      }
    }
  }

  /** An integer's text has only digits and a sign, so it never holds a colon or a closing bracket. */
  lemma IntTextChars(n: int)
    ensures forall i :: 0 <= i < |IntText(n)| ==> IsDigit(IntText(n)[i]) || IntText(n)[i] == '-'
    ensures ':' !in IntText(n) && ']' !in IntText(n)
  {
    var s := IntText(n);
    if n < 0 {
      assert s == "-" + NatText(-n);
      assert forall i :: 0 <= i < |s| ==> i == 0 || IsDigit(s[i]) by {
        forall i | 0 < i < |s| ensures IsDigit(s[i]) {
          assert s[i] == NatText(-n)[i - 1];
        }
      }
    }
  }
}
