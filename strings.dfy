/** Text helpers with the meaning the Python and JavaScript string methods have on ASCII text:
    `strip`, `lower`, `title`, `split` on one character, `in` on a substring, `startswith`,
    `replace` of one character and `str` of a natural number. */
module Strings {
  import opened Wrappers

  /** Python's `str.isspace` restricted to ASCII: space, \t \n \v \f \r and the separators 0x1c-0x1f. */
  predicate IsSpace(c: char) {
    c == ' ' || (9 <= c as int <= 13) || (28 <= c as int <= 31)
  }

  /** ASCII letter classes and digits. */
  predicate IsUpper(c: char) { 'A' <= c <= 'Z' }
  predicate IsLower(c: char) { 'a' <= c <= 'z' }
  predicate IsAlpha(c: char) { IsUpper(c) || IsLower(c) }
  predicate IsDigit(c: char) { '0' <= c <= '9' }

  /** The ASCII lower case of a character. */
  function LowerChar(c: char): (r: char)
    ensures IsUpper(c) ==> IsLower(r)
    ensures !IsUpper(c) ==> r == c
  {
    if IsUpper(c) then (c as int + 32) as char else c
  }

  /** The ASCII upper case of a character. */
  function UpperChar(c: char): (r: char)
    ensures IsLower(c) ==> IsUpper(r)
    ensures !IsLower(c) ==> r == c
    ensures LowerChar(r) == LowerChar(c) && IsAlpha(r) == IsAlpha(c)
  {
    if IsLower(c) then (c as int - 32) as char else c
  }

  /** `s.lower()` */
  function Lower(s: string): (r: string)
    ensures |r| == |s|
    ensures forall i :: 0 <= i < |s| ==> r[i] == LowerChar(s[i])
    ensures forall i :: 0 <= i < |r| ==> !IsUpper(r[i]) && LowerChar(r[i]) == r[i]
    ensures forall i :: 0 <= i < |s| && !IsUpper(s[i]) ==> r[i] == s[i]
  {
    seq(|s|, i requires 0 <= i < |s| => LowerChar(s[i]))
  }

  /** `s.title()`: a letter is upper-cased when it starts a run of letters and lower-cased otherwise. */
  function Title(s: string): (r: string)
    ensures |r| == |s|
    ensures |s| > 0 ==> r[0] == UpperChar(s[0])
    ensures forall i :: 0 < i < |s| ==> r[i] == (if IsAlpha(s[i - 1]) then LowerChar(s[i]) else UpperChar(s[i]))
    ensures forall i :: 0 <= i < |s| ==> LowerChar(r[i]) == LowerChar(s[i]) && IsAlpha(r[i]) == IsAlpha(s[i])
  {
    seq(|s|, i requires 0 <= i < |s| =>
      if i > 0 && IsAlpha(s[i - 1]) then LowerChar(s[i]) else UpperChar(s[i]))
  }

  /** `s.lstrip()` */
  function TrimLeft(s: string): (r: string)
    ensures |r| <= |s| && r == s[|s| - |r|..]
    ensures r == [] || !IsSpace(r[0])
    ensures forall i :: 0 <= i < |s| - |r| ==> IsSpace(s[i])
  {
    if s != [] && IsSpace(s[0]) then TrimLeft(s[1..]) else s
  }

  /** `s.rstrip()` */
  function TrimRight(s: string): (r: string)
    ensures |r| <= |s| && r == s[..|r|]
    ensures r == [] || !IsSpace(r[|r| - 1])
    ensures forall i :: |r| <= i < |s| ==> IsSpace(s[i])
  {
    if s != [] && IsSpace(s[|s| - 1]) then TrimRight(s[..|s| - 1]) else s
  }

  /** `s.strip()` */
  function Strip(s: string): string {
    TrimRight(TrimLeft(s))
  }

  /** A stripped text has no whitespace at either end. */
  predicate Stripped(s: string) {
    s == [] || (!IsSpace(s[0]) && !IsSpace(s[|s| - 1]))
  }

  /** What strip leaves starts and ends with no space. */
  lemma StripIsStripped(s: string)
    ensures Stripped(Strip(s))
  {
    var l := TrimLeft(s);
    var r := TrimRight(l);
    if r != [] {
      assert r[0] == l[0];
    }
  }

  /** A text that starts and ends with no space is its own strip. */
  lemma StrippedIsFixed(s: string)
    requires Stripped(s)
    ensures Strip(s) == s
  {
  }

  /** Stripping twice is stripping once: normalising a field again changes nothing. */
  lemma StripIdempotent(s: string)
    ensures Strip(Strip(s)) == Strip(s)
  {
    StripIsStripped(s);
    StrippedIsFixed(Strip(s));
  }

  /** `p` is a prefix of `s`; `s.startswith(p)`. */
  predicate StartsWith(s: string, p: string) {
    |p| <= |s| && s[..|p|] == p
  }

  /** The first index at which `sub` occurs in `s`. */
  function IndexOf(s: string, sub: string): (r: Option<nat>)
    ensures r.Some? ==> r.value + |sub| <= |s|
  {
    if StartsWith(s, sub) then Some(0)
    else if s == [] then None
    else
      match IndexOf(s[1..], sub)
      case None => None
      case Some(k) => Some(k + 1)
  }

  /** The index found is an occurrence, and no occurrence starts earlier; `None` means none at all. */
  lemma {:induction false} IndexOfSound(s: string, sub: string)
    ensures var r := IndexOf(s, sub);
      r.Some? ==> s[r.value..r.value + |sub|] == sub && forall j :: 0 <= j < r.value ==> !StartsWith(s[j..], sub)
    ensures IndexOf(s, sub).None? ==> forall j :: 0 <= j <= |s| ==> !StartsWith(s[j..], sub)
  {
    if !StartsWith(s, sub) && s != [] {
      IndexOfSound(s[1..], sub);
      assert forall j :: 1 <= j <= |s| ==> s[j..] == s[1..][j - 1..];
      match IndexOf(s[1..], sub)
      case None =>
      case Some(k) =>
        assert s[k + 1..k + 1 + |sub|] == s[1..][k..k + |sub|];
    }
  }

  /** `sub in s` */
  predicate Contains(s: string, sub: string) {
    IndexOf(s, sub).Some?
  }

  /** `s.split(sep)` for a one-character separator: the pieces between the separators, in order. */
  function Split(s: string, sep: char): (r: seq<string>)
    ensures |r| >= 1
    ensures forall i :: 0 <= i < |r| ==> sep !in r[i]
  {
    if s == [] then [""]
    else
      var rest := Split(s[1..], sep);
      if s[0] == sep then [""] + rest
      else [[s[0]] + rest[0]] + rest[1..]
  }

  /** `sep.join(parts)` */
  function Join(parts: seq<string>, sep: char): string
    requires |parts| >= 1
  {
    if |parts| == 1 then parts[0] else parts[0] + [sep] + Join(parts[1..], sep)
  }

  /** Splitting and joining again gives back the text: no character is lost or added. */
  lemma {:induction false} JoinSplit(s: string, sep: char)
    ensures Join(Split(s, sep), sep) == s
  {
    if s != [] {
      JoinSplit(s[1..], sep);
      var rest := Split(s[1..], sep);
      if s[0] != sep {
        if |rest| > 1 {
          assert Join(rest, sep) == rest[0] + [sep] + Join(rest[1..], sep);
          assert Join(Split(s, sep), sep) == ([s[0]] + rest[0]) + [sep] + Join(rest[1..], sep);
        }
      }
    }
  }

  /** The text before the first separator: `s.split(sep)[0]`. */
  function FirstPiece(s: string, sep: char): (r: string)
    ensures sep !in r && StartsWith(s, r)
    ensures r == s || (|r| < |s| && s[|r|] == sep)
  {
    if s == [] then ""
    else if s[0] == sep then ""
    else [s[0]] + FirstPiece(s[1..], sep)
  }

  /** The first piece of a text that starts with a separator-free part and a separator is that part. */
  lemma FirstPieceOfAppend(a: string, sep: char, b: string)
    requires sep !in a
    ensures FirstPiece(a + [sep] + b, sep) == a
  {
    var s := a + [sep] + b;
    assert s[|a|] == sep;
    assert forall i :: 0 <= i < |a| ==> s[i] == a[i];
  }

  /** The first piece of a split is the text up to the first separator. */
  lemma {:induction false} FirstPieceIsSplitHead(s: string, sep: char)
    ensures Split(s, sep)[0] == FirstPiece(s, sep)
  {
    if s != [] && s[0] != sep {
      FirstPieceIsSplitHead(s[1..], sep);
    }
  }

  /** The text after the last separator, or the whole text when there is none:
      Python's `s.split(sep)[-1]` and JavaScript's `s.split(sep).pop()`. */
  function LastPiece(s: string, sep: char): (r: string)
    ensures sep !in r
  {
    var parts := Split(s, sep);
    parts[|parts| - 1]
  }

  /** The last piece is a suffix of the text, preceded by the separator unless it is the whole text. */
  lemma {:induction false} LastPieceIsSuffix(s: string, sep: char)
    ensures |LastPiece(s, sep)| <= |s|
    ensures s[|s| - |LastPiece(s, sep)|..] == LastPiece(s, sep)
    ensures LastPiece(s, sep) == s || s[|s| - |LastPiece(s, sep)| - 1] == sep
  {
    if s != [] {
      LastPieceIsSuffix(s[1..], sep);
      var rest := Split(s[1..], sep);
      var l := LastPiece(s[1..], sep);
      assert l == rest[|rest| - 1];
      if s[0] == sep || |rest| > 1 {
        assert LastPiece(s, sep) == l;
        assert s[|s| - |l|..] == s[1..][|s| - 1 - |l|..];
        if l == s[1..] {
          NoSepSplit(s[1..], sep);
          assert s[|s| - |l| - 1] == s[0];
        } else {
          assert s[|s| - |l| - 1] == s[1..][|s| - 1 - |l| - 1];
        }
      } else {
        JoinSplit(s[1..], sep);
        assert rest[0] == s[1..];
        assert LastPiece(s, sep) == [s[0]] + s[1..] == s;
      }
    }
  }

  /** A separator-free text after a prefix ending in the separator is the last piece. */
  lemma {:induction false} LastPieceOfAppend(p: string, x: string, sep: char)
    requires sep !in x
    ensures LastPiece(p + [sep] + x, sep) == x
  {
    if p == [] {
      assert ([sep] + x)[1..] == x;
      NoSepSplit(x, sep);
    } else {
      assert (p + [sep] + x)[1..] == p[1..] + [sep] + x;
      LastPieceOfAppend(p[1..], x, sep);
      var rest := Split(p[1..] + [sep] + x, sep);
      SplitHasSepPieces(p[1..] + [sep] + x, sep, |p| - 1);
      assert |rest| > 1;
    }
  }

  /** A text without the separator splits into itself. */
  lemma {:induction false} NoSepSplit(x: string, sep: char)
    requires sep !in x
    ensures Split(x, sep) == [x]
  {
    if x != [] {
      NoSepSplit(x[1..], sep);
      assert [x[0]] + x[1..] == x;
    }
  }

  /** A text with a separator at index k splits into at least two pieces. */
  lemma {:induction false} SplitHasSepPieces(s: string, sep: char, k: nat)
    requires k < |s| && s[k] == sep
    ensures |Split(s, sep)| > 1
  {
    if k > 0 {
      SplitHasSepPieces(s[1..], sep, k - 1);
    }
  }

  /** `s.replace(c, t)`: every occurrence of the character replaced by the text. */
  function ReplaceChar(s: string, c: char, t: string): (r: string)
    ensures c !in s ==> r == s
  {
    if s == [] then ""
    else (if s[0] == c then t else [s[0]]) + ReplaceChar(s[1..], c, t)
  }

  /** The character of a decimal digit. */
  function DigitChar(d: nat): (c: char)
    requires d < 10
    ensures IsDigit(c)
  {
    "0123456789"[d]
  }

  /** `str(n)` for a natural number: its decimal digits without padding. */
  function NatToString(n: nat): (r: string)
    ensures |r| >= 1
    ensures forall i :: 0 <= i < |r| ==> IsDigit(r[i])
  {
    if n < 10 then [DigitChar(n)] else NatToString(n / 10) + [DigitChar(n % 10)]
  }

  /** The value of a string of decimal digits. */
  function DigitsValue(s: string): nat
    requires forall i :: 0 <= i < |s| ==> IsDigit(s[i])
  {
    if s == [] then 0
    else
      assert IsDigit(s[|s| - 1]);
      DigitsValue(s[..|s| - 1]) * 10 + (s[|s| - 1] as int - '0' as int)
  }

  /** A four-digit number prints as exactly four digits and reads back as itself. */
  lemma FourDigitYear(y: nat)
    requires 1000 <= y <= 9999
    ensures |NatToString(y)| == 4
    ensures DigitsValue(NatToString(y)) == y
  {
    var a, b, c := y / 10, y / 100, y / 1000;
    assert a / 10 == b && b / 10 == c;
    assert y == a * 10 + y % 10 && a == b * 10 + a % 10 && b == c * 10 + b % 10;
    var s3, s2, s1 := NatToString(a), NatToString(b), NatToString(c);
    assert s1 == [DigitChar(c)];
    assert s2 == s1 + [DigitChar(b % 10)];
    assert s3 == s2 + [DigitChar(a % 10)];
    var s := NatToString(y);
    assert s == s3 + [DigitChar(y % 10)];
    assert s[..3] == s3 && s3[..2] == s2 && s2[..1] == s1 && s1[..0] == [];
    DigitOfChar(c);
    DigitOfChar(b % 10);
    DigitOfChar(a % 10);
    DigitOfChar(y % 10);
    assert DigitsValue(s1) == c;
    assert DigitsValue(s2) == b;
    assert DigitsValue(s3) == a;
  }

  /** The character of a digit reads back as that digit. */
  lemma DigitOfChar(d: nat)
    requires d < 10
    ensures DigitChar(d) as int - '0' as int == d
  {
  }
}
