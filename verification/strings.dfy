/** String helpers shared by the front end (JavaScript string methods) and
    the back end (Python `str` operations). Strings are `seq<char>`. */
module Strings {

  /** `s.startsWith(p)` */
  predicate StartsWith(s: string, p: string) {
    |p| <= |s| && s[..|p|] == p
  }

  /** `sub in s` (Python) and `s.includes(sub)` (JavaScript). */
  predicate Contains(s: string, sub: string)
    decreases |s|
  {
    StartsWith(s, sub) || (|s| > 0 && Contains(s[1..], sub))
  }

  /** Some word of `words` occurs in `s`: `any(w in s for w in words)`. */
  predicate ContainsAny(s: string, words: seq<string>) {
    exists i :: 0 <= i < |words| && Contains(s, words[i])
  }

  lemma ContainsAnyWitness(s: string, words: seq<string>, i: nat)
    requires i < |words| && Contains(s, words[i])
    ensures ContainsAny(s, words)
  {
  }

  /** A substring is never longer than the string that holds it. */
  lemma {:induction false} ContainsLength(s: string, sub: string)
    requires Contains(s, sub)
    ensures |sub| <= |s|
    decreases |s|
  {
    if !StartsWith(s, sub) {
      ContainsLength(s[1..], sub);
    }
  }

  // ---- case --------------------------------------------------------------

  /** Lower-casing of one character; ASCII letters only. */
  function LowerChar(c: char): char {
    if 'A' <= c <= 'Z' then (c as int + 32) as char else c
  }

  /** `s.lower()` / `s.toLowerCase()`, restricted to ASCII letters. */
  function Lower(s: string): (r: string)
    ensures |r| == |s|
    ensures forall i :: 0 <= i < |s| ==> r[i] == LowerChar(s[i])
  {
    seq(|s|, i requires 0 <= i < |s| => LowerChar(s[i]))
  }

  /** Lower-casing twice is lower-casing once. */
  lemma LowerIdempotent(s: string)
    ensures Lower(Lower(s)) == Lower(s)
  {
  }

  // ---- whitespace and trimming -------------------------------------------

  /** ECMAScript WhiteSpace and LineTerminator code points: what
      `String.prototype.trim` removes. */
  predicate IsWhite(c: char) {
    || c == '\t' || c == '\n' || c == '\U{000B}' || c == '\U{000C}' || c == '\r'
    || c == ' ' || c == '\U{00A0}' || c == '\U{1680}'
    || ('\U{2000}' <= c <= '\U{200A}')
    || c == '\U{2028}' || c == '\U{2029}' || c == '\U{202F}' || c == '\U{205F}'
    || c == '\U{3000}' || c == '\U{FEFF}'
  }

  /** Drops leading whitespace; what is left is a suffix of `s`. */
  function TrimStart(s: string): (r: string)
    ensures |r| <= |s| && r == s[|s| - |r|..]
    ensures forall i :: 0 <= i < |s| - |r| ==> IsWhite(s[i])
    ensures r == [] || !IsWhite(r[0])
    decreases |s|
  {
    if |s| > 0 && IsWhite(s[0]) then TrimStart(s[1..]) else s
  }

  /** Drops trailing whitespace; what is left is a prefix of `s`. */
  function TrimEnd(s: string): (r: string)
    ensures |r| <= |s| && r == s[..|r|]
    ensures forall i :: |r| <= i < |s| ==> IsWhite(s[i])
    ensures r == [] || !IsWhite(r[|r| - 1])
    decreases |s|
  {
    if |s| > 0 && IsWhite(s[|s| - 1]) then TrimEnd(s[..|s| - 1]) else s
  }

  /** `s.trim()`: the contiguous middle of `s` left after removing
      whitespace at both ends. */
  function Trim(s: string): (r: string)
    ensures exists i, j :: 0 <= i <= j <= |s| && r == s[i..j] && WhiteOutside(s, i, j)
    ensures r == [] || (!IsWhite(r[0]) && !IsWhite(r[|r| - 1]))
  {
    var t := TrimStart(s);
    var r := TrimEnd(t);
    TrimPieces(s, t, r);
    r
  }

  /** Where the trimmed text sits in the input. */
  lemma TrimPieces(s: string, t: string, r: string)
    requires |t| <= |s| && t == s[|s| - |t|..] && forall k :: 0 <= k < |s| - |t| ==> IsWhite(s[k])
    requires |r| <= |t| && r == t[..|r|] && forall k :: |r| <= k < |t| ==> IsWhite(t[k])
    ensures var i := |s| - |t|;
      i + |r| <= |s| && r == s[i..i + |r|] && WhiteOutside(s, i, i + |r|)
  {
    SuffixTail(s, |s| - |t|, |r|, IsWhite);
  }

  /** What holds of a suffix's tail holds of the same positions of the
      whole. */
  lemma SuffixTail<T>(s: seq<T>, i: nat, n: nat, P: T -> bool)
    requires i <= |s| && forall k :: n <= k < |s| - i ==> P(s[i..][k])
    ensures forall k :: i + n <= k < |s| ==> P(s[k])
  {
    forall k | i + n <= k < |s| ensures P(s[k]) {
      assert s[k] == s[i..][k - i];
    }
  }

  /** Everything before `i` and from `j` on is whitespace. */
  predicate WhiteOutside(s: string, i: nat, j: nat) {
    (forall k :: 0 <= k < i && k < |s| ==> IsWhite(s[k]))
    && (forall k :: j <= k < |s| ==> IsWhite(s[k]))
  }

  /** A trimmed string is empty exactly when the input was all whitespace. */
  lemma TrimEmptyIff(s: string)
    ensures Trim(s) == [] <==> forall i :: 0 <= i < |s| ==> IsWhite(s[i])
  {
    var t := TrimStart(s);
    assert t != [] ==> t[0] == s[|s| - |t|];
    if Trim(s) == [] {
      assert t == [];
    }
  }

  /** Trimming is idempotent. */
  lemma TrimIdempotent(s: string)
    ensures Trim(Trim(s)) == Trim(s)
  {
    var r := Trim(s);
    if r != [] {
      assert TrimStart(r) == r;
      assert TrimEnd(r) == r;
    }
  }

  // ---- searching and splitting -------------------------------------------

  /** Index of the first occurrence of `c` (`indexOf`, `find`, `findIndex`). */
  function IndexOf<T(==)>(s: seq<T>, c: T): (i: nat)
    requires c in s
    ensures i < |s| && s[i] == c && c !in s[..i]
  {
    if s[0] == c then 0 else 1 + IndexOf(s[1..], c)
  }

  /** The first occurrence is the only index holding `c` with no `c` before it. */
  lemma {:induction false} IndexOfUnique<T>(s: seq<T>, c: T, k: nat)
    requires k < |s| && s[k] == c && c !in s[..k]
    ensures IndexOf(s, c) == k
  {
    if k > 0 {
      assert s[0] != c by { assert s[..k][0] == s[0]; }
      assert s[1..][..k - 1] == s[..k][1..];
      IndexOfUnique(s[1..], c, k - 1);
    }
  }

  /** Index of the last occurrence of `c` (`rfind`, `lastIndexOf`). */
  function LastIndexOf<T(==)>(s: seq<T>, c: T): (i: nat)
    requires c in s
    ensures i < |s| && s[i] == c && c !in s[i + 1..]
  {
    if s[|s| - 1] == c then |s| - 1 else LastIndexOf(s[..|s| - 1], c)
  }

  /** The last occurrence is the only index holding `c` with no `c` after it. */
  lemma {:induction false} LastIndexOfUnique<T>(s: seq<T>, c: T, k: nat)
    requires k < |s| && s[k] == c && c !in s[k + 1..]
    ensures LastIndexOf(s, c) == k
  {
    if k < |s| - 1 {
      assert s[|s| - 1] != c by { assert s[k + 1..][|s| - k - 2] == s[|s| - 1]; }
      assert s[..|s| - 1][k + 1..] == s[k + 1..|s| - 1];
      LastIndexOfUnique(s[..|s| - 1], c, k);
    }
  }

  /** `s.split(sep)` for a one-character separator. */
  function Split(s: string, sep: char): (parts: seq<string>)
    ensures |parts| >= 1
    ensures sep !in s ==> parts == [s]
    decreases |s|
  {
    if sep !in s then [s]
    else
      var i := IndexOf(s, sep);
      [s[..i]] + Split(s[i + 1..], sep)
  }

  /** The first piece of a split is the text before the first separator. */
  lemma SplitHead(s: string, sep: char)
    ensures sep in s ==> Split(s, sep)[0] == s[..IndexOf(s, sep)]
    ensures sep !in Split(s, sep)[0]
  {
  }

  /** Splitting `a + sep + b` when `a` holds no separator. */
  lemma SplitCons(a: string, sep: char, b: string)
    requires sep !in a
    ensures Split(a + [sep] + b, sep) == [a] + Split(b, sep)
  {
    var s := a + [sep] + b;
    assert s[|a|] == sep;
    assert s[..|a|] == a;
    IndexOfUnique(s, sep, |a|);
    var i := IndexOf(s, sep);
    assert s[..i] == a;
    assert s[i + 1..] == b;
  }

  /** `c.repeat(n)` for a one-character string. */
  function Repeat(c: char, n: nat): (r: string)
    ensures |r| == n && forall i :: 0 <= i < n ==> r[i] == c
  {
    seq(n, _ => c)
  }

  // ---- decimal numerals --------------------------------------------------

  predicate IsDigit(c: char) {
    '0' <= c <= '9'
  }

  function DigitChar(d: nat): (c: char)
    requires d < 10
    ensures IsDigit(c)
  {
    ('0' as int + d) as char
  }

  function DigitValue(c: char): nat
    requires IsDigit(c)
  {
    c as int - '0' as int
  }

  predicate AllDigits(s: string) {
    forall i :: 0 <= i < |s| ==> IsDigit(s[i])
  }

  /** Decimal rendering of a natural number (`String(n)`, `${n}`). */
  function NatToString(n: nat): (s: string)
    ensures |s| >= 1 && AllDigits(s)
  {
    if n < 10 then [DigitChar(n)]
    else NatToString(n / 10) + [DigitChar(n % 10)]
  }

  /** `Number(s)` for a string of decimal digits ("" reads as 0). */
  function ParseNat(s: string): nat
    requires AllDigits(s)
  {
    if |s| == 0 then 0
    else ParseNat(s[..|s| - 1]) * 10 + DigitValue(s[|s| - 1])
  }

  /** Reading back a rendered number gives the number. */
  lemma {:induction false} ParseNatToString(n: nat)
    ensures ParseNat(NatToString(n)) == n
  {
    if n >= 10 {
      var s := NatToString(n);
      assert s[..|s| - 1] == NatToString(n / 10);
      ParseNatToString(n / 10);
    }
  }

  /** Leading zeros do not change the value read. */
  lemma {:induction false} ParseNatLeadingZero(s: string)
    requires AllDigits(s)
    ensures ParseNat("0" + s) == ParseNat(s)
    decreases |s|
  {
    if |s| > 0 {
      var z := "0" + s;
      assert z[..|z| - 1] == "0" + s[..|s| - 1];
      ParseNatLeadingZero(s[..|s| - 1]);
    }
  }

  /** `s.padStart(width, '0')`. */
  function PadZero(s: string, width: nat): (r: string)
    ensures |r| == if |s| >= width then |s| else width
    ensures r == Repeat('0', |r| - |s|) + s
  {
    if |s| >= width then s else Repeat('0', width - |s|) + s
  }

  /** One more column of padding puts one more `0` in front. */
  lemma PadZeroStep(s: string, width: nat)
    requires |s| < width
    ensures PadZero(s, width) == "0" + PadZero(s, width - 1)
  {
    var k := width - 1 - |s|;
    assert Repeat('0', k + 1) == "0" + Repeat('0', k);
  }

  /** Zero padding keeps digits digits and keeps the value. */
  lemma {:induction false} PadZeroValue(s: string, width: nat)
    requires AllDigits(s)
    ensures AllDigits(PadZero(s, width))
    ensures ParseNat(PadZero(s, width)) == ParseNat(s)
    decreases width
  {
    if |s| < width {
      var r' := PadZero(s, width - 1);
      PadZeroStep(s, width);
      PadZeroValue(s, width - 1);
      ParseNatLeadingZero(r');
    }
  }
}
