/** The Python `str` operations the core uses: `isspace`, `strip`, `split()`, `lower`,
    `join`, and the decimal rendering of an integer in an f-string. */
module Strings {

  /** Python's `str.isspace()` for one character (the Unicode White_Space set Python uses). */
  predicate IsSpace(c: char) {
    || c == ' ' || c == '\t' || c == '\n' || c == '\r' || c == '\U{B}' || c == '\U{C}'
    || ('\U{1C}' <= c <= '\U{1F}')
    || c == '\U{85}' || c == '\U{A0}' || c == '\U{1680}'
    || ('\U{2000}' <= c <= '\U{200A}')
    || c == '\U{2028}' || c == '\U{2029}' || c == '\U{202F}' || c == '\U{205F}' || c == '\U{3000}'
  }

  predicate AllSpace(s: string) {
    forall i :: 0 <= i < |s| ==> IsSpace(s[i])
  }

  /** `s.lstrip()`: drop leading whitespace. */
  function StripLeft(s: string): (r: string)
    ensures |r| <= |s|
  {
    if |s| > 0 && IsSpace(s[0]) then StripLeft(s[1..]) else s
  }

  /** `s.rstrip()`: drop trailing whitespace. */
  function StripRight(s: string): (r: string)
    ensures |r| <= |s|
  {
    if |s| > 0 && IsSpace(s[|s| - 1]) then StripRight(s[..|s| - 1]) else s
  }

  /** `s.lstrip()` is a suffix of `s` after a run of whitespace, and starts with a non-whitespace character. */
  lemma {:induction false} StripLeftPiece(s: string)
    ensures StripLeft(s) == s[|s| - |StripLeft(s)|..]
    ensures AllSpace(s[..|s| - |StripLeft(s)|])
    ensures StripLeft(s) == [] || !IsSpace(StripLeft(s)[0])
  {
    if |s| > 0 && IsSpace(s[0]) {
      StripLeftPiece(s[1..]);
      var k := |s| - |StripLeft(s)|;
      assert s[..k] == [s[0]] + s[1..][..k - 1];
    }
  }

  /** `s.rstrip()` is a prefix of `s` before a run of whitespace, and ends with a non-whitespace character. */
  lemma {:induction false} StripRightPiece(s: string)
    ensures StripRight(s) == s[..|StripRight(s)|]
    ensures AllSpace(s[|StripRight(s)|..])
    ensures StripRight(s) == [] || !IsSpace(StripRight(s)[|StripRight(s)| - 1])
  {
    if |s| > 0 && IsSpace(s[|s| - 1]) {
      StripRightPiece(s[..|s| - 1]);
      var k := |StripRight(s)|;
      assert s[k..] == s[..|s| - 1][k..] + [s[|s| - 1]];
    }
  }

  /** `s.strip()`: `s` without whitespace at either end. */
  function Strip(s: string): (r: string)
    ensures |r| <= |s|
    ensures r == [] || (!IsSpace(r[0]) && !IsSpace(r[|r| - 1]))
  {
    var l := StripLeft(s);
    StripLeftPiece(s);
    StripRightPiece(l);
    var r := StripRight(l);
    assert r == [] || r[0] == l[0];
    r
  }

  /** `s.strip()` is the piece of `s` between a leading and a trailing run of whitespace. */
  lemma StripPiece(s: string) returns (i: nat)
    ensures i + |Strip(s)| <= |s|
    ensures Strip(s) == s[i..i + |Strip(s)|]
    ensures AllSpace(s[..i]) && AllSpace(s[i + |Strip(s)|..])
  {
    var l := StripLeft(s);
    StripLeftPiece(s);
    StripRightPiece(l);
    var r := StripRight(l);
    i := |s| - |l|;
    assert r == s[i..i + |r|];
    assert s[i + |r|..] == l[|r|..];
  }

  lemma StripIdempotent(s: string)
    ensures Strip(Strip(s)) == Strip(s)
  {
    var t := Strip(s);
    assert StripLeft(t) == t;
    assert StripRight(t) == t;
  }

  /** `s.strip()` is empty exactly when `s` is whitespace only. */
  lemma StripEmptyIff(s: string)
    ensures Strip(s) == [] <==> AllSpace(s)
  {
    var r := Strip(s);
    var i := StripPiece(s);
    if r == [] {
      assert forall k :: 0 <= k < |s| ==> IsSpace(s[k]) by {
        forall k | 0 <= k < |s| ensures IsSpace(s[k]) {
          if k < i { assert s[k] == s[..i][k]; } else { assert s[k] == s[i..][k - i]; }
        }
      }
    } else {
      assert s[i] == r[0];
    }
  }

  /** The non-whitespace characters of `s`, in order. */
  function NonSpace(s: string): (r: string)
    ensures |r| <= |s|
  {
    if s == [] then [] else (if IsSpace(s[0]) then [] else [s[0]]) + NonSpace(s[1..])
  }

  lemma {:induction false} NonSpaceAppend(a: string, b: string)
    ensures NonSpace(a + b) == NonSpace(a) + NonSpace(b)
  {
    if a != [] {
      assert (a + b)[0] == a[0];
      assert (a + b)[1..] == a[1..] + b;
      NonSpaceAppend(a[1..], b);
    } else {
      assert a + b == b;
    }
  }

  lemma {:induction false} NonSpaceOfSpace(s: string)
    requires AllSpace(s)
    ensures NonSpace(s) == []
  {
    if s != [] {
      NonSpaceOfSpace(s[1..]);
    }
  }

  lemma NonSpaceStripLeft(s: string)
    ensures NonSpace(StripLeft(s)) == NonSpace(s)
  {
    var l := StripLeft(s);
    StripLeftPiece(s);
    var k := |s| - |l|;
    assert s == s[..k] + l;
    NonSpaceAppend(s[..k], l);
    NonSpaceOfSpace(s[..k]);
  }

  lemma NonSpaceStripRight(s: string)
    ensures NonSpace(StripRight(s)) == NonSpace(s)
  {
    var r := StripRight(s);
    StripRightPiece(s);
    assert s == r + s[|r|..];
    NonSpaceAppend(r, s[|r|..]);
    NonSpaceOfSpace(s[|r|..]);
  }

  /** Stripping only ever removes whitespace. */
  lemma NonSpaceStrip(s: string)
    ensures NonSpace(Strip(s)) == NonSpace(s)
  {
    NonSpaceStripLeft(s);
    NonSpaceStripRight(StripLeft(s));
  }

  /** Length of the leading run of non-whitespace characters. */
  function WordLength(t: string): (n: nat)
    ensures n <= |t|
    ensures forall i :: 0 <= i < n ==> !IsSpace(t[i])
    ensures n < |t| ==> IsSpace(t[n])
  {
    if t == [] || IsSpace(t[0]) then 0 else 1 + WordLength(t[1..])
  }

  /** `s.split()` with no separator: the maximal runs of non-whitespace characters. */
  function Words(s: string): (ws: seq<string>)
    ensures forall k :: 0 <= k < |ws| ==> |ws[k]| > 0
    ensures forall k, i :: 0 <= k < |ws| && 0 <= i < |ws[k]| ==> !IsSpace(ws[k][i])
    decreases |s|
  {
    var t := StripLeft(s);
    StripLeftPiece(s);
    if t == [] then []
    else
      var n := WordLength(t);
      [t[..n]] + Words(t[n..])
  }

  /** The first word of `s` and the text after it. */
  lemma WordsUnfold(s: string) returns (rest: string)
    requires Words(s) != []
    ensures |rest| < |s| && rest == s[|s| - |rest|..]
    ensures Words(s)[1..] == Words(rest)
    ensures forall i :: 0 <= i < |Words(s)[0]| ==> Words(s)[0][i] in s
  {
    var t := StripLeft(s);
    StripLeftPiece(s);
    var n := WordLength(t);
    rest := t[n..];
    var off := |s| - |t|;
    forall i | 0 <= i < |Words(s)[0]| ensures Words(s)[0][i] in s {
      assert Words(s)[0][i] == t[i] == s[off + i];
    }
  }

  /** Every character of a word of `s` is a character of `s`. */
  lemma {:induction false} WordsDrawFrom(s: string, k: nat, i: nat)
    requires k < |Words(s)| && i < |Words(s)[k]|
    ensures Words(s)[k][i] in s
    decreases |s|
  {
    var rest := WordsUnfold(s);
    if k > 0 {
      assert Words(s)[k] == Words(rest)[k - 1];
      WordsDrawFrom(rest, k - 1, i);
      SuffixMembers(s, rest);
    }
  }

  lemma {:induction false} StripLeftAppend(a: string, x: string)
    ensures StripLeft(a) != [] ==> StripLeft(a + x) == StripLeft(a) + x
    ensures StripLeft(a) == [] ==> StripLeft(a + x) == StripLeft(x)
  {
    if a == [] {
      assert a + x == x;
    } else {
      assert (a + x)[0] == a[0];
      if IsSpace(a[0]) {
        assert (a + x)[1..] == a[1..] + x;
        StripLeftAppend(a[1..], x);
      }
    }
  }

  /** A word ends where the next whitespace character begins. */
  lemma {:induction false} WordLengthAppend(t: string, x: string)
    requires x != [] && IsSpace(x[0])
    ensures WordLength(t + x) == WordLength(t)
  {
    if t == [] {
      assert t + x == x;
    } else {
      assert (t + x)[0] == t[0];
      if !IsSpace(t[0]) {
        assert (t + x)[1..] == t[1..] + x;
        WordLengthAppend(t[1..], x);
      }
    }
  }

  lemma {:induction false} WordLengthAll(w: string)
    requires forall i :: 0 <= i < |w| ==> !IsSpace(w[i])
    ensures WordLength(w) == |w|
  {
    if w != [] {
      WordLengthAll(w[1..]);
    }
  }

  /** A non-empty run of non-whitespace characters is one word. */
  lemma WordsOfWord(w: string)
    requires w != [] && forall i :: 0 <= i < |w| ==> !IsSpace(w[i])
    ensures Words(w) == [w]
  {
    WordLengthAll(w);
    assert StripLeft(w) == w;
    assert w[..|w|] == w && w[|w|..] == [];
    assert Words([]) == [];
    assert Words(w) == [w[..|w|]] + Words(w[|w|..]);
  }

  /** `s.split()` cuts at every whitespace character: the words of `a + [c] + b` are those of `a`
      followed by those of `b`. */
  /** One unfolding of `Words`: the first word is the longest non-space run after the
      leading whitespace, and the rest are the words of what follows it. */
  lemma WordsFirst(s: string)
    ensures StripLeft(s) == [] ==> Words(s) == []
    ensures StripLeft(s) != [] ==>
      Words(s) == [StripLeft(s)[..WordLength(StripLeft(s))]] + Words(StripLeft(s)[WordLength(StripLeft(s))..])
  {
  }

  lemma WordsHead(s: string, t: string, n: nat)
    requires StripLeft(s) == t && t != [] && n == WordLength(t)
    ensures n <= |t|
    ensures Words(s) == [t[..n]] + Words(t[n..])
  {
    WordsFirst(s);
  }

  lemma StripLeftStart(s: string)
    ensures StripLeft(s) == [] || !IsSpace(StripLeft(s)[0])
  {
    StripLeftPiece(s);
  }

  lemma ConsAssoc<T>(w: T, p: seq<T>, q: seq<T>)
    ensures [w] + (p + q) == ([w] + p) + q
  {
  }

  lemma SliceAppend(t: string, x: string, n: nat)
    requires n <= |t|
    ensures (t + x)[..n] == t[..n] && (t + x)[n..] == t[n..] + x
  {
  }

  lemma WordsGapBlank(a: string, x: string)
    requires StripLeft(a) == [] && StripLeft(a + x) == StripLeft(x)
    ensures Words(a + x) == Words(a) + Words(x)
  {
    WordsFirst(a + x);
    WordsFirst(a);
    WordsFirst(x);
  }

  lemma WordsGapStep(a: string, x: string, t: string, n: nat)
    requires StripLeft(a) == t && t != [] && n == WordLength(t)
    requires StripLeft(a + x) == t + x && WordLength(t + x) == n
    ensures n <= |t|
    ensures Words(a + x) == [t[..n]] + Words(t[n..] + x)
    ensures Words(a) == [t[..n]] + Words(t[n..])
  {
    SliceAppend(t, x, n);
    WordsHead(a + x, t + x, n);
    WordsHead(a, t, n);
  }

  /** Text that begins with whitespace starts a new word list of its own. */
  lemma {:induction false} WordsBeforeGap(a: string, x: string)
    requires x != [] && IsSpace(x[0])
    ensures Words(a + x) == Words(a) + Words(x)
    decreases |a|
  {
    StripLeftAppend(a, x);
    var t := StripLeft(a);
    if t == [] {
      WordsGapBlank(a, x);
    } else {
      StripLeftStart(a);
      var n := WordLength(t);
      assert n > 0;
      WordLengthAppend(t, x);
      WordsGapStep(a, x, t, n);
      WordsBeforeGap(t[n..], x);
      ConsAssoc(t[..n], Words(t[n..]), Words(x));
    }
  }

  /** A whitespace character ends a word: the words on either side of it are listed apart. */
  lemma WordsAtSpace(a: string, c: char, b: string)
    requires IsSpace(c)
    ensures Words(a + [c] + b) == Words(a) + Words(b)
  {
    var x := [c] + b;
    assert a + [c] + b == a + x;
    WordsBeforeGap(a, x);
    assert x[1..] == b;
    assert StripLeft(x) == StripLeft(b);
    WordsFirst(x);
    WordsFirst(b);
  }

  lemma SuffixMembers(s: string, t: string)
    requires |t| <= |s| && t == s[|s| - |t|..]
    ensures forall c :: c in t ==> c in s
  {
    forall c | c in t ensures c in s {
      var j :| 0 <= j < |t| && t[j] == c;
      assert s[|s| - |t| + j] == c;
    }
  }

  function LowerChar(c: char): char {
    if 'A' <= c <= 'Z' then (c as int + 32) as char else c
  }

  /** `s.lower()` on the ASCII letters: no capital is left, each capital becomes its small
      letter, and every other character is kept in place. */
  function Lower(s: string): (r: string)
    ensures |r| == |s|
    ensures forall i :: 0 <= i < |s| ==> r[i] == LowerChar(s[i])
    ensures forall i :: 0 <= i < |r| ==> !('A' <= r[i] <= 'Z')
    ensures forall i :: 0 <= i < |s| && 'A' <= s[i] <= 'Z' ==> r[i] as int == s[i] as int + 32
    ensures forall i :: 0 <= i < |s| && !('A' <= s[i] <= 'Z') ==> r[i] == s[i]
  {
    seq(|s|, i requires 0 <= i < |s| => LowerChar(s[i]))
  }

  /** The concatenation of a list of strings. */
  function Concat(ss: seq<string>): string {
    if ss == [] then [] else Concat(ss[..|ss| - 1]) + ss[|ss| - 1]
  }

  lemma {:induction false} ConcatCons(s: string, ss: seq<string>)
    ensures Concat([s] + ss) == s + Concat(ss)
  {
    if ss != [] {
      var init, last := ss[..|ss| - 1], ss[|ss| - 1];
      assert ([s] + ss)[..|ss|] == [s] + init;
      ConcatCons(s, init);
    } else {
      assert [s] + ss == [s];
      assert Concat([s]) == Concat([]) + s;
    }
  }

  /** A run of non-whitespace characters is its own non-whitespace content. */
  lemma {:induction false} NonSpaceOfWord(w: string)
    requires forall i :: 0 <= i < |w| ==> !IsSpace(w[i])
    ensures NonSpace(w) == w
  {
    if w != [] {
      NonSpaceOfWord(w[1..]);
    }
  }

  /** One step of `s.split()`: the first word, and the text after it. */
  lemma WordsStep(s: string) returns (w: string, rest: string)
    requires StripLeft(s) != []
    ensures |rest| < |s|
    ensures Words(s) == [w] + Words(rest)
    ensures NonSpace(s) == w + NonSpace(rest)
  {
    var t := StripLeft(s);
    StripLeftPiece(s);
    NonSpaceStripLeft(s);
    var n := WordLength(t);
    w, rest := t[..n], t[n..];
    NonSpaceOfWord(w);
    assert t == w + rest;
    NonSpaceAppend(w, rest);
  }

  /** `s.split()` loses only whitespace: its words, put back together, are exactly the
      non-whitespace characters of `s`, in order. */
  lemma {:induction false} WordsContent(s: string)
    ensures Concat(Words(s)) == NonSpace(s)
    decreases |s|
  {
    if StripLeft(s) == [] {
      NonSpaceStripLeft(s);
    } else {
      var w, rest := WordsStep(s);
      WordsContent(rest);
      ConcatCons(w, Words(rest));
    }
  }

  /** `sep.join(parts)`. */
  function Join(sep: string, parts: seq<string>): string {
    if |parts| == 0 then []
    else if |parts| == 1 then parts[0]
    else Join(sep, parts[..|parts| - 1]) + sep + parts[|parts| - 1]
  }

  /** Python's `a <= b` on strings: the first differing character decides, and a prefix comes first. */
  predicate StrLe(a: string, b: string) {
    a == [] || (b != [] && (a[0] < b[0] || (a[0] == b[0] && StrLe(a[1..], b[1..]))))
  }

  lemma {:induction false} StrLeTotal(a: string, b: string)
    ensures StrLe(a, b) || StrLe(b, a)
  {
    if a != [] && b != [] && a[0] == b[0] {
      StrLeTotal(a[1..], b[1..]);
    }
  }

  lemma {:induction false} StrLeTrans(a: string, b: string, c: string)
    requires StrLe(a, b) && StrLe(b, c)
    ensures StrLe(a, c)
  {
    if a != [] && a[0] == b[0] && b[0] == c[0] {
      StrLeTrans(a[1..], b[1..], c[1..]);
    }
  }

  lemma {:induction false} StrLeAntisymmetric(a: string, b: string)
    requires StrLe(a, b) && StrLe(b, a)
    ensures a == b
  {
    if a != [] {
      StrLeAntisymmetric(a[1..], b[1..]);
      assert a == [a[0]] + a[1..] && b == [b[0]] + b[1..];
    }
  }

  /** `s.rfind(c)`: the last position of `c` in `s`, or -1 when there is none. */
  function RFind(s: string, c: char): (k: int)
    ensures -1 <= k < |s|
    ensures k >= 0 ==> s[k] == c
    ensures forall i :: k < i < |s| ==> s[i] != c
  {
    if s == [] then -1 else if s[|s| - 1] == c then |s| - 1 else RFind(s[..|s| - 1], c)
  }

  /** Text without `c` appended after `p` does not move the last `c`. */
  lemma RFindAppend(p: string, d: string, c: char)
    requires forall i :: 0 <= i < |d| ==> d[i] != c
    ensures RFind(p + d, c) == RFind(p, c)
  {
    var k, k' := RFind(p + d, c), RFind(p, c);
    if k' >= 0 {
      assert (p + d)[k'] == c;
    }
    forall i | |p| <= i < |p + d| ensures (p + d)[i] != c {
      assert (p + d)[i] == d[i - |p|];
    }
    if 0 <= k < |p| {
      assert p[k] == (p + d)[k];
    }
  }

  /** The character of decimal digit `d`. */
  function DigitChar(d: nat): (c: char)
    requires d < 10
    ensures '0' <= c <= '9'
    ensures DigitValue(c) == d
  {
    ('0' as int + d) as char
  }

  predicate IsDigit(c: char) {
    '0' <= c <= '9'
  }

  /** The value of a decimal digit character. */
  function DigitValue(c: char): (v: int)
    ensures IsDigit(c) <==> 0 <= v <= 9
  {
    c as int - '0' as int
  }

  /** The number a string of decimal digits denotes, most significant digit first. */
  function DigitsValue(s: string): (v: nat)
    requires forall i :: 0 <= i < |s| ==> IsDigit(s[i])
  {
    if s == [] then 0 else 10 * DigitsValue(s[..|s| - 1]) + DigitValue(s[|s| - 1])
  }

  /** The decimal rendering `str(n)` of a non-negative integer. */
  function DecimalString(n: nat): (s: string)
    ensures |s| > 0
    ensures forall i :: 0 <= i < |s| ==> IsDigit(s[i])
    ensures n < 10 <==> |s| == 1
  {
    if n < 10 then [DigitChar(n)] else DecimalString(n / 10) + [DigitChar(n % 10)]
  }

  /** `str(n)` denotes `n` read back as a decimal numeral, and has no leading zero unless it is `"0"`. */
  lemma {:induction false} DecimalStringValue(n: nat)
    ensures DigitsValue(DecimalString(n)) == n
    ensures DecimalString(n)[0] != '0' || DecimalString(n) == "0"
  {
    if n >= 10 {
      var p, c := DecimalString(n / 10), DigitChar(n % 10);
      DecimalStringValue(n / 10);
      assert DecimalString(n) == p + [c];
      assert (p + [c])[..|p|] == p;
      assert p != "0";
    }
  }

  lemma DigitCharInjective(a: nat, b: nat)
    requires a < 10 && b < 10 && DigitChar(a) == DigitChar(b)
    ensures a == b
  {
  }

  /** Different numbers render differently. */
  lemma {:induction false} DecimalStringInjective(a: nat, b: nat)
    requires DecimalString(a) == DecimalString(b)
    ensures a == b
  {
    var s := DecimalString(a);
    if a < 10 {
      DigitCharInjective(a, b);
    } else {
      assert b >= 10;
      assert s[|s| - 1] == DigitChar(a % 10) == DigitChar(b % 10);
      DigitCharInjective(a % 10, b % 10);
      assert s[..|s| - 1] == DecimalString(a / 10) == DecimalString(b / 10);
      DecimalStringInjective(a / 10, b / 10);
    }
  }
}
