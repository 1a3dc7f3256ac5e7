/** Text operations shared by the models: trimming, splitting, joining and decimal
    numerals, with the facts the other modules need about them. A string is a
    sequence of Unicode scalar values. */
module Strings {
  import opened Sequences

  /** The code points for which Go's unicode.IsSpace answers true. */
  predicate IsSpace(c: char) {
    || c in "\t\n\r " || c == '\U{0B}' || c == '\U{0C}' || c == '\U{85}' || c == '\U{A0}'
    || c == '\U{1680}' || '\U{2000}' <= c <= '\U{200A}' || c == '\U{2028}' || c == '\U{2029}'
    || c == '\U{202F}' || c == '\U{205F}' || c == '\U{3000}'
  }

  /** Bytes of the UTF-8 encoding of a rune. */
  function Utf8Width(c: char): (w: nat)
    ensures w >= 1
  {
    if c as nat < 0x80 then 1 else if c as nat < 0x800 then 2 else if c as nat < 0x10000 then 3 else 4
  }

  /** len(s) of a Go string. */
  function ByteLen(s: string): (n: nat)
    ensures n >= |s| && (s == "" ==> n == 0)
  {
    if s == "" then 0 else Utf8Width(s[0]) + ByteLen(s[1..])
  }

  lemma {:induction false} ByteLenConcat(a: string, b: string)
    ensures ByteLen(a + b) == ByteLen(a) + ByteLen(b)
  {
    if a == "" {
      assert a + b == b;
    } else {
      assert (a + b)[1..] == a[1..] + b;
      ByteLenConcat(a[1..], b);
    }
  }

  predicate AllIn(s: string, p: char -> bool) {
    forall i :: 0 <= i < |s| ==> p(s[i])
  }

  /** Drops the longest prefix of characters satisfying p. */
  function TrimLeft(s: string, p: char -> bool): (r: string)
    ensures IsSuffix(r, s)
    ensures r == "" || !p(r[0])
  {
    if s != "" && p(s[0]) then
      var r := TrimLeft(s[1..], p);
      assert s[|s| - |r|..] == s[1..][|s| - 1 - |r|..];
      r
    else s
  }

  /** Drops the longest suffix of characters satisfying p. */
  function TrimRight(s: string, p: char -> bool): (r: string)
    ensures r <= s
    ensures r == "" || !p(r[|r| - 1])
  {
    if s != "" && p(s[|s| - 1]) then TrimRight(s[..|s| - 1], p) else s
  }

  lemma {:induction false} TrimLeftDrops(s: string, p: char -> bool)
    ensures AllIn(s[..|s| - |TrimLeft(s, p)|], p)
  {
    if s != "" && p(s[0]) {
      TrimLeftDrops(s[1..], p);
      var n := |s| - |TrimLeft(s, p)|;
      assert s[..n] == [s[0]] + s[1..][..n - 1];
    }
  }

  lemma {:induction false} TrimRightDrops(s: string, p: char -> bool)
    ensures AllIn(s[|TrimRight(s, p)|..], p)
  {
    if s != "" && p(s[|s| - 1]) {
      var n := |TrimRight(s, p)|;
      TrimRightDrops(s[..|s| - 1], p);
      assert s[n..] == s[..|s| - 1][n..] + [s[|s| - 1]];
    }
  }

  function Trim(s: string, p: char -> bool): (r: string)
    ensures |r| <= |s|
  {
    TrimRight(TrimLeft(s, p), p)
  }

  function TrimSpace(s: string): string {
    Trim(s, IsSpace)
  }

  predicate Trimmed(s: string, p: char -> bool) {
    s == "" || (!p(s[0]) && !p(s[|s| - 1]))
  }

  /** t stands in s at a position. */
  ghost predicate TextAt(s: string, at: nat, t: string) {
    at + |t| <= |s| && forall i :: 0 <= i < |t| ==> s[at + i] == t[i]
  }

  lemma TextSlice(s: string, at: nat, t: string)
    requires TextAt(s, at, t)
    ensures s[at..at + |t|] == t
  {
  }

  lemma TrimShrinks(s: string, p: char -> bool)
    ensures ByteLen(Trim(s, p)) <= ByteLen(s)
  {
    var l := TrimLeft(s, p);
    SuffixShorter(s, l);
    PrefixShorter(l, TrimRight(l, p));
  }

  lemma SuffixShorter(s: string, l: string)
    requires IsSuffix(l, s)
    ensures ByteLen(l) <= ByteLen(s)
  {
    assert s == s[..|s| - |l|] + l;
    ByteLenConcat(s[..|s| - |l|], l);
  }

  lemma PrefixShorter(s: string, l: string)
    requires l <= s
    ensures ByteLen(l) <= ByteLen(s)
  {
    assert s == l + s[|l|..];
    ByteLenConcat(l, s[|l|..]);
  }

  lemma TrimIsTrimmed(s: string, p: char -> bool)
    ensures Trimmed(Trim(s, p), p)
  {
  }

  lemma TrimmedIsFixed(s: string, p: char -> bool)
    requires Trimmed(s, p)
    ensures Trim(s, p) == s
  {
  }

  lemma AllInConcat(a: string, b: string, p: char -> bool)
    ensures AllIn(a + b, p) <==> AllIn(a, p) && AllIn(b, p)
  {
    var s := a + b;
    assert forall i :: 0 <= i < |a| ==> s[i] == a[i];
    assert forall i :: 0 <= i < |b| ==> s[|a| + i] == b[i];
  }

  /** Trimming answers "" exactly on strings made of trimmed characters only. */
  lemma TrimBlank(s: string, p: char -> bool)
    ensures Trim(s, p) == "" <==> AllIn(s, p)
  {
    var l := TrimLeft(s, p);
    TrimLeftDrops(s, p);
    SuffixBlank(s, l, p);
    var r := TrimRight(l, p);
    TrimRightDrops(l, p);
    PrefixBlank(l, r, p);
    assert r == "" <==> AllIn(r, p) by { if r != "" { assert !p(r[|r| - 1]); } }
  }

  lemma SuffixBlank(s: string, l: string, p: char -> bool)
    requires IsSuffix(l, s) && AllIn(s[..|s| - |l|], p)
    ensures AllIn(s, p) <==> AllIn(l, p)
  {
    AllInConcat(s[..|s| - |l|], l, p);
    assert s == s[..|s| - |l|] + l;
  }

  lemma PrefixBlank(l: string, r: string, p: char -> bool)
    requires r <= l && AllIn(l[|r|..], p)
    ensures AllIn(l, p) <==> AllIn(r, p)
  {
    AllInConcat(r, l[|r|..], p);
    assert l == r + l[|r|..];
  }

  /** A padding of trimmed characters around a text does not change what is left of it. */
  lemma TrimPadded(pre: string, s: string, post: string, p: char -> bool)
    requires AllIn(pre, p) && AllIn(post, p)
    ensures Trim(pre + s + post, p) == Trim(s, p)
  {
    TrimLeftPadded(pre, s + post, p);
    ConcatAssoc(pre, s, post);
    if AllIn(s, p) {
      AllInConcat(s, post, p);
      TrimBlank(s, p);
      TrimBlank(s + post, p);
    } else {
      TrimLeftSuffix(s, post, p);
      TrimRightPadded(TrimLeft(s, p), post, p);
    }
  }

  lemma {:induction false} TrimLeftPadded(pre: string, s: string, p: char -> bool)
    requires AllIn(pre, p)
    ensures TrimLeft(pre + s, p) == TrimLeft(s, p)
  {
    if pre == "" {
      assert pre + s == s;
    } else {
      assert (pre + s)[1..] == pre[1..] + s;
      TrimLeftPadded(pre[1..], s, p);
    }
  }

  lemma {:induction false} TrimRightPadded(s: string, post: string, p: char -> bool)
    requires AllIn(post, p)
    ensures TrimRight(s + post, p) == TrimRight(s, p)
  {
    if post == "" {
      assert s + post == s;
    } else {
      assert (s + post)[..|s + post| - 1] == s + post[..|post| - 1];
      TrimRightPadded(s, post[..|post| - 1], p);
    }
  }

  lemma {:induction false} TrimLeftSuffix(s: string, post: string, p: char -> bool)
    requires !AllIn(s, p)
    ensures TrimLeft(s + post, p) == TrimLeft(s, p) + post
  {
    if p(s[0]) {
      assert (s + post)[1..] == s[1..] + post;
      TrimLeftSuffix(s[1..], post, p);
    }
  }

  /** strings.Join */
  function Join(parts: seq<string>, sep: string): string {
    if |parts| == 0 then ""
    else if |parts| == 1 then parts[0]
    else parts[0] + sep + Join(parts[1..], sep)
  }

  lemma {:induction false} JoinSnoc(parts: seq<string>, last: string, sep: string)
    requires parts != []
    ensures Join(parts + [last], sep) == Join(parts, sep) + sep + last
  {
    assert (parts + [last])[1..] == parts[1..] + [last];
    if |parts| > 1 {
      JoinSnoc(parts[1..], last, sep);
    }
  }

  /** strings.Split on a one-character separator. */
  function SplitOn(s: string, sep: char): (parts: seq<string>)
    ensures |parts| >= 1
    ensures forall i :: 0 <= i < |parts| ==> sep !in parts[i]
  {
    if s == "" then [""]
    else
      var rest := SplitOn(s[1..], sep);
      if s[0] == sep then [""] + rest else [[s[0]] + rest[0]] + rest[1..]
  }

  /** Splitting a line that is followed by a separator takes that line off. */
  lemma {:induction false} SplitLine(line: string, rest: string, sep: char)
    requires sep !in line
    ensures SplitOn(line + [sep] + rest, sep) == [line] + SplitOn(rest, sep)
  {
    var s := line + [sep] + rest;
    if line == "" {
      assert s[1..] == rest;
    } else {
      assert s[1..] == line[1..] + [sep] + rest;
      SplitLine(line[1..], rest, sep);
      assert line == [s[0]] + line[1..];
    }
  }

  /** What stands before and after the first separator is determined. */
  lemma {:induction false} SeparatedUnique(w1: string, k1: string, w2: string, k2: string, sep: char)
    requires sep !in w1 && sep !in w2 && w1 + [sep] + k1 == w2 + [sep] + k2
    ensures w1 == w2 && k1 == k2
  {
    var a, b := w1 + [sep] + k1, w2 + [sep] + k2;
    assert a[0] == (if w1 == "" then sep else w1[0]) && b[0] == (if w2 == "" then sep else w2[0]);
    assert w1 == "" ==> a[1..] == k1;
    assert w2 == "" ==> b[1..] == k2;
    if w1 != "" && w2 != "" {
      assert a[1..] == w1[1..] + [sep] + k1 && b[1..] == w2[1..] + [sep] + k2;
      SeparatedUnique(w1[1..], k1, w2[1..], k2, sep);
      assert w1 == [w1[0]] + w1[1..] && w2 == [w2[0]] + w2[1..];
    }
  }

  const DIGITS: string := "0123456789"

  /** Decimal numeral of a natural number. */
  function Itoa(n: nat): (s: string)
    ensures s != "" && forall i :: 0 <= i < |s| ==> s[i] in DIGITS
  {
    if n < 10 then [DIGITS[n]] else Itoa(n / 10) + [DIGITS[n % 10]]
  }

  lemma {:induction false} ItoaInjective(m: nat, n: nat)
    requires Itoa(m) == Itoa(n)
    ensures m == n
  {
    if m < 10 && n < 10 {
    } else if m >= 10 && n >= 10 {
      SnocUnique(Itoa(m / 10), DIGITS[m % 10], Itoa(n / 10), DIGITS[n % 10]);
      ItoaInjective(m / 10, n / 10);
      assert m % 10 == n % 10;
    }
  }
}
