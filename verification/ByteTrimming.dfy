/** strings.TrimSpace on the bytes of a text: white space is cut off at both ends, also where
    its UTF-8 encoding takes two or three bytes. */
module ByteTrimming {
  import opened Sequences
  import opened Strings
  import opened Trimming

  predicate IsAsciiSpace(c: char) {
    c == '\t' || c == '\n' || c == '\r' || c == ' ' || c == '\U{0B}' || c == '\U{0C}'
  }

  /** The encodings of U+0085 and U+00A0. */
  predicate IsSpace2(a: char, b: char) {
    a == '\U{C2}' && (b == '\U{85}' || b == '\U{A0}')
  }

  /** The encodings of U+1680, U+2000 to U+200A, U+2028, U+2029, U+202F, U+205F and U+3000. */
  predicate IsSpace3(a: char, b: char, c: char) {
    || (a == '\U{E1}' && b == '\U{9A}' && c == '\U{80}')
    || (a == '\U{E2}' && b == '\U{80}' && ('\U{80}' <= c <= '\U{8A}' || c == '\U{A8}' || c == '\U{A9}' || c == '\U{AF}'))
    || (a == '\U{E2}' && b == '\U{81}' && c == '\U{9F}')
    || (a == '\U{E3}' && b == '\U{80}' && c == '\U{80}')
  }

  /** A byte that does not start a character. */
  predicate Continues(c: char) {
    '\U{80}' <= c <= '\U{BF}'
  }

  /** Bytes of the white space character in front of s, 0 when there is none. */
  function Ahead(s: string): (n: nat)
    ensures n <= |s|
  {
    if |s| >= 1 && IsAsciiSpace(s[0]) then 1
    else if |s| >= 2 && IsSpace2(s[0], s[1]) then 2
    else if |s| >= 3 && IsSpace3(s[0], s[1], s[2]) then 3
    else 0
  }

  /** Bytes of the white space character at the end of s. */
  function Behind(s: string): (n: nat)
    ensures n <= |s|
  {
    var k := |s|;
    if k >= 1 && IsAsciiSpace(s[k - 1]) then 1
    else if k >= 2 && IsSpace2(s[k - 2], s[k - 1]) then 2
    else if k >= 3 && IsSpace3(s[k - 3], s[k - 2], s[k - 1]) then 3
    else 0
  }

  function TrimFront(s: string): (r: string)
    ensures |r| <= |s|
  {
    if Ahead(s) == 0 then s else TrimFront(s[Ahead(s)..])
  }

  function TrimBack(s: string): (r: string)
    ensures |r| <= |s|
  {
    if Behind(s) == 0 then s else TrimBack(s[..|s| - Behind(s)])
  }

  function TrimBytes(s: string): string {
    TrimBack(TrimFront(s))
  }

  /** The bytes that trimming drops in front. */
  function Lead(s: string): nat {
    |s| - |TrimFront(s)|
  }

  /** Nothing but white space. */
  predicate Blank(s: string)
    decreases |s|
  {
    s == "" || (Ahead(s) > 0 && Blank(s[Ahead(s)..]))
  }

  /** No white space at either end. */
  predicate Clean(s: string) {
    Ahead(s) == 0 && Behind(s) == 0
  }

  lemma {:induction false} FrontParts(s: string)
    ensures IsSuffix(TrimFront(s), s) && Ahead(TrimFront(s)) == 0
    ensures Blank(s) <==> TrimFront(s) == ""
  {
    var n := Ahead(s);
    if n > 0 {
      FrontParts(s[n..]);
      SuffixTransitive(TrimFront(s), s[n..], s);
    }
  }

  lemma {:induction false} BackParts(s: string)
    ensures TrimBack(s) <= s && Behind(TrimBack(s)) == 0
  {
    var n := Behind(s);
    if n > 0 {
      BackParts(s[..|s| - n]);
    }
  }

  // ---- white space at the seam of two texts ----

  /** What stands in front stays there; and no white space character arises in front when b
      starts with the start of a character. */
  lemma AheadConcat(a: string, b: string)
    ensures Ahead(a) > 0 ==> Ahead(a + b) == Ahead(a)
    ensures a != "" && Ahead(a) == 0 && (b == "" || !Continues(b[0])) ==> Ahead(a + b) == 0
  {
    assert a == [] || (a + b)[0] == a[0];
    assert |a| < 2 || (a + b)[1] == a[1];
    assert |a| < 3 || (a + b)[2] == a[2];
    if |a| == 1 && b != "" { assert (a + b)[1] == b[0]; }
    if |a| == 2 && b != "" { assert (a + b)[2] == b[0]; }
    if b == "" { assert a + b == a; }
  }

  lemma BehindConcat(a: string, b: string)
    ensures Behind(b) > 0 ==> Behind(a + b) == Behind(b)
    ensures b != "" && Behind(b) == 0 && !Continues(b[0]) ==> Behind(a + b) == 0
  {
    var s := a + b;
    var k, n := |s|, |b|;
    assert n < 1 || s[k - 1] == b[n - 1];
    assert n < 2 || s[k - 2] == b[n - 2];
    assert n < 3 || s[k - 3] == b[n - 3];
    assert n == 0 || b[0] == s[k - n];
  }

  lemma BehindBreak(s: string)
    requires s != ""
    ensures Behind(BREAK + s) == Behind(s)
  {
    BehindConcat(BREAK, s);
    assert |s| > 2 || (BREAK + s)[0] == '\n';
  }

  /** A text keeps its clean ends when another one follows or precedes behind a line break. */
  lemma CleanAround(a: string, b: string)
    ensures a != "" && Ahead(a) == 0 ==> Ahead(a + BREAK + b) == 0
    ensures b != "" && Behind(b) == 0 ==> Behind(a + BREAK + b) == 0
  {
    ConcatAssoc(a, BREAK, b);
    AheadConcat(a, BREAK + b);
    if b != "" {
      BehindBreak(b);
      BehindConcat(a, BREAK + b);
    }
  }

  // ---- blank texts ----

  lemma {:induction false} BlankPad(pad: string, s: string)
    requires Blank(pad)
    ensures TrimFront(pad + s) == TrimFront(s)
  {
    var n := Ahead(pad);
    if pad == "" {
      assert pad + s == s;
    } else {
      AheadConcat(pad, s);
      assert (pad + s)[n..] == pad[n..] + s;
      BlankPad(pad[n..], s);
    }
  }

  lemma BlankConcat(a: string, b: string)
    requires Blank(a)
    ensures Blank(a + b) <==> Blank(b)
  {
    BlankPad(a, b);
    FrontParts(a + b);
    FrontParts(b);
  }

  lemma {:induction false} BlankParts(a: string, b: string)
    requires Blank(a + BREAK + b)
    ensures Blank(a) && Blank(b)
  {
    var s := a + BREAK + b;
    ConcatAssoc(a, BREAK, b);
    if a == "" {
      assert s == BREAK + b && s[1..] == b;
    } else {
      AheadConcat(a, BREAK + b);
      var n := Ahead(s);
      assert n == Ahead(a);
      assert s[n..] == a[n..] + BREAK + b;
      BlankParts(a[n..], b);
    }
  }

  /** What is nothing but white space ends with it. */
  lemma {:induction false} BlankBehind(s: string)
    requires Blank(s) && s != ""
    ensures Behind(s) > 0
  {
    var n := Ahead(s);
    var first, rest := s[..n], s[n..];
    assert s == first + rest;
    if rest != "" {
      BlankBehind(rest);
      BehindConcat(first, rest);
    } else {
      assert s == first;
    }
  }

  /** What is cut off completely from the back starts with white space. */
  lemma {:induction false} GoneAhead(s: string)
    requires TrimBack(s) == "" && s != ""
    ensures Ahead(s) > 0
  {
    var n := Behind(s);
    var init, last := s[..|s| - n], s[|s| - n..];
    assert s == init + last;
    if init != "" {
      GoneAhead(init);
      AheadConcat(init, last);
    } else {
      assert s == last;
    }
  }

  lemma TrimBlank(s: string)
    ensures TrimBytes(s) == "" <==> Blank(s)
  {
    FrontParts(s);
    if TrimBytes(s) == "" && TrimFront(s) != "" {
      GoneAhead(TrimFront(s));
    }
  }

  /** The front stays clean when something is cut off from the back. */
  lemma CleanFront(s: string, t: string)
    requires Ahead(s) == 0 && t <= s
    ensures Ahead(t) == 0
  {
    AheadConcat(t, s[|t|..]);
    assert s == t + s[|t|..];
  }

  lemma TrimIsClean(s: string)
    ensures Clean(TrimBytes(s))
  {
    FrontParts(s);
    BackParts(TrimFront(s));
    CleanFront(TrimFront(s), TrimBytes(s));
  }

  lemma CleanIsFixed(s: string)
    requires Clean(s)
    ensures TrimBytes(s) == s
  {
  }

  lemma BlankStart(s: string)
    requires Blank(s) && s != ""
    ensures !Continues(s[0])
  {
  }

  // ---- where the trimmed text stands ----

  /** t is what trimming leaves of s, k bytes behind its start. */
  ghost predicate Stands(s: string, k: nat, t: string) {
    TextAt(s, k, t) && Clean(t) && Blank(s[..k]) && Blank(s[k + |t|..]) && (t == "" ==> Blank(s))
  }

  lemma PrefixSplit(s: string, n: nat, k: nat)
    requires n <= k <= |s|
    ensures s[..k] == s[..n] + s[n..][..k - n]
  {
  }

  lemma SuffixSplit(s: string, k: nat, n: nat)
    requires k <= n <= |s|
    ensures s[k..] == s[..n][k..] + s[n..]
  {
  }

  lemma {:induction false} FrontBlank(s: string)
    ensures Blank(s[..Lead(s)])
  {
    var n, k := Ahead(s), Lead(s);
    if n > 0 {
      FrontBlank(s[n..]);
      AheadBlank(s, n);
      PrefixSplit(s, n, k);
      BlankConcat(s[..n], s[n..][..k - n]);
    }
  }

  lemma AheadBlank(s: string, n: nat)
    requires 0 < n == Ahead(s)
    ensures Blank(s[..n])
  {
    assert s[..n][n..] == "";
  }

  lemma {:induction false} BackBlank(s: string, r: string)
    requires r == TrimBack(s)
    ensures |r| <= |s| && Blank(s[|r|..])
    decreases |s|
  {
    var n := Behind(s);
    if n > 0 {
      BackBlank(s[..|s| - n], r);
      BehindBlank(s, n);
      BlankBack(s, |r|, |s| - n);
    }
  }

  lemma BlankBack(s: string, k: nat, n: nat)
    requires k <= n <= |s| && Blank(s[..n][k..]) && Blank(s[n..])
    ensures Blank(s[k..])
  {
    SuffixSplit(s, k, n);
    BlankConcat(s[..n][k..], s[n..]);
  }

  lemma BehindBlank(s: string, n: nat)
    requires 0 < n == Behind(s)
    ensures Blank(s[|s| - n..])
  {
    assert s[|s| - n..][n..] == "";
  }

  lemma SuffixStands(s: string, l: string, t: string)
    requires IsSuffix(l, s) && t <= l && Clean(t)
    requires Blank(s[..|s| - |l|]) && Blank(l[|t|..]) && (t == "" ==> Blank(s))
    ensures Stands(s, |s| - |l|, t)
  {
    assert forall i :: 0 <= i < |l| ==> s[|s| - |l|..][i] == l[i];
    assert l[|t|..] == s[|s| - |l| + |t|..];
  }

  lemma TrimStands(s: string)
    ensures Stands(s, Lead(s), TrimBytes(s))
  {
    FrontParts(s);
    BackParts(TrimFront(s));
    FrontBlank(s);
    BackBlank(TrimFront(s), TrimBytes(s));
    TrimIsClean(s);
    TrimBlank(s);
    SuffixStands(s, TrimFront(s), TrimBytes(s));
  }

  // ---- the laws of trimming ----

  lemma EndNotBlank(a: string, b: string)
    requires TrimBytes(a + b) == a + b && b != ""
    ensures !Blank(b)
  {
    TrimIsClean(a + b);
    if Blank(b) {
      BlankBehind(b);
      BehindConcat(a, b);
    }
  }

  lemma BlankBreak()
    ensures Blank("") && Blank(BREAK)
  {
    assert BREAK[1..] == "";
  }

  lemma BytesShrink(s: string)
    ensures ByteLen(TrimBytes(s)) <= ByteLen(s)
  {
    FrontParts(s);
    BackParts(TrimFront(s));
    SuffixShorter(s, TrimFront(s));
    PrefixShorter(TrimFront(s), TrimBytes(s));
  }

  lemma BytesTrim()
    ensures Trims(TrimBytes)
  {
    BlankBreak();
    forall pad: string, s: string | TrimBytes(pad) == "" ensures TrimBytes(pad + s) == TrimBytes(s) {
      TrimBlank(pad);
      BlankPad(pad, s);
    }
    forall a: string, b: string | TrimBytes(a + BREAK + b) == "" ensures TrimBytes(a) == "" && TrimBytes(b) == "" {
      TrimBlank(a + BREAK + b);
      BlankParts(a, b);
      TrimBlank(a);
      TrimBlank(b);
    }
    forall s ensures ByteLen(TrimBytes(s)) <= ByteLen(s) {
      BytesShrink(s);
    }
  }

  lemma BytesSettle()
    ensures Settles(TrimBytes)
  {
    forall s ensures |TrimBytes(s)| <= |s| {
    }
    forall s ensures TrimBytes(TrimBytes(s)) == TrimBytes(s) {
      TrimIsClean(s);
      CleanIsFixed(TrimBytes(s));
    }
    forall a: string, b: string | TrimBytes(a + b) == a + b && b != "" ensures TrimBytes(b) != "" {
      EndNotBlank(a, b);
      TrimBlank(b);
    }
  }

  // ---- the same on characters ----

  /** The byte of a value below 256. */
  function Byte(n: nat): (b: char)
    requires n < 0x100
    ensures b as int == n
  {
    n as char
  }

  /** The UTF-8 encoding of a character. */
  function Bytes(c: char): (r: string)
    ensures |r| == Utf8Width(c)
  {
    var n := c as nat;
    if n < 0x80 then [Byte(n)]
    else if n < 0x800 then [Byte(0xC0 + n / 64), Byte(0x80 + n % 64)]
    else if n < 0x10000 then [Byte(0xE0 + n / 4096), Byte(0x80 + n / 64 % 64), Byte(0x80 + n % 64)]
    else [Byte(0xF0 + n / 0x40000), Byte(0x80 + n / 4096 % 64), Byte(0x80 + n / 64 % 64), Byte(0x80 + n % 64)]
  }

  function Encode(s: string): (r: string)
    ensures |r| == ByteLen(s)
  {
    if s == "" then "" else Bytes(s[0]) + Encode(s[1..])
  }

  lemma {:induction false} EncodeSnoc(s: string, c: char)
    ensures Encode(s + [c]) == Encode(s) + Bytes(c)
  {
    if s == "" {
      assert Encode([c]) == Bytes(c) + Encode("");
    } else {
      assert (s + [c])[1..] == s[1..] + [c];
      EncodeSnoc(s[1..], c);
      ConcatAssoc(Bytes(s[0]), Encode(s[1..]), Bytes(c));
    }
  }

  /** The value of a byte behind the first. */
  function Low(b: char): int {
    b as int - 0x80
  }

  /** The bytes determine the character. */
  lemma BytesValue(c: char)
    ensures var b := Bytes(c);
      c as int == match |b|
        case 1 => b[0] as int
        case 2 => (b[0] as int - 0xC0) * 64 + Low(b[1])
        case 3 => ((b[0] as int - 0xE0) * 64 + Low(b[1])) * 64 + Low(b[2])
        case _ => (((b[0] as int - 0xF0) * 64 + Low(b[1])) * 64 + Low(b[2])) * 64 + Low(b[3])
  {
    Base64(c as nat);
  }

  lemma Base64(n: nat)
    ensures n == n / 64 * 64 + n % 64
    ensures n / 64 == n / 4096 * 64 + n / 64 % 64
    ensures n / 4096 == n / 0x40000 * 64 + n / 4096 % 64
  {
  }

  lemma SpaceByte(c: char)
    requires c as int < 0x80
    ensures IsSpace(c) <==> IsAsciiSpace(Bytes(c)[0])
  {
  }

  lemma SpaceTwo(c: char)
    requires 0x80 <= c as int < 0x800
    ensures IsSpace(c) <==> IsSpace2(Bytes(c)[0], Bytes(c)[1])
  {
    Base64(c as nat);
  }

  lemma SpaceThree(c: char)
    requires 0x800 <= c as int < 0x10000
    ensures IsSpace(c) <==> IsSpace3(Bytes(c)[0], Bytes(c)[1], Bytes(c)[2])
  {
    Base64(c as nat);
  }

  lemma SpaceBytes(c: char)
    ensures |Bytes(c)| == 1 ==> (IsSpace(c) <==> IsAsciiSpace(Bytes(c)[0]))
    ensures |Bytes(c)| == 2 ==> (IsSpace(c) <==> IsSpace2(Bytes(c)[0], Bytes(c)[1]))
    ensures |Bytes(c)| == 3 ==> (IsSpace(c) <==> IsSpace3(Bytes(c)[0], Bytes(c)[1], Bytes(c)[2]))
    ensures |Bytes(c)| == 4 ==> !IsSpace(c)
  {
    if c as int < 0x80 {
      SpaceByte(c);
    } else if c as int < 0x800 {
      SpaceTwo(c);
    } else if c as int < 0x10000 {
      SpaceThree(c);
    }
  }

  /** The first byte tells the length, the others continue. */
  lemma BytesShape(c: char)
    ensures var b := Bytes(c);
      && (|b| == 1 <==> b[0] < '\U{80}')
      && (|b| == 2 ==> '\U{C2}' <= b[0] <= '\U{DF}') && (|b| == 3 ==> '\U{E0}' <= b[0] <= '\U{EF}') && (|b| == 4 ==> '\U{F0}' <= b[0])
      && forall i :: 0 < i < |b| ==> Continues(b[i])
  {
  }

  lemma CharAhead(c: char, rest: string)
    ensures Ahead(Bytes(c) + rest) == if IsSpace(c) then |Bytes(c)| else 0
  {
    SpaceBytes(c);
    BytesShape(c);
  }

  lemma CharBehind(before: string, c: char)
    ensures Behind(before + Bytes(c)) == if IsSpace(c) then |Bytes(c)| else 0
  {
    SpaceBytes(c);
    BytesShape(c);
  }

  lemma {:induction false} FrontEncoded(s: string)
    ensures TrimFront(Encode(s)) == Encode(TrimLeft(s, IsSpace))
  {
    if s != "" {
      CharAhead(s[0], Encode(s[1..]));
      if IsSpace(s[0]) {
        FrontEncoded(s[1..]);
        assert Encode(s)[|Bytes(s[0])|..] == Encode(s[1..]);
      }
    }
  }

  lemma {:induction false} BackEncoded(s: string)
    ensures TrimBack(Encode(s)) == Encode(TrimRight(s, IsSpace))
  {
    if s != "" {
      var init, last := s[..|s| - 1], s[|s| - 1];
      EncodeSnoc(init, last);
      assert init + [last] == s;
      CharBehind(Encode(init), last);
      if IsSpace(last) {
        BackEncoded(init);
        assert Encode(s)[..|Encode(s)| - |Bytes(last)|] == Encode(init);
      }
    }
  }

  /** On the encoding of a text it is the encoding of the text trimmed. */
  lemma TrimEncoded(s: string)
    ensures TrimBytes(Encode(s)) == Encode(TrimSpace(s))
  {
    FrontEncoded(s);
    BackEncoded(TrimLeft(s, IsSpace));
  }
}
