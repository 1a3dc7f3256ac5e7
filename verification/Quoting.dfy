/** The two ways the program writes a string between double quotes, and one reader that
    undoes both: strconv.Quote (Go verb %q) and the string form of encoding/json. */
module Quoting {
  import opened Wrappers

  const HEX: string := "0123456789abcdef"

  function Pow16(width: nat): (p: nat)
    ensures p >= 1
  {
    if width == 0 then 1 else 16 * Pow16(width - 1)
  }

  /** The low `width` hexadecimal digits of n. */
  function Hex(n: nat, width: nat): (s: string)
    ensures |s| == width
  {
    if width == 0 then "" else Hex(n / 16, width - 1) + [HEX[n % 16]]
  }

  function HexValue(c: char): Option<nat> {
    if '0' <= c <= '9' then Some(c as nat - '0' as nat)
    else if 'a' <= c <= 'f' then Some(c as nat - 'a' as nat + 10)
    else if 'A' <= c <= 'F' then Some(c as nat - 'A' as nat + 10)
    else None
  }

  /** Digits from ten on are read in either case. */
  lemma HexCase(k: nat)
    requires k < 6
    ensures HexValue("abcdef"[k]) == Some(10 + k) && HexValue("ABCDEF"[k]) == Some(10 + k)
  {
  }

  function UnHex(s: string): Option<nat> {
    if s == "" then Some(0)
    else match (UnHex(s[..|s| - 1]), HexValue(s[|s| - 1]))
      case (Some(hi), Some(lo)) => Some(16 * hi + lo)
      case _ => None
  }

  lemma HexDigitValue(d: nat)
    requires d < 16
    ensures HexValue(HEX[d]) == Some(d)
  {
  }

  lemma UnHexSnoc(s: string, c: char, hi: nat, lo: nat)
    requires UnHex(s) == Some(hi) && HexValue(c) == Some(lo)
    ensures UnHex(s + [c]) == Some(16 * hi + lo)
  {
    assert (s + [c])[..|s|] == s;
  }

  lemma DivMod16(n: nat, p: nat)
    requires n < 16 * p
    ensures n / 16 < p && 16 * (n / 16) + n % 16 == n && n % 16 < 16
  {
  }

  lemma {:induction false} UnHexHex(n: nat, width: nat)
    requires n < Pow16(width)
    ensures UnHex(Hex(n, width)) == Some(n)
  {
    if width > 0 {
      DivMod16(n, Pow16(width - 1));
      UnHexHex(n / 16, width - 1);
      HexDigitValue(n % 16);
      UnHexSnoc(Hex(n / 16, width - 1), HEX[n % 16], n / 16, n % 16);
    }
  }

  /** How strconv.Quote writes one character; isPrint is strconv.IsPrint. */
  function GoEscape(c: char, isPrint: char -> bool): string {
    if c == '"' || c == '\\' then ['\\', c]
    else if isPrint(c) then [c]
    else if c == '\U{07}' then "\\a"
    else if c == '\U{08}' then "\\b"
    else if c == '\U{0C}' then "\\f"
    else if c == '\n' then "\\n"
    else if c == '\r' then "\\r"
    else if c == '\t' then "\\t"
    else if c == '\U{0B}' then "\\v"
    else if c < ' ' || c == '\U{7F}' then "\\x" + Hex(c as nat, 2)
    else if c as nat < 0x10000 then "\\u" + Hex(c as nat, 4)
    else "\\U" + Hex(c as nat, 8)
  }

  /** How encoding/json writes one character of a string (HTML escaping on). */
  function JsonEscape(c: char): string {
    if c == '"' || c == '\\' then ['\\', c]
    else if c == '\U{08}' then "\\b"
    else if c == '\U{0C}' then "\\f"
    else if c == '\n' then "\\n"
    else if c == '\r' then "\\r"
    else if c == '\t' then "\\t"
    else if c < ' ' || c in "<>&\U{2028}\U{2029}" then "\\u" + Hex(c as nat, 4)
    else [c]
  }

  function GoBody(s: string, isPrint: char -> bool): string {
    if s == "" then "" else GoEscape(s[0], isPrint) + GoBody(s[1..], isPrint)
  }

  function JsonBody(s: string): string {
    if s == "" then "" else JsonEscape(s[0]) + JsonBody(s[1..])
  }

  /** strconv.Quote */
  function GoQuote(s: string, isPrint: char -> bool): string {
    "\"" + GoBody(s, isPrint) + "\""
  }

  /** json.Marshal of a string. */
  function JsonQuote(s: string): string {
    "\"" + JsonBody(s) + "\""
  }

  function ScalarOf(code: Option<nat>, rest: string): Option<(char, string)> {
    match code
    case Some(n) => if n < 0xD800 || 0xE000 <= n < 0x11_0000 then Some((n as char, rest)) else None
    case None => None
  }

  /** The escapes of two characters: a backslash and a letter. */
  function ShortEscape(letter: char): Option<char> {
    match letter
    case 'a' => Some('\U{07}')
    case 'b' => Some('\U{08}')
    case 'f' => Some('\U{0C}')
    case 'n' => Some('\n')
    case 'r' => Some('\r')
    case 't' => Some('\t')
    case 'v' => Some('\U{0B}')
    case '\\' => Some('\\')
    case '"' => Some('"')
    case _ => None
  }

  /** Reads one possibly escaped character of a double-quoted text. */
  function ReadChar(t: string): (r: Option<(char, string)>)
    ensures r.Some? ==> |r.value.1| < |t|
  {
    if t == "" || t[0] == '"' || t[0] == '\n' then None
    else if t[0] != '\\' then Some((t[0], t[1..]))
    else if |t| < 2 then None
    else if ShortEscape(t[1]).Some? then Some((ShortEscape(t[1]).value, t[2..]))
    else if t[1] == 'x' && |t| >= 4 then
      var code := UnHex(t[2..4]);
      if code.Some? && code.value < 0x80 then ScalarOf(code, t[4..]) else None
    else if t[1] == 'u' && |t| >= 6 then ScalarOf(UnHex(t[2..6]), t[6..])
    else if t[1] == 'U' && |t| >= 10 then ScalarOf(UnHex(t[2..10]), t[10..])
    else None
  }

  /** Reads characters up to the closing quote; answers the text read and what follows. */
  function ReadBody(t: string): Option<(string, string)>
    decreases |t|
  {
    if t != "" && t[0] == '"' then Some(("", t[1..]))
    else match ReadChar(t)
      case None => None
      case Some((c, rest)) =>
        match ReadBody(rest)
        case None => None
        case Some((s, after)) => Some(([c] + s, after))
  }

  /** strconv.Unquote on a double-quoted text. */
  function Unquote(t: string): Option<string> {
    if |t| < 2 || t[0] != '"' then None
    else match ReadBody(t[1..])
      case Some((s, after)) => if after == "" then Some(s) else None
      case None => None
  }

  /** A printable character is never a line break: true of strconv.IsPrint. */
  ghost predicate NoBreakPrinted(isPrint: char -> bool) {
    !isPrint('\n')
  }

  lemma ReadHex(kind: char, n: nat, width: nat, rest: string)
    requires n < Pow16(width)
    ensures var t := "\\" + [kind] + Hex(n, width) + rest;
      |t| >= 2 + width && t[0] == '\\' && t[1] == kind
      && UnHex(t[2..2 + width]) == Some(n) && t[2 + width..] == rest
  {
    UnHexHex(n, width);
    var t := "\\" + [kind] + Hex(n, width) + rest;
    assert t[2..2 + width] == Hex(n, width);
    assert t[2 + width..] == rest;
  }

  lemma Pow16Values()
    ensures Pow16(2) == 0x100 && Pow16(4) == 0x10000 && Pow16(8) == 0x1_0000_0000
  {
    assert Pow16(0) == 1 && Pow16(1) == 16 && Pow16(3) == 0x1000;
    assert Pow16(5) == 0x10_0000 && Pow16(6) == 0x100_0000 && Pow16(7) == 0x1000_0000;
  }

  lemma ReadHex2(c: char, rest: string)
    requires c as nat < 0x80
    ensures ReadChar("\\x" + Hex(c as nat, 2) + rest) == Some((c, rest))
  {
    Pow16Values();
    ReadHex('x', c as nat, 2, rest);
    assert "\\" + ['x'] == "\\x";
  }

  lemma ReadHex4(c: char, rest: string)
    requires c as nat < 0x10000
    ensures ReadChar("\\u" + Hex(c as nat, 4) + rest) == Some((c, rest))
  {
    Pow16Values();
    ReadHex('u', c as nat, 4, rest);
    assert "\\" + ['u'] == "\\u";
  }

  lemma ReadLong(t: string, c: char, rest: string)
    requires |t| >= 10 && t[0] == '\\' && t[1] == 'U' && UnHex(t[2..10]) == Some(c as nat) && t[10..] == rest
    ensures ReadChar(t) == Some((c, rest))
  {
  }

  lemma ReadHex8(c: char, rest: string)
    ensures ReadChar("\\U" + Hex(c as nat, 8) + rest) == Some((c, rest))
  {
    Pow16Values();
    ReadHex('U', c as nat, 8, rest);
    assert "\\" + ['U'] == "\\U";
    ReadLong("\\U" + Hex(c as nat, 8) + rest, c, rest);
  }

  lemma ReadShort(letter: char, rest: string)
    requires ShortEscape(letter).Some?
    ensures ReadChar("\\" + [letter] + rest) == Some((ShortEscape(letter).value, rest))
  {
    assert ("\\" + [letter] + rest)[2..] == rest;
  }

  lemma ReadPlain(c: char, rest: string)
    requires c != '"' && c != '\\' && c != '\n'
    ensures ReadChar([c] + rest) == Some((c, rest))
  {
    assert ([c] + rest)[1..] == rest;
  }

  /** The letter of a character's two-character escape in Go, if it has one. */
  function GoLetter(c: char): Option<char> {
    if c == '"' || c == '\\' then Some(c)
    else if c == '\U{07}' then Some('a')
    else if c == '\U{08}' then Some('b')
    else if c == '\U{0C}' then Some('f')
    else if c == '\n' then Some('n')
    else if c == '\r' then Some('r')
    else if c == '\t' then Some('t')
    else if c == '\U{0B}' then Some('v')
    else None
  }

  lemma ReadGoEscape(c: char, isPrint: char -> bool, rest: string)
    requires NoBreakPrinted(isPrint)
    ensures ReadChar(GoEscape(c, isPrint) + rest) == Some((c, rest))
  {
    if c != '"' && c != '\\' && isPrint(c) {
      ReadPlain(c, rest);
    } else if GoLetter(c).Some? {
      ReadShort(GoLetter(c).value, rest);
      assert GoEscape(c, isPrint) == "\\" + [GoLetter(c).value];
    } else if c < ' ' || c == '\U{7F}' {
      ReadHex2(c, rest);
    } else if c as nat < 0x10000 {
      ReadHex4(c, rest);
    } else {
      ReadHex8(c, rest);
    }
  }

  lemma ReadJsonEscape(c: char, rest: string)
    ensures ReadChar(JsonEscape(c) + rest) == Some((c, rest))
  {
    if c in "\"\\\n\r\t\U{08}\U{0C}" {
      var letter := if c == '\n' then 'n' else if c == '\r' then 'r' else if c == '\t' then 't'
        else if c == '\U{08}' then 'b' else if c == '\U{0C}' then 'f' else c;
      ReadShort(letter, rest);
      assert JsonEscape(c) == "\\" + [letter];
    } else if c < ' ' || c in "<>&\U{2028}\U{2029}" {
      ReadHex4(c, rest);
    } else {
      ReadPlain(c, rest);
    }
  }

  lemma {:induction false} ReadGoBody(s: string, isPrint: char -> bool, rest: string)
    requires NoBreakPrinted(isPrint)
    ensures ReadBody(GoBody(s, isPrint) + "\"" + rest) == Some((s, rest))
  {
    if s == "" {
      assert ("\"" + rest)[1..] == rest;
    } else {
      var tail := GoBody(s[1..], isPrint) + "\"" + rest;
      assert GoBody(s, isPrint) + "\"" + rest == GoEscape(s[0], isPrint) + tail;
      ReadGoEscape(s[0], isPrint, tail);
      assert GoEscape(s[0], isPrint)[0] != '"';
      assert [s[0]] + s[1..] == s;
      ReadGoBody(s[1..], isPrint, rest);
    }
  }

  lemma {:induction false} ReadJsonBody(s: string, rest: string)
    ensures ReadBody(JsonBody(s) + "\"" + rest) == Some((s, rest))
  {
    if s == "" {
      assert ("\"" + rest)[1..] == rest;
    } else {
      var tail := JsonBody(s[1..]) + "\"" + rest;
      assert JsonBody(s) + "\"" + rest == JsonEscape(s[0]) + tail;
      ReadJsonEscape(s[0], tail);
      assert JsonEscape(s[0])[0] != '"';
      assert [s[0]] + s[1..] == s;
      ReadJsonBody(s[1..], rest);
    }
  }

  /** strconv.Unquote undoes strconv.Quote, whatever characters count as printable. */
  lemma UnquoteQuote(s: string, isPrint: char -> bool)
    requires NoBreakPrinted(isPrint)
    ensures Unquote(GoQuote(s, isPrint)) == Some(s)
  {
    assert GoQuote(s, isPrint)[1..] == GoBody(s, isPrint) + "\"" + "";
    ReadGoBody(s, isPrint, "");
  }
}
