/** The frontmatter of a SKILL.md file: building it from a name, a description and a body,
    and parsing it back. */
module Frontmatter {
  import opened Quoting
  import opened Sequences
  import opened Strings
  import opened Wrappers

  const FENCE: string := "---"

  // ---- small text operations ----

  /** strings.IndexByte */
  function IndexOf(s: string, c: char): (r: Option<nat>)
    ensures r.Some? ==> r.value < |s|
  {
    if s == "" then None
    else if s[0] == c then Some(0)
    else
      var r := IndexOf(s[1..], c);
      if r.Some? then Some(r.value + 1) else None
  }

  lemma {:induction false} IndexOfFirst(s: string, c: char)
    ensures match IndexOf(s, c)
      case None => c !in s
      case Some(k) => s[k] == c && c !in s[..k]
  {
    if s != "" && s[0] != c {
      IndexOfFirst(s[1..], c);
      var r := IndexOf(s[1..], c);
      if r.Some? { assert s[..r.value + 1] == [s[0]] + s[1..][..r.value]; }
    }
  }

  lemma {:induction false} IndexOfAfter(a: string, c: char, b: string)
    requires c !in a
    ensures IndexOf(a + [c] + b, c) == Some(|a|)
  {
    if a != "" {
      assert (a + [c] + b)[1..] == a[1..] + [c] + b;
      IndexOfAfter(a[1..], c, b);
    }
  }

  /** strings.ReplaceAll */
  function ReplaceAll(s: string, what: string, with: string): string
    requires what != ""
    decreases |s|
  {
    if |s| < |what| then s
    else if what <= s then with + ReplaceAll(s[|what|..], what, with)
    else [s[0]] + ReplaceAll(s[1..], what, with)
  }

  lemma PrefixHas(s: string, what: string, c: char)
    requires what <= s && c in what
    ensures c in s
  {
    var i :| 0 <= i < |what| && what[i] == c;
    assert s[i] == c;
  }

  lemma {:induction false} NothingReplaced(s: string, what: string, with: string, c: char)
    requires c in what && c !in s
    ensures ReplaceAll(s, what, with) == s
    decreases |s|
  {
    if |s| >= |what| {
      if what <= s { PrefixHas(s, what, c); }
      NothingReplaced(s[1..], what, with, c);
      assert s == [s[0]] + s[1..];
    }
  }

  lemma {:induction false} AllReplaced(s: string, c: char, with: string)
    requires c !in with
    ensures c !in ReplaceAll(s, [c], with)
    decreases |s|
  {
    if s != "" {
      AllReplaced(s[1..], c, with);
    }
  }

  predicate IsReturn(c: char) {
    c == '\r'
  }

  predicate IsBreak(c: char) {
    c == '\n'
  }

  predicate IsSingleQuote(c: char) {
    c == '\''
  }

  predicate IsDoubleQuote(c: char) {
    c == '"'
  }

  // ---- building ----

  function OneLine(s: string): string {
    TrimSpace(ReplaceAll(ReplaceAll(s, "\r\n", " "), "\n", " "))
  }

  predicate HasPair(s: string, a: char, b: char) {
    exists i :: 0 <= i < |s| - 1 && s[i] == a && s[i + 1] == b
  }

  /** A single-line text that a YAML reader would not take as the same plain text. */
  predicate NeedsQuote(s: string) {
    || s == "" || s != TrimSpace(s)
    || (exists i :: 0 <= i < |s| && s[i] in "\n\"'#")
    || HasPair(s, ':', ' ') || s[|s| - 1] == ':'
    || s[0] in "-?:&*!|>%@`[]{},\"'"
  }

  function Scalar(desc: string, isPrint: char -> bool): string {
    if NeedsQuote(desc) then GoQuote(desc, isPrint) else desc
  }

  /** How a description is put on one line and written as a scalar. */
  datatype Writer = Writer(oneLine: string -> string, scalar: string -> string)

  function WriterOf(isPrint: char -> bool): Writer {
    Writer(OneLine, d => Scalar(d, isPrint))
  }

  function Build(w: Writer, name: string, description: string, body: string): string {
    Document("name" + COLON + name, "description" + COLON + w.scalar(w.oneLine(description)), TrimLeft(body, IsBreak))
  }

  const COLON: string := [':'] + [' ']

  /** Two lines between fences, an empty line, and the body. */
  function Document(first: string, second: string, body: string): string {
    FENCE + ['\n'] + (first + ['\n'] + (second + ['\n'] + (FENCE + ['\n'] + (['\n'] + body))))
  }

  // ---- parsing ----

  /** Offset of the first line that starts with the fence; start tells whether s starts a
      line. */
  function ClosingFence(s: string, start: bool): (r: Option<nat>)
    ensures r.Some? ==> r.value <= |s|
  {
    if start && FENCE <= s then Some(0)
    else if s == "" then None
    else Shifted(ClosingFence(s[1..], s[0] == '\n'), 1)
  }

  function Shifted(r: Option<nat>, offset: nat): Option<nat> {
    if r.Some? then Some(offset + r.value) else None
  }

  predicate FenceAt(s: string, start: bool, k: nat) {
    k <= |s| && (if k == 0 then start else s[k - 1] == '\n') && FENCE <= s[k..]
  }

  /** It is the first line start with a fence; none is found only if there is none. */
  lemma {:induction false} ClosingFenceFirst(s: string, start: bool)
    ensures match ClosingFence(s, start)
      case None => forall k: nat :: !FenceAt(s, start, k)
      case Some(r) => FenceAt(s, start, r) && forall k: nat :: k < r ==> !FenceAt(s, start, k)
  {
    assert s[0..] == s;
    if s != "" && !(start && FENCE <= s) {
      ClosingFenceFirst(s[1..], s[0] == '\n');
      forall k: nat | k > 0 ensures FenceAt(s, start, k) <==> FenceAt(s[1..], s[0] == '\n', k - 1) {
        FenceAtRest(s, start, k);
      }
    }
  }

  lemma FenceAtRest(s: string, start: bool, k: nat)
    requires s != "" && k > 0
    ensures FenceAt(s, start, k) <==> FenceAt(s[1..], s[0] == '\n', k - 1)
  {
    if k <= |s| { assert s[1..][k - 1..] == s[k..]; }
  }

  /** A line without a fence is skipped. */
  lemma {:induction false} SkipLine(line: string, nl: nat, start: bool)
    requires nl < |line| && line[nl] == '\n' && '\n' !in line[..nl] && !(start && FENCE <= line)
    ensures ClosingFence(line, start) == Shifted(ClosingFence(line[nl + 1..], true), nl + 1)
  {
    if nl > 0 {
      var rest := line[1..];
      assert line[0] == line[..nl][0] && rest[..nl - 1] == line[..nl][1..];
      SkipLine(rest, nl - 1, false);
      assert rest[nl..] == line[nl + 1..];
    }
  }

  lemma {:induction false} NoFence(line: string, start: bool)
    requires '\n' !in line && !(start && FENCE <= line)
    ensures ClosingFence(line, start) == None
  {
    if line != "" { NoFence(line[1..], false); }
  }

  /** Looks at the first line of a text: whether it starts with the fence, and where the next
      one starts. */
  method LookAtLine(line: string) returns (found: bool, next: Option<nat>)
    ensures found <==> FENCE <= line
    ensures next.Some? ==> 0 < next.value <= |line|
    ensures !found ==> ClosingFence(line, true) == if next.None? then None else Shifted(ClosingFence(line[next.value..], true), next.value)
  {
    var nl := IndexOf(line, '\n');
    var cur := if nl.None? then line else line[..nl.value];
    IndexOfFirst(line, '\n');
    CurHasFence(line, cur);
    found := FENCE <= TrimRight(cur, IsReturn);
    next := if nl.None? then None else Some(nl.value + 1);
    if !found {
      if nl.None? {
        NoFence(line, true);
      } else {
        SkipLine(line, nl.value, true);
      }
    }
  }

  lemma ShiftedTwice(r: Option<nat>, a: nat, b: nat)
    ensures Shifted(Shifted(r, b), a) == Shifted(r, a + b)
  {
  }

  method IndexClosingFence(s: string) returns (r: int)
    ensures r == (match ClosingFence(s, true) case None => -1 case Some(k) => k)
  {
    var offset := 0;
    assert s[0..] == s;
    while true
      invariant offset <= |s| && ClosingFence(s, true) == Shifted(ClosingFence(s[offset..], true), offset)
      decreases |s| - offset
    {
      var line := s[offset..];
      var found, next := LookAtLine(line);
      if found {
        return offset;
      }
      if next.None? {
        return -1;
      }
      ShiftedTwice(ClosingFence(line[next.value..], true), offset, next.value);
      assert line[next.value..] == s[offset + next.value..];
      offset := offset + next.value;
      if offset >= |s| {
        NoFence("", true);
        return -1;
      }
    }
  }

  lemma PrefixBefore(line: string, k: nat, p: string)
    requires k < |line| && line[k] !in p && p <= line
    ensures p <= line[..k]
  {
  }

  lemma CurHasFence(line: string, cur: string)
    requires cur == (match IndexOf(line, '\n') case None => line case Some(k) => line[..k])
    ensures FENCE <= TrimRight(cur, IsReturn) <==> FENCE <= line
  {
    var t := TrimRight(cur, IsReturn);
    IndexOfFirst(line, '\n');
    if FENCE <= line {
      if |cur| < |line| { PrefixBefore(line, |cur|, FENCE); }
      TrimRightDrops(cur, IsReturn);
      if |t| < |cur| {
        assert IsReturn(cur[|t|..][0]);
        PrefixBefore(cur, |t|, FENCE);
      }
      assert cur[..|t|] == t;
    } else {
      PrefixTransitive(t, cur, line);
    }
  }

  function UnquoteYaml(v: string): string {
    if |v| >= 2 && v[0] == '"' && v[|v| - 1] == '"' then
      (if Unquote(v).Some? then Unquote(v).value else Trim(v, IsDoubleQuote))
    else if |v| >= 2 && v[0] == '\'' && v[|v| - 1] == '\'' then ReplaceAll(Trim(v, IsSingleQuote), "''", "'")
    else v
  }

  /** The text operations that reading a line uses. */
  datatype Reader = Reader(trim: string -> string, clean: string -> string, unquote: string -> string)

  function CleanLine(raw: string): string {
    TrimRight(raw, IsReturn)
  }

  const READER: Reader := Reader(TrimSpace, CleanLine, UnquoteYaml)

  /** What one line adds to the fields: only lines without indentation count. */
  function TakeField(rd: Reader, fields: map<string, string>, raw: string): map<string, string> {
    var line := rd.clean(raw);
    if rd.trim(line) == line then AddField(rd, fields, line) else fields
  }

  function AddField(rd: Reader, fields: map<string, string>, line: string): map<string, string> {
    if line == "" || line[0] == '#' then fields
    else
      var colon := IndexOf(line, ':');
      if colon.None? then fields
      else fields[rd.trim(line[..colon.value]) := rd.unquote(rd.trim(line[colon.value + 1..]))]
  }

  function Fields(rd: Reader, lines: seq<string>): map<string, string> {
    if lines == [] then map[] else TakeField(rd, Fields(rd, Init(lines)), Last(lines))
  }

  method ParseSimpleYaml(rd: Reader, fm: string) returns (fields: map<string, string>)
    ensures fields == Fields(rd, SplitOn(fm, '\n'))
  {
    fields := map[];
    var lines := SplitOn(fm, '\n');
    for i := 0 to |lines|
      invariant fields == Fields(rd, lines[..i])
    {
      assert Init(lines[..i + 1]) == lines[..i];
      var line := rd.clean(lines[i]);
      var trimmed := rd.trim(line);
      if trimmed == "" || trimmed[0] == '#' {
        continue;
      }
      if line != trimmed {
        continue;
      }
      var colon := IndexOf(trimmed, ':');
      if colon.None? {
        continue;
      }
      var key := rd.trim(trimmed[..colon.value]);
      var val := rd.trim(trimmed[colon.value + 1..]);
      fields := fields[key := rd.unquote(val)];
    }
    assert lines[..|lines|] == lines;
  }

  function Without(s: string, prefix: string): string {
    if prefix <= s then s[|prefix|..] else s
  }

  /** FrontmatterFields: the fields and the body, None without a frontmatter. */
  function Parse(rd: Reader, content: string): Option<(map<string, string>, string)> {
    if !(FENCE <= content) then None
    else
      var rest := TrimLeft(content[3..], IsReturn);
      if rest == "" || rest[0] != '\n' then None
      else match ClosingFence(rest[1..], true)
        case None => None
        case Some(end) => Some((Fields(rd, SplitOn(rest[1..][..end], '\n')), BodyAfter(rest[1..][end..])))
  }

  /** The body behind the closing fence. */
  function BodyAfter(tail: string): string {
    Without(TrimLeft(Without(tail, FENCE), IsReturn), "\n")
  }

  method FrontmatterFields(rd: Reader, content: string) returns (r: Option<(map<string, string>, string)>)
    ensures r == Parse(rd, content)
  {
    if !(FENCE <= content) {
      return None;
    }
    var rest := TrimLeft(content[3..], IsReturn);
    if rest == "" || rest[0] != '\n' {
      return None;
    }
    rest := rest[1..];
    var end := IndexClosingFence(rest);
    if end < 0 {
      return None;
    }
    var body := Without(rest[end..], FENCE);
    body := TrimLeft(body, IsReturn);
    body := Without(body, "\n");
    var fields := ParseSimpleYaml(rd, rest[..end]);
    return Some((fields, body));
  }

  // ---- what building puts on one line ----

  lemma TrimKeepsOut(s: string, p: char -> bool, c: char)
    requires c !in s
    ensures c !in Trim(s, p)
  {
    var l := TrimLeft(s, p);
    assert s == s[..|s| - |l|] + l;
    assert l == Trim(s, p) + l[|Trim(s, p)|..];
  }

  lemma TrimTrimmed(s: string)
    ensures Trimmed(TrimSpace(s), IsSpace) && TrimSpace(TrimSpace(s)) == TrimSpace(s)
  {
    TrimIsTrimmed(s, IsSpace);
    TrimmedIsFixed(TrimSpace(s), IsSpace);
  }

  lemma OneLineIsLine(s: string)
    ensures '\n' !in OneLine(s) && TrimSpace(OneLine(s)) == OneLine(s)
  {
    var flat := ReplaceAll(ReplaceAll(s, "\r\n", " "), "\n", " ");
    AllReplaced(ReplaceAll(s, "\r\n", " "), '\n', " ");
    TrimKeepsOut(flat, IsSpace, '\n');
    TrimTrimmed(flat);
  }

  lemma OneLineFixed(d: string)
    requires '\n' !in d && TrimSpace(d) == d
    ensures OneLine(d) == d
  {
    NothingReplaced(d, "\r\n", " ", '\n');
    NothingReplaced(d, "\n", " ", '\n');
  }

  lemma {:induction false} HexOneLine(n: nat, width: nat)
    ensures '\n' !in Hex(n, width)
  {
    if width > 0 { HexOneLine(n / 16, width - 1); }
  }

  lemma EscapeOneLine(c: char, isPrint: char -> bool)
    requires NoBreakPrinted(isPrint)
    ensures '\n' !in GoEscape(c, isPrint)
  {
    HexOneLine(c as nat, 2);
    HexOneLine(c as nat, 4);
    HexOneLine(c as nat, 8);
  }

  lemma {:induction false} BodyOneLine(s: string, isPrint: char -> bool)
    requires NoBreakPrinted(isPrint)
    ensures '\n' !in GoBody(s, isPrint)
  {
    if s != "" {
      EscapeOneLine(s[0], isPrint);
      BodyOneLine(s[1..], isPrint);
    }
  }

  /** A text that can stand behind a key: one line, trimmed, not empty. */
  ghost predicate Value(v: string) {
    v != "" && '\n' !in v && !IsSpace(v[0]) && !IsSpace(v[|v| - 1])
  }

  lemma QuotedReads(d: string, isPrint: char -> bool)
    requires NoBreakPrinted(isPrint)
    ensures Value(GoQuote(d, isPrint)) && UnquoteYaml(GoQuote(d, isPrint)) == d
  {
    BodyOneLine(d, isPrint);
    UnquoteQuote(d, isPrint);
  }

  lemma PlainReads(d: string)
    requires !NeedsQuote(d)
    ensures d != "" && UnquoteYaml(d) == d
  {
    assert d[0] != '"' && d[0] != '\'';
  }

  /** The scalar written for a single-line text is read back as that text, quoted or plain. */
  lemma ScalarReads(d: string, isPrint: char -> bool)
    requires NoBreakPrinted(isPrint) && '\n' !in d && TrimSpace(d) == d
    ensures Value(Scalar(d, isPrint)) && UnquoteYaml(Scalar(d, isPrint)) == d
  {
    if NeedsQuote(d) {
      QuotedReads(d, isPrint);
    } else {
      PlainReads(d);
      TrimIsTrimmed(d, IsSpace);
    }
  }

  // ---- what parsing finds ----

  /** What the proofs use of a reader. */
  ghost predicate Reads(rd: Reader) {
    && rd.clean("") == "" && rd.trim("") == ""
    && (forall v :: Value(v) ==> rd.clean(v) == v && rd.trim(v) == v)
    && (forall v {:trigger rd.trim([' '] + v)} :: Value(v) ==> rd.trim([' '] + v) == v)
  }

  lemma ReaderReads()
    ensures Reads(READER)
  {
    forall v | Value(v) ensures CleanLine(v) == v && TrimSpace(v) == v {
      TrimmedIsFixed(v, IsSpace);
    }
    forall v | Value(v) ensures TrimSpace([' '] + v) == v {
      TrimBehindColon(v);
    }
  }

  lemma TrimBehindColon(v: string)
    requires Value(v)
    ensures TrimSpace([' '] + v) == v
  {
    TrimPadded([' '], v, "", IsSpace);
    assert [' '] + v + "" == [' '] + v;
    TrimmedIsFixed(v, IsSpace);
  }

  lemma LineIsValue(key: string, v: string)
    requires Value(key) && Value(v)
    ensures Value(key + COLON + v) && key + COLON + v == key + [':'] + ([' '] + v)
  {
    var raw := key + COLON + v;
    assert raw[0] == key[0] && raw[|raw| - 1] == v[|v| - 1];
  }

  ghost predicate Key(key: string) {
    Value(key) && ':' !in key && key[0] != '#' && key[0] != '-'
  }

  lemma FieldLine(rd: Reader, fields: map<string, string>, key: string, v: string)
    requires Reads(rd) && Key(key) && Value(v)
    ensures TakeField(rd, fields, key + COLON + v) == fields[key := rd.unquote(v)]
  {
    var raw, behind := key + COLON + v, [' '] + v;
    LineIsValue(key, v);
    IndexOfAfter(key, ':', behind);
    assert raw[..|key|] == key && raw[|key| + 1..] == behind && raw[0] == key[0];
  }

  lemma TwoLines(rd: Reader, a: string, b: string)
    requires Reads(rd) && '\n' !in a && '\n' !in b
    ensures Fields(rd, SplitOn(a + ['\n'] + (b + ['\n']), '\n')) == TakeField(rd, TakeField(rd, map[], a), b)
  {
    SplitLine(a, b + ['\n'], '\n');
    SplitLine(b, "", '\n');
    assert a + ['\n'] + (b + ['\n']) == a + ['\n'] + (b + ['\n'] + "") && b + ['\n'] + "" == b + ['\n'];
    assert SplitOn("", '\n') == [""];
    FieldsThree(rd, a, b, "");
    TakeBlank(rd, TakeField(rd, TakeField(rd, map[], a), b));
  }

  lemma FieldsSnoc(rd: Reader, lines: seq<string>, line: string)
    ensures Fields(rd, lines + [line]) == TakeField(rd, Fields(rd, lines), line)
  {
    assert Init(lines + [line]) == lines && Last(lines + [line]) == line;
  }

  lemma FieldsThree(rd: Reader, a: string, b: string, c: string)
    ensures Fields(rd, [a] + ([b] + [c])) == TakeField(rd, TakeField(rd, TakeField(rd, map[], a), b), c)
  {
    FieldsSnoc(rd, [], a);
    FieldsSnoc(rd, [a], b);
    FieldsSnoc(rd, [a] + [b], c);
    assert [] + [a] == [a] && [a] + [b] + [c] == [a] + ([b] + [c]);
  }

  lemma TakeBlank(rd: Reader, fields: map<string, string>)
    requires Reads(rd)
    ensures TakeField(rd, fields, "") == fields
  {
  }

  lemma FenceAfterLine(a: string, rest: string)
    requires '\n' !in a && a != "" && a[0] != '-'
    ensures ClosingFence(a + ['\n'] + rest, true) == Shifted(ClosingFence(rest, true), |a| + 1)
  {
    var line := a + ['\n'] + rest;
    assert line[..|a|] == a && line[|a| + 1..] == rest;
    NotFence(line);
    SkipLine(line, |a|, true);
  }

  lemma NotFence(line: string)
    requires line != "" && line[0] != '-'
    ensures !(FENCE <= line)
  {
    assert FENCE[0] == '-';
  }

  lemma FenceHere(tail: string)
    requires FENCE <= tail
    ensures ClosingFence(tail, true) == Some(0)
  {
  }

  lemma FenceAfterTwo(a: string, b: string, tail: string)
    requires '\n' !in a && '\n' !in b && a != "" && a[0] != '-' && b != "" && b[0] != '-' && FENCE <= tail
    ensures ClosingFence(a + ['\n'] + (b + ['\n'] + tail), true) == Some(|a| + |b| + 2)
  {
    FenceAfterLine(a, b + ['\n'] + tail);
    FenceAfterLine(b, tail);
    FenceHere(tail);
  }

  lemma Opens(behind: string)
    ensures var content := FENCE + ['\n'] + behind;
            && FENCE <= content && TrimLeft(content[3..], IsReturn) == ['\n'] + behind
            && (['\n'] + behind)[1..] == behind
  {
    var content := FENCE + ['\n'] + behind;
    assert content[3..] == ['\n'] + behind;
  }

  lemma ParseParts(rd: Reader, inner: string, tail: string)
    requires ClosingFence(inner + tail, true) == Some(|inner|)
    ensures Parse(rd, FENCE + ['\n'] + (inner + tail)) == Some((Fields(rd, SplitOn(inner, '\n')), BodyAfter(tail)))
  {
    Opens(inner + tail);
    assert (inner + tail)[..|inner|] == inner && (inner + tail)[|inner|..] == tail;
  }

  lemma BodyIs(body: string)
    ensures BodyAfter(FENCE + ['\n'] + (['\n'] + body)) == ['\n'] + body
  {
    var tail := FENCE + ['\n'] + (['\n'] + body);
    var behind := tail[3..];
    assert behind == ['\n'] + (['\n'] + body) && behind[1..] == ['\n'] + body;
    assert TrimLeft(behind, IsReturn) == behind;
  }

  lemma ParseDocument(rd: Reader, a: string, b: string, body: string)
    requires Reads(rd) && '\n' !in a && '\n' !in b && a != "" && a[0] != '-' && b != "" && b[0] != '-'
    ensures Parse(rd, Document(a, b, body)) == Some((TakeField(rd, TakeField(rd, map[], a), b), ['\n'] + body))
  {
    var tail := FENCE + ['\n'] + (['\n'] + body);
    var inner := a + ['\n'] + (b + ['\n']);
    assert FENCE <= tail;
    FenceAfterTwo(a, b, tail);
    assert a + ['\n'] + (b + ['\n'] + tail) == inner + tail;
    ParseParts(rd, inner, tail);
    BodyIs(body);
    TwoLines(rd, a, b);
  }

  // ---- the round trip ----

  predicate ValidName(name: string) {
    && name != "" && name[0] != '-' && name[|name| - 1] != '-'
    && (forall i :: 0 <= i < |name| ==> 'a' <= name[i] <= 'z' || '0' <= name[i] <= '9' || name[i] == '-')
  }

  lemma NameReads(name: string)
    requires ValidName(name)
    ensures Value(name) && UnquoteYaml(name) == name
  {
  }

  /** What the proofs use of a writer: a reader reads back what it writes, and a description
      is put on one line once and for all. */
  ghost predicate Writes(w: Writer, rd: Reader) {
    && (forall s {:trigger w.oneLine(s)} :: var d := w.oneLine(s);
          Value(w.scalar(d)) && rd.unquote(w.scalar(d)) == d && w.oneLine(d) == d)
    && (forall n :: ValidName(n) ==> Value(n) && rd.unquote(n) == n)
  }

  /** The program's writer and reader belong together. */
  lemma WriterWrites(isPrint: char -> bool)
    requires NoBreakPrinted(isPrint)
    ensures Writes(WriterOf(isPrint), READER) && Reads(READER)
  {
    ReaderReads();
    forall s ensures Value(Scalar(OneLine(s), isPrint)) && UnquoteYaml(Scalar(OneLine(s), isPrint)) == OneLine(s) {
      OneLineIsLine(s);
      ScalarReads(OneLine(s), isPrint);
    }
    forall s ensures OneLine(OneLine(s)) == OneLine(s) {
      OneLineIsLine(s);
      OneLineFixed(OneLine(s));
    }
    forall n | ValidName(n) ensures Value(n) && UnquoteYaml(n) == n {
      NameReads(n);
    }
  }

  /** Parsing what was built gives the name, the description on one line, and the body without
      its leading line breaks behind a single one. */
  lemma RoundTrip(w: Writer, rd: Reader, name: string, description: string, body: string)
    requires Writes(w, rd) && Reads(rd) && ValidName(name)
    ensures Parse(rd, Build(w, name, description, body))
         == Some((map["name" := name, "description" := w.oneLine(description)], ['\n'] + TrimLeft(body, IsBreak)))
  {
    Keys();
    LinesParse(rd, "name", name, "description", w.scalar(w.oneLine(description)), TrimLeft(body, IsBreak));
  }

  lemma LinesParse(rd: Reader, key: string, value: string, other: string, v: string, body: string)
    requires Reads(rd) && Key(key) && Value(value) && Key(other) && Value(v)
    ensures Parse(rd, Document(key + COLON + value, other + COLON + v, body))
         == Some((map[key := rd.unquote(value)][other := rd.unquote(v)], ['\n'] + body))
  {
    var first, second := key + COLON + value, other + COLON + v;
    LineIsValue(key, value);
    LineIsValue(other, v);
    assert first[0] == key[0] && second[0] == other[0];
    ParseDocument(rd, first, second, body);
    FieldLine(rd, map[], key, value);
    FieldLine(rd, map[key := rd.unquote(value)], other, v);
  }

  lemma Keys()
    ensures Key("name") && Key("description")
  {
  }

  /** Building again from what parsing gave leaves the file as it is. */
  lemma RebuildIdentical(w: Writer, rd: Reader, name: string, description: string, body: string)
    requires Writes(w, rd) && Reads(rd) && ValidName(name)
    ensures match Parse(rd, Build(w, name, description, body))
      case None => false
      case Some((fields, rest)) =>
        && "name" in fields && "description" in fields
        && Build(w, fields["name"], fields["description"], rest) == Build(w, name, description, body)
  {
    RoundTrip(w, rd, name, description, body);
    LeadingBreak(body);
    assert w.oneLine(w.oneLine(description)) == w.oneLine(description);
  }

  lemma LeadingBreak(body: string)
    ensures TrimLeft(['\n'] + TrimLeft(body, IsBreak), IsBreak) == TrimLeft(body, IsBreak)
  {
    assert (['\n'] + TrimLeft(body, IsBreak))[1..] == TrimLeft(body, IsBreak);
  }
}
