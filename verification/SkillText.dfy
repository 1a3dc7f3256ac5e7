/** What stands in a SKILL.md file that was built, and what a hand-written one is read as. */
module SkillText {
  import opened Frontmatter
  import opened Quoting
  import opened Sequences
  import opened Strings
  import opened Wrappers

  // ---- what is built ----

  /** The lines of the file; of the body only line breaks in front are missing. */
  lemma BuiltText(w: Writer, name: string, description: string, body: string)
    ensures var rest := TrimLeft(body, IsBreak);
      && Build(w, name, description, body)
         == "---\nname: " + name + "\ndescription: " + w.scalar(w.oneLine(description)) + "\n---\n\n" + rest
      && IsSuffix(rest, body) && (rest == "" || rest[0] != '\n')
      && forall i :: 0 <= i < |body| - |rest| ==> body[i] == '\n'
  {
    var rest, d := TrimLeft(body, IsBreak), w.scalar(w.oneLine(description));
    TrimLeftDrops(body, IsBreak);
    assert forall i :: 0 <= i < |body| - |rest| ==> body[i] == body[..|body| - |rest|][i];
    DocumentText(name, d, rest);
  }

  lemma DocumentText(name: string, d: string, rest: string)
    ensures Document("name" + COLON + name, "description" + COLON + d, rest)
         == "---\nname: " + name + "\ndescription: " + d + "\n---\n\n" + rest
  {
    var a, b, c := "---\nname: ", "\ndescription: ", "\n---\n\n";
    assert a == FENCE + ['\n'] + ("name" + COLON);
    assert b == ['\n'] + ("description" + COLON);
    assert c == ['\n'] + (FENCE + ['\n'] + ['\n']);
    Sevenfold(FENCE + ['\n'], "name" + COLON, name, ['\n'], "description" + COLON, d, FENCE, rest);
  }

  lemma Sevenfold(f: string, a: string, name: string, nl: string, b: string, d: string, g: string, rest: string)
    ensures f + ((a + name) + nl + ((b + d) + nl + (g + nl + (nl + rest))))
         == (f + a) + name + (nl + b) + d + (nl + (g + nl + nl)) + rest
  {
  }

  /** A description on one line, character by character: each line break, with the carriage
      return before it if there is one, becomes a space. */
  function OnePass(s: string): string {
    if s == "" then ""
    else if "\r\n" <= s then " " + OnePass(s[2..])
    else if s[0] == '\n' then " " + OnePass(s[1..])
    else [s[0]] + OnePass(s[1..])
  }

  lemma {:induction false} ReplacedTwice(s: string)
    ensures ReplaceAll(ReplaceAll(s, "\r\n", " "), "\n", " ") == OnePass(s)
  {
    if s == "" {
    } else if "\r\n" <= s {
      ReplacedTwice(s[2..]);
      KeepsOther(' ', ReplaceAll(s[2..], "\r\n", " "));
      assert " " + ReplaceAll(s[2..], "\r\n", " ") == [' '] + ReplaceAll(s[2..], "\r\n", " ");
    } else {
      ReplacedTwice(s[1..]);
      var rest := ReplaceAll(s[1..], "\r\n", " ");
      KeepsFirst(s);
      if s[0] == '\n' { ReplacesBreak(rest); } else { KeepsOther(s[0], rest); }
    }
  }

  lemma KeepsFirst(s: string)
    requires s != "" && !("\r\n" <= s)
    ensures ReplaceAll(s, "\r\n", " ") == [s[0]] + ReplaceAll(s[1..], "\r\n", " ")
  {
    if |s| == 1 { assert s[1..] == "" && s == [s[0]] + ""; }
  }

  lemma KeepsOther(c: char, s: string)
    requires c != '\n'
    ensures ReplaceAll([c] + s, "\n", " ") == [c] + ReplaceAll(s, "\n", " ")
  {
    assert ([c] + s)[1..] == s;
  }

  lemma ReplacesBreak(s: string)
    ensures ReplaceAll(['\n'] + s, "\n", " ") == " " + ReplaceAll(s, "\n", " ")
  {
    assert (['\n'] + s)[1..] == s && "\n" == ['\n'];
  }

  lemma OneLineIs(s: string)
    ensures OneLine(s) == TrimSpace(OnePass(s))
  {
    ReplacedTwice(s);
  }

  /** A text that may be written as it is: trimmed and not empty, without quotes, comments and
      line breaks, every colon followed by something else than a space, and not starting with a
      character that has a meaning of its own. */
  ghost predicate PlainScalar(s: string) {
    && s != "" && TrimSpace(s) == s
    && (forall i :: 0 <= i < |s| ==> s[i] != '\n' && s[i] != '"' && s[i] != '\'' && s[i] != '#')
    && (forall i :: 0 <= i < |s| && s[i] == ':' ==> i + 1 < |s| && s[i + 1] != ' ')
    && s[0] != '-' && s[0] != '?' && s[0] != '&' && s[0] != '*' && s[0] != '!' && s[0] != '|' && s[0] != '>' && s[0] != '%'
    && s[0] != '@' && s[0] != '`' && s[0] != '[' && s[0] != ']' && s[0] != '{' && s[0] != '}' && s[0] != ','
    && s[0] != ':'
  }

  lemma MarksAre(c: char)
    ensures c in "\n\"'#" <==> c == '\n' || c == '"' || c == '\'' || c == '#'
  {
  }

  lemma IndicatorsAre(c: char)
    ensures c in "-?:&*!|>%@`[]{},\"'" <==>
      || c == '-' || c == '?' || c == ':' || c == '&' || c == '*' || c == '!' || c == '|' || c == '>' || c == '%'
      || c == '@' || c == '`' || c == '[' || c == ']' || c == '{' || c == '}' || c == ',' || c == '"' || c == '\''
  {
  }

  lemma QuotedWhen(s: string)
    ensures NeedsQuote(s) <==> !PlainScalar(s)
  {
    if s != "" {
      forall i | 0 <= i < |s| ensures s[i] in "\n\"'#" <==> s[i] == '\n' || s[i] == '"' || s[i] == '\'' || s[i] == '#' {
        MarksAre(s[i]);
      }
      IndicatorsAre(s[0]);
      ColonsAre(s);
    }
  }

  lemma ColonsAre(s: string)
    requires s != ""
    ensures HasPair(s, ':', ' ') || s[|s| - 1] == ':' <==> exists i :: 0 <= i < |s| && s[i] == ':' && !(i + 1 < |s| && s[i + 1] != ' ')
  {
    if HasPair(s, ':', ' ') {
      var i :| 0 <= i < |s| - 1 && s[i] == ':' && s[i + 1] == ' ';
    }
    if s[|s| - 1] == ':' { assert !(|s| - 1 + 1 < |s|); }
  }

  /** Exactly such a description is written as it is, any other one in quotes. */
  lemma WrittenPlain(s: string, isPrint: char -> bool)
    ensures Scalar(s, isPrint) == if PlainScalar(s) then s else GoQuote(s, isPrint)
  {
    QuotedWhen(s);
  }

  // ---- what is read ----

  /** A line that declares a field: without indentation and comment, up to its first colon. */
  ghost predicate Declares(rd: Reader, raw: string, key: string, value: string) {
    var line := rd.clean(raw);
    && line != "" && rd.trim(line) == line && line[0] != '#'
    && exists c: nat :: c < |line| && line[c] == ':' && ':' !in line[..c]
         && key == rd.trim(line[..c]) && value == rd.unquote(rd.trim(line[c + 1..]))
  }

  lemma OneField(rd: Reader, fields: map<string, string>, raw: string, key: string)
    ensures var after := TakeField(rd, fields, raw);
      if exists v :: Declares(rd, raw, key, v) then key in after && Declares(rd, raw, key, after[key])
      else (key in after <==> key in fields) && (key in fields ==> after[key] == fields[key])
  {
    var line := rd.clean(raw);
    IndexOfFirst(line, ':');
    if v :| Declares(rd, raw, key, v) {
      var c: nat :| c < |line| && line[c] == ':' && ':' !in line[..c]
        && key == rd.trim(line[..c]) && v == rd.unquote(rd.trim(line[c + 1..]));
      FirstOnly(line, ':', c);
    } else if rd.trim(line) == line && line != "" && line[0] != '#' && IndexOf(line, ':').Some? {
      var c := IndexOf(line, ':').value;
      assert key == rd.trim(line[..c]) ==> Declares(rd, raw, key, rd.unquote(rd.trim(line[c + 1..])));
    }
  }

  lemma FirstOnly(s: string, ch: char, c: nat)
    requires c < |s| && s[c] == ch && ch !in s[..c]
    ensures IndexOf(s, ch) == Some(c)
  {
    IndexOfAfter(s[..c], ch, s[c + 1..]);
    assert s == s[..c] + [ch] + s[c + 1..];
  }

  /** The fields of a frontmatter: those that some line declares, each with the value of the last
      line that declares it. */
  lemma {:induction false} FieldTold(rd: Reader, lines: seq<string>, key: string)
    ensures var fields := Fields(rd, lines);
      if key in fields then
        exists i :: 0 <= i < |lines| && Declares(rd, lines[i], key, fields[key])
          && forall j :: i < j < |lines| ==> forall v :: !Declares(rd, lines[j], key, v)
      else forall i, v :: 0 <= i < |lines| ==> !Declares(rd, lines[i], key, v)
  {
    if lines != [] {
      FieldTold(rd, Init(lines), key);
      OneField(rd, Fields(rd, Init(lines)), Last(lines), key);
      assert forall i :: 0 <= i < |lines| - 1 ==> lines[i] == Init(lines)[i];
      if exists v :: Declares(rd, Last(lines), key, v) {
        assert lines[|lines| - 1] == Last(lines);
      }
    }
  }

  lemma DoubledFirst(s: string, one: string, two: string)
    requires s != "" && one == "'" && two == "''"
    ensures var rest := ReplaceAll(s[1..], one, two);
      ReplaceAll(s, one, two) == if s[0] == '\'' then two + rest else [s[0]] + rest
  {
    assert one <= s <==> s[0] == '\'';
  }

  lemma {:induction false} Undoubled(s: string, one: string, two: string)
    requires one == "'" && two == "''"
    ensures ReplaceAll(ReplaceAll(s, one, two), two, one) == s
  {
    if s != "" {
      Undoubled(s[1..], one, two);
      DoubledFirst(s, one, two);
      var rest := ReplaceAll(s[1..], one, two);
      assert s == [s[0]] + s[1..];
      if s[0] == '\'' { UndoublePair(rest, one, two); } else { UndoubleOther(s[0], rest, one, two); }
    }
  }

  lemma UndoublePair(s: string, one: string, two: string)
    requires two == "''"
    ensures ReplaceAll(two + s, two, one) == one + ReplaceAll(s, two, one)
  {
    assert (two + s)[2..] == s && two <= two + s;
  }

  lemma NotPrefix(what: string, t: string)
    requires what != "" && t != "" && what[0] != t[0]
    ensures !(what <= t)
  {
  }

  lemma UndoubleOther(c: char, s: string, one: string, two: string)
    requires c != '\'' && two == "''"
    ensures ReplaceAll([c] + s, two, one) == [c] + ReplaceAll(s, two, one)
  {
    var t := [c] + s;
    assert t[1..] == s;
    NotPrefix(two, t);
    if s == "" { assert t == [c] + ""; }
  }

  lemma {:induction false} DoubledEnds(s: string, one: string, two: string)
    requires s != "" && one == "'" && two == "''"
    ensures var d := ReplaceAll(s, one, two); d != "" && d[0] == s[0] && d[|d| - 1] == s[|s| - 1]
  {
    var rest := ReplaceAll(s[1..], one, two);
    DoubledFirst(s, one, two);
    if |s| > 1 {
      DoubledEnds(s[1..], one, two);
      EndsWithRest(if s[0] == '\'' then two else [s[0]], rest, s);
    } else {
      assert rest == "" && two + rest == two && [s[0]] + rest == [s[0]];
    }
  }

  lemma EndsWithRest(first: string, rest: string, s: string)
    requires first != "" && rest != "" && |s| > 1 && first[0] == s[0] && rest[|rest| - 1] == s[1..][|s| - 2]
    ensures (first + rest)[0] == s[0] && (first + rest)[|first + rest| - 1] == s[|s| - 1]
  {
  }

  lemma Unwrapped(q: string, d: string)
    requires q == "'" && d != "" && d[0] != '\'' && d[|d| - 1] != '\''
    ensures UnquoteYaml(q + d + q) == ReplaceAll(d, "''", "'")
  {
    var v := q + d + q;
    assert AllIn(q, IsSingleQuote) && Trimmed(d, IsSingleQuote);
    Peeled(q, d, IsSingleQuote);
    QuotedRead(v);
  }

  lemma Peeled(q: string, d: string, p: char -> bool)
    requires AllIn(q, p) && Trimmed(d, p)
    ensures Trim(q + d + q, p) == d
  {
    TrimPadded(q, d, q, p);
    TrimmedIsFixed(d, p);
  }

  lemma QuotedRead(v: string)
    requires |v| >= 2 && v[0] == '\'' && v[|v| - 1] == '\''
    ensures UnquoteYaml(v) == ReplaceAll(Trim(v, IsSingleQuote), "''", "'")
  {
  }

  /** A single-quoted value is read as what it quotes, with quotes inside written twice. */
  lemma SingleQuoted(s: string, one: string, two: string)
    requires s != "" && s[0] != '\'' && s[|s| - 1] != '\'' && one == "'" && two == "''"
    ensures UnquoteYaml(one + ReplaceAll(s, one, two) + one) == s
  {
    DoubledEnds(s, one, two);
    Unwrapped(one, ReplaceAll(s, one, two));
    Undoubled(s, one, two);
  }

  lemma Behind(tail: string)
    ensures Without(FENCE + tail, FENCE) == tail && BodyAfter(FENCE + tail) == Without(TrimLeft(tail, IsReturn), "\n")
  {
  }

  lemma Peeling(c: char, s: string, p: char -> bool)
    ensures TrimLeft([c] + s, p) == if p(c) then TrimLeft(s, p) else [c] + s
  {
    assert ([c] + s)[1..] == s;
  }

  lemma BodyBreak(rest: string)
    ensures BodyAfter(FENCE + (['\n'] + rest)) == rest
  {
    var next := ['\n'] + rest;
    Behind(next);
    Peeling('\n', rest, IsReturn);
    assert next[1..] == rest;
  }

  lemma BodyReturn(rest: string)
    ensures BodyAfter(FENCE + (['\r'] + (['\n'] + rest))) == rest
  {
    var next := ['\n'] + rest;
    Behind(['\r'] + next);
    Peeling('\n', rest, IsReturn);
    Peeling('\r', next, IsReturn);
    assert next[1..] == rest;
  }

  lemma BodyEmpty(none: string)
    requires none == ""
    ensures BodyAfter(FENCE + none) == ""
  {
    Behind(none);
  }

  /** The body starts behind the line of the closing fence, with or without a carriage return,
      and is empty when nothing follows. */
  lemma BodyTold(rest: string, none: string)
    requires none == ""
    ensures BodyAfter(FENCE + none) == ""
    ensures BodyAfter(FENCE + (['\n'] + rest)) == rest
    ensures BodyAfter(FENCE + (['\r'] + (['\n'] + rest))) == rest
  {
    BodyEmpty(none);
    BodyBreak(rest);
    BodyReturn(rest);
  }
}
