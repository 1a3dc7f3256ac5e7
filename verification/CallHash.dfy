/** The text hashed for a tool call: name, a colon, and the printed arguments. Because a
    printed object can never reappear as a proper suffix of another one, the text
    determines the name and the arguments, even for names that contain colons. */
module CallHash {
  import opened JsonValues
  import opened Ordering
  import opened Quoting
  import opened StableJson

  ghost function HashInput(name: string, args: map<string, Json>, isPrint: char -> bool): string {
    name + ":" + Print(Obj(args), isPrint)
  }

  // ---- a scanner that follows quotes and bracket depth through printed text ----

  datatype Scan = Outside(depth: nat) | Inside(depth: nat) | Escaped(depth: nat) | Closed | Stuck

  function Next(s: Scan, c: char): Scan {
    match s
    case Outside(d) =>
      if c == '"' then Inside(d)
      else if c == '\\' then Stuck
      else if c == '{' || c == '[' then Outside(d + 1)
      else if c == '}' || c == ']' then (if d <= 1 then (if d == 1 then Closed else Stuck) else Outside(d - 1))
      else s
    case Inside(d) => if c == '"' then Outside(d) else if c == '\\' then Escaped(d) else s
    case Escaped(d) => Inside(d)
    case Closed => Stuck
    case Stuck => Stuck
  }

  function Run(s: Scan, t: string): Scan
    decreases |t|
  {
    if t == "" then s else Run(Next(s, t[0]), t[1..])
  }

  lemma {:induction false} RunConcat(s: Scan, a: string, b: string)
    ensures Run(s, a + b) == Run(Run(s, a), b)
    decreases |a|
  {
    if a == "" {
      assert a + b == b;
    } else {
      assert (a + b)[1..] == a[1..] + b;
      RunConcat(Next(s, a[0]), a[1..], b);
    }
  }

  lemma {:induction false} RunStuck(t: string)
    ensures Run(Stuck, t) == Stuck
  {
    if t != "" { RunStuck(t[1..]); }
  }

  /** Text without quotes and backslashes keeps the scanner inside a string. */
  lemma {:induction false} RunQuiet(d: nat, t: string)
    requires '"' !in t && '\\' !in t
    ensures Run(Inside(d), t) == Inside(d)
  {
    if t != "" { RunQuiet(d, t[1..]); }
  }

  // ---- the shape of one escaped character ----

  /** A plain character, or a backslash followed by any character and then by characters
      that are neither quotes nor backslashes. */
  ghost predicate EscapeShape(e: string) {
    || (|e| == 1 && e[0] != '"' && e[0] != '\\')
    || (|e| >= 2 && e[0] == '\\' && '"' !in e[2..] && '\\' !in e[2..])
  }

  lemma {:induction false} HexShape(n: nat, width: nat)
    ensures '"' !in Hex(n, width) && '\\' !in Hex(n, width)
  {
    if width > 0 {
      HexShape(n / 16, width - 1);
      assert HEX[n % 16] in HEX && '"' !in HEX && '\\' !in HEX;
    }
  }

  lemma GoEscapeShape(c: char, isPrint: char -> bool)
    ensures EscapeShape(GoEscape(c, isPrint))
  {
    var e := GoEscape(c, isPrint);
    HexShape(c as nat, 2);
    HexShape(c as nat, 4);
    HexShape(c as nat, 8);
    if |e| > 2 { assert e[2..] == Hex(c as nat, |e| - 2); }
  }

  lemma JsonEscapeShape(c: char)
    ensures EscapeShape(JsonEscape(c))
  {
    var e := JsonEscape(c);
    HexShape(c as nat, 4);
    if |e| > 2 { assert e[2..] == Hex(c as nat, 4); }
  }

  /** A sequence of escaped characters. */
  ghost predicate BodyShape(t: string)
    decreases |t|
  {
    t == "" || exists n :: 1 <= n <= |t| && EscapeShape(t[..n]) && BodyShape(t[n..])
  }

  lemma BodyShapeCons(e: string, t: string)
    requires EscapeShape(e) && BodyShape(t)
    ensures BodyShape(e + t)
  {
    assert (e + t)[..|e|] == e && (e + t)[|e|..] == t;
  }

  lemma {:induction false} GoBodyShape(s: string, isPrint: char -> bool)
    ensures BodyShape(GoBody(s, isPrint))
  {
    if s != "" {
      GoBodyShape(s[1..], isPrint);
      GoEscapeShape(s[0], isPrint);
      BodyShapeCons(GoEscape(s[0], isPrint), GoBody(s[1..], isPrint));
    }
  }

  lemma {:induction false} JsonBodyShape(s: string)
    ensures BodyShape(JsonBody(s))
  {
    if s != "" {
      JsonBodyShape(s[1..]);
      JsonEscapeShape(s[0]);
      BodyShapeCons(JsonEscape(s[0]), JsonBody(s[1..]));
    }
  }

  // ---- scanning a quoted text from outside and from inside a string ----

  ghost predicate Flipped(s: Scan) {
    s.Inside? || s.Stuck?
  }

  lemma {:induction false} RunBody(d: nat, t: string)
    requires BodyShape(t)
    ensures Run(Inside(d), t) == Inside(d)
    decreases |t|
  {
    if t != "" {
      var n :| 1 <= n <= |t| && EscapeShape(t[..n]) && BodyShape(t[n..]);
      RunBody(d, t[n..]);
      assert t == t[..n] + t[n..];
      RunConcat(Inside(d), t[..n], t[n..]);
      if n > 1 {
        var e := t[..n];
        RunQuiet(d, e[2..]);
        assert Run(Inside(d), e) == Run(Escaped(d), e[1..]);
        assert e[1..][1..] == e[2..];
      }
    }
  }

  /** Seen from the wrong side of the quotes, a string body either shows a backslash
      (and the scanner is stuck) or no quote at all. */
  lemma {:induction false} RunBodyFlipped(s: Scan, t: string)
    requires BodyShape(t) && !s.Inside? && !s.Escaped?
    ensures !Run(s, t).Inside? && !Run(s, t).Escaped?
    decreases |t|
  {
    if t != "" {
      var n :| 1 <= n <= |t| && EscapeShape(t[..n]) && BodyShape(t[n..]);
      assert t == t[..n] + t[n..];
      RunConcat(s, t[..n], t[n..]);
      if n > 1 {
        RunStuck(t[..n][1..]);
      }
      RunBodyFlipped(Run(s, t[..n]), t[n..]);
    }
  }

  lemma RunQuoted(s: Scan, body: string)
    requires BodyShape(body) && (s.Outside? || Flipped(s))
    ensures s.Outside? ==> Run(s, "\"" + body + "\"") == s
    ensures Flipped(s) ==> Flipped(Run(s, "\"" + body + "\""))
  {
    RunConcat(s, "\"" + body, "\"");
    assert ("\"" + body)[1..] == body;
    assert Run(s, "\"" + body) == Run(Next(s, '"'), body);
    if s.Outside? {
      RunBody(s.depth, body);
    } else {
      RunBodyFlipped(Next(s, '"'), body);
    }
  }

  // ---- scanning printed values ----

  lemma {:induction false} RunPlain(s: Scan, t: string)
    requires forall i :: 0 <= i < |t| ==> t[i] !in "\"\\{}[]"
    requires s.Outside? || Flipped(s)
    ensures Run(s, t) == s
  {
    if t != "" { RunPlain(s, t[1..]); }
  }

  /** Outside strings, a printed value leaves the scanner where it was; inside a string it
      can only leave it inside, or stuck. */
  lemma {:induction false} RunPrint(s: Scan, v: Json, isPrint: char -> bool)
    requires (s.Outside? && s.depth >= 1) || Flipped(s)
    ensures s.Outside? ==> Run(s, Print(v, isPrint)) == s
    ensures Flipped(s) ==> Flipped(Run(s, Print(v, isPrint)))
    decreases v, 1, 0
  {
    match v {
      case Null => RunPlain(s, "null");
      case Bool(b) => if b { RunPlain(s, "true"); } else { RunPlain(s, "false"); }
      case Num(text) => RunNumber(s, text);
      case Str(str) =>
        JsonBodyShape(str);
        RunQuoted(s, JsonBody(str));
      case Arr(_) =>
        RunItems(Next(s, '['), v, 0, isPrint);
        RunWrapped(s, "[", PrintItems(v, 0, isPrint), "]");
      case Obj(fields) =>
        RunFields(Next(s, '{'), v, SortedKeys(fields.Keys), isPrint);
        RunWrapped(s, "{", PrintFields(v, SortedKeys(fields.Keys), isPrint), "}");
    }
  }

  lemma RunBracketed(s: Scan, left: string, inner: string, right: string)
    requires |left| == 1 && |right| == 1
    ensures Run(s, left + inner + right) == Next(Run(Next(s, left[0]), inner), right[0])
  {
    RunConcat(s, left + inner, right);
    assert (left + inner)[1..] == inner;
    var m := Run(s, left + inner);
    assert right[1..] == "";
    assert Run(m, right) == Run(Next(m, right[0]), right[1..]);
  }

  lemma RunWrapped(s: Scan, left: string, inner: string, right: string)
    requires (left == "[" && right == "]") || (left == "{" && right == "}")
    requires (s.Outside? && s.depth >= 1) || Flipped(s)
    requires var m := Next(s, left[0]);
      (m.Outside? ==> Run(m, inner) == m) && (Flipped(m) ==> Flipped(Run(m, inner)))
    ensures s.Outside? ==> Run(s, left + inner + right) == s
    ensures Flipped(s) ==> Flipped(Run(s, left + inner + right))
  {
    RunBracketed(s, left, inner, right);
  }

  lemma RunNumber(s: Scan, text: NumText)
    requires s.Outside? || Flipped(s)
    ensures Run(s, text) == s
  {
    assert forall c :: c in NUMBER_CHARS ==> c !in "\"\\{}[]";
    RunPlain(s, text);
  }

  lemma {:induction false} RunItems(s: Scan, v: Json, from: nat, isPrint: char -> bool)
    requires v.Arr? && from <= |v.items| && ((s.Outside? && s.depth >= 1) || Flipped(s))
    ensures s.Outside? ==> Run(s, PrintItems(v, from, isPrint)) == s
    ensures Flipped(s) ==> Flipped(Run(s, PrintItems(v, from, isPrint)))
    decreases v, 0, |v.items| - from
  {
    if from < |v.items| {
      var head := Print(v.items[from], isPrint);
      RunPrint(s, v.items[from], isPrint);
      if from + 1 < |v.items| {
        RunSeparated(s, head, ",", PrintItems(v, from + 1, isPrint));
        RunItems(Run(s, head), v, from + 1, isPrint);
      }
    }
  }

  lemma RunSeparated(s: Scan, a: string, sep: string, b: string)
    requires (sep == "," || sep == ":") && (Run(s, a).Outside? || Flipped(Run(s, a)))
    ensures Run(s, a + sep + b) == Run(Run(s, a), b)
  {
    RunConcat(s, a + sep, b);
    RunConcat(s, a, sep);
    RunPlain(Run(s, a), sep);
  }

  lemma {:induction false} RunFields(s: Scan, v: Json, ks: seq<string>, isPrint: char -> bool)
    requires v.Obj? && (forall k :: k in ks ==> k in v.fields)
    requires (s.Outside? && s.depth >= 1) || Flipped(s)
    ensures s.Outside? ==> Run(s, PrintFields(v, ks, isPrint)) == s
    ensures Flipped(s) ==> Flipped(Run(s, PrintFields(v, ks, isPrint)))
    decreases v, 0, |ks|
  {
    if ks != [] {
      var field := PrintField(v, ks[0], isPrint);
      var key := GoQuote(ks[0], isPrint);
      GoBodyShape(ks[0], isPrint);
      RunQuoted(s, GoBody(ks[0], isPrint));
      RunSeparated(s, key, ":", Print(v.fields[ks[0]], isPrint));
      RunPrint(Run(s, key), v.fields[ks[0]], isPrint);
      if |ks| > 1 {
        RunSeparated(s, field, ",", PrintFields(v, ks[1..], isPrint));
        RunFields(Run(s, field), v, ks[1..], isPrint);
      }
    }
  }

  lemma RunObject(v: Json, isPrint: char -> bool)
    requires v.Obj?
    ensures Run(Outside(0), Print(v, isPrint)) == Closed
  {
    var ks := SortedKeys(v.fields.Keys);
    PrintedObject(v, isPrint);
    RunFields(Outside(1), v, ks, isPrint);
    ClosedByBracket(PrintFields(v, ks, isPrint));
  }

  lemma ClosedByBracket(body: string)
    requires Run(Outside(1), body) == Outside(1)
    ensures Run(Outside(0), "{" + body + "}") == Closed
  {
    RunBracketed(Outside(0), "{", body, "}");
  }

  /** After the opening bracket the scanner never comes back to depth zero. */
  lemma {:induction false} RunStaysDeep(s: Scan, t: string)
    requires s.Outside? || s.Inside? || s.Escaped? ==> s.depth >= 1
    ensures var r := Run(s, t); r.Outside? || r.Inside? || r.Escaped? ==> r.depth >= 1
    decreases |t|
  {
    if t != "" { RunStaysDeep(Next(s, t[0]), t[1..]); }
  }

  /** A printed object is not a proper suffix of another printed object. */
  lemma NoProperSuffix(pre: string, v: Json, w: Json, isPrint: char -> bool)
    requires v.Obj? && w.Obj? && pre != ""
    ensures Print(v, isPrint) != pre + Print(w, isPrint)
  {
    var p := Print(w, isPrint);
    if Print(v, isPrint) == pre + p {
      RunObject(v, isPrint);
      RunConcat(Outside(0), pre, p);
      FirstChar(v, isPrint);
      FirstChar(w, isPrint);
      assert pre[0] == '{';
      RunStaysDeep(Outside(1), pre[1..]);
      var s := Run(Outside(0), pre);
      if s.Closed? {
        RunStuck(p[1..]);
      } else if s.Escaped? {
        assert Run(s, p) == Run(Inside(s.depth), p);
        RunPrint(Inside(s.depth), w, isPrint);
      } else {
        RunPrint(s, w, isPrint);
      }
    }
  }

  /** Two calls hash the same text exactly when name and arguments agree. */
  lemma HashInputUnique(n1: string, a1: map<string, Json>, n2: string, a2: map<string, Json>, isPrint: char -> bool)
    requires NoBreakPrinted(isPrint)
    ensures HashInput(n1, a1, isPrint) == HashInput(n2, a2, isPrint) <==> n1 == n2 && a1 == a2
  {
    if HashInput(n1, a1, isPrint) == HashInput(n2, a2, isPrint) {
      if |n1| <= |n2| {
        HashInputOrdered(n1, a1, n2, a2, isPrint);
      } else {
        HashInputOrdered(n2, a2, n1, a1, isPrint);
      }
    }
  }

  lemma HashInputOrdered(n1: string, a1: map<string, Json>, n2: string, a2: map<string, Json>, isPrint: char -> bool)
    requires NoBreakPrinted(isPrint) && |n1| <= |n2|
    requires HashInput(n1, a1, isPrint) == HashInput(n2, a2, isPrint)
    ensures n1 == n2 && a1 == a2
  {
    var p, q := Print(Obj(a1), isPrint), Print(Obj(a2), isPrint);
    var text := HashInput(n1, a1, isPrint);
    var cut := |n2| - |n1|;
    assert p == text[|n1| + 1..] && q == text[|n2| + 1..];
    assert p == p[..cut] + p[cut..] && p[cut..] == q;
    if cut > 0 {
      NoProperSuffix(p[..cut], Obj(a1), Obj(a2), isPrint);
    } else {
      assert n1 == text[..|n1|] == n2;
      Canonical(Obj(a1), Obj(a2), isPrint);
    }
  }
}
