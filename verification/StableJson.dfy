/** stableJSON, the canonical printer behind the loop detector's call hashes: two values
    print alike exactly when they are equal, and the text hashed for a tool call
    determines both the tool's name and its arguments. */
module StableJson {
  import opened JsonValues
  import opened Ordering
  import opened Quoting

  /** The text of a value. isPrint is strconv.IsPrint, used by the verb %q for keys. */
  ghost function Print(v: Json, isPrint: char -> bool): string
    decreases v, 1, 0
  {
    match v
    case Null => "null"
    case Bool(b) => if b then "true" else "false"
    case Num(text) => text
    case Str(s) => JsonQuote(s)
    case Arr(items) => "[" + PrintItems(v, 0, isPrint) + "]"
    case Obj(fields) => "{" + PrintFields(v, SortedKeys(fields.Keys), isPrint) + "}"
  }

  ghost function PrintItems(v: Json, from: nat, isPrint: char -> bool): string
    requires v.Arr? && from <= |v.items|
    decreases v, 0, |v.items| - from
  {
    if from == |v.items| then ""
    else if from + 1 == |v.items| then Print(v.items[from], isPrint)
    else Print(v.items[from], isPrint) + "," + PrintItems(v, from + 1, isPrint)
  }

  ghost function PrintField(v: Json, key: string, isPrint: char -> bool): string
    requires v.Obj? && key in v.fields
    decreases v, 0, 0
  {
    GoQuote(key, isPrint) + ":" + Print(v.fields[key], isPrint)
  }

  ghost function PrintFields(v: Json, keys: seq<string>, isPrint: char -> bool): string
    requires v.Obj? && forall k :: k in keys ==> k in v.fields
    decreases v, 0, |keys|
  {
    if keys == [] then ""
    else if |keys| == 1 then PrintField(v, keys[0], isPrint)
    else PrintField(v, keys[0], isPrint) + "," + PrintFields(v, keys[1..], isPrint)
  }

  // ---- unique reading ----

  /** What may follow a printed value: nothing, or a separator or closing bracket. */
  predicate Delimits(r: string) {
    r == "" || r[0] in ",}]"
  }

  lemma {:induction false} NumberSpan(a: string, b: string, r: string, q: string)
    requires forall i :: 0 <= i < |a| ==> a[i] in NUMBER_CHARS
    requires forall i :: 0 <= i < |b| ==> b[i] in NUMBER_CHARS
    requires Delimits(r) && Delimits(q) && a + r == b + q
    ensures a == b && r == q
  {
    if a == "" { assert a + r == r; }
    if b == "" { assert b + q == q; }
    if a != "" && b != "" {
      assert a[0] == (a + r)[0] == (b + q)[0] == b[0];
      assert a[1..] + r == (a + r)[1..] == (b + q)[1..] == b[1..] + q;
      NumberSpan(a[1..], b[1..], r, q);
      assert a == [a[0]] + a[1..] && b == [b[0]] + b[1..];
    }
  }

  lemma FirstChar(v: Json, isPrint: char -> bool)
    ensures var p := Print(v, isPrint); p != "" && p[0] !in ",}]" && match v
      case Null => p[0] == 'n'
      case Bool(b) => p[0] == if b then 't' else 'f'
      case Num(_) => p[0] in NUMBER_CHARS
      case Str(_) => p[0] == '"'
      case Arr(_) => p[0] == '['
      case Obj(_) => p[0] == '{'
  {
    match v {
      case Obj(_) => PrintedObject(v, isPrint);
      case Arr(_) => assert Print(v, isPrint) == "[" + PrintItems(v, 0, isPrint) + "]";
      case Str(s) => assert Print(v, isPrint) == JsonQuote(s);
      case Num(text) => assert Print(v, isPrint) == text;
      case Bool(_) =>
      case Null =>
    }
  }

  /** The first character printed tells the kind of value. */
  lemma SameKind(v: Json, w: Json, r: string, q: string, isPrint: char -> bool)
    requires Print(v, isPrint) + r == Print(w, isPrint) + q
    ensures (v.Null? <==> w.Null?) && (v.Bool? <==> w.Bool?) && (v.Num? <==> w.Num?)
    ensures (v.Str? <==> w.Str?) && (v.Arr? <==> w.Arr?) && (v.Obj? <==> w.Obj?)
    ensures v.Bool? ==> v == w
  {
    FirstChar(v, isPrint);
    FirstChar(w, isPrint);
    assert Print(v, isPrint)[0] == (Print(v, isPrint) + r)[0];
    assert Print(w, isPrint)[0] == (Print(w, isPrint) + q)[0];
  }

  lemma QuotedTail(body: string, r: string)
    ensures ("\"" + body + "\"" + r)[1..] == body + "\"" + r
  {
  }

  lemma StringUnique(a: string, b: string, r: string, q: string)
    requires JsonQuote(a) + r == JsonQuote(b) + q
    ensures a == b && r == q
  {
    QuotedTail(JsonBody(a), r);
    QuotedTail(JsonBody(b), q);
    ReadJsonBody(a, r);
    ReadJsonBody(b, q);
  }

  lemma KeyUnique(a: string, b: string, r: string, q: string, isPrint: char -> bool)
    requires NoBreakPrinted(isPrint)
    requires GoQuote(a, isPrint) + r == GoQuote(b, isPrint) + q
    ensures a == b && r == q
  {
    QuotedTail(GoBody(a, isPrint), r);
    QuotedTail(GoBody(b, isPrint), q);
    ReadGoBody(a, isPrint, r);
    ReadGoBody(b, isPrint, q);
  }

  lemma SameFields(v: Json, w: Json)
    requires v.Obj? && w.Obj?
    requires SortedKeys(v.fields.Keys) == SortedKeys(w.fields.Keys)
    requires forall k :: k in SortedKeys(v.fields.Keys) ==> k in v.fields && k in w.fields && v.fields[k] == w.fields[k]
    ensures v == w
  {
    var ks := SortedKeys(v.fields.Keys);
    assert forall k :: k in ks <==> k in Elements(ks);
    assert v.fields == w.fields;
  }

  /** Printing is injective, also when more text follows: no printed value is a proper
      prefix of a different one before a delimiter. */
  lemma {:induction false} PrintUnique(v: Json, w: Json, r: string, q: string, isPrint: char -> bool)
    requires NoBreakPrinted(isPrint) && Delimits(r) && Delimits(q)
    requires Print(v, isPrint) + r == Print(w, isPrint) + q
    ensures v == w && r == q
    decreases v, 1, 0
  {
    SameKind(v, w, r, q, isPrint);
    match v {
      case Null => LeafUnique(v, w, r, q, isPrint);
      case Bool(_) => LeafUnique(v, w, r, q, isPrint);
      case Num(text) => NumberSpan(text, w.text, r, q);
      case Str(s) => StringUnique(s, w.s, r, q);
      case Arr(_) =>
        ArrText(v, r, isPrint);
        ArrText(w, q, isPrint);
        ItemsUnique(v, w, 0, r, q, isPrint);
        assert v.items[0..] == v.items && w.items[0..] == w.items;
      case Obj(_) =>
        ObjText(v, r, isPrint);
        ObjText(w, q, isPrint);
        FieldsUnique(v, w, SortedKeys(v.fields.Keys), SortedKeys(w.fields.Keys), r, q, isPrint);
        SameFields(v, w);
    }
  }

  lemma LeafUnique(v: Json, w: Json, r: string, q: string, isPrint: char -> bool)
    requires v == w && Print(v, isPrint) + r == Print(w, isPrint) + q
    ensures r == q
  {
    var p := Print(v, isPrint);
    assert r == (p + r)[|p|..] && q == (p + q)[|p|..];
  }

  lemma ArrText(v: Json, r: string, isPrint: char -> bool)
    requires v.Arr?
    ensures Print(v, isPrint) + r == "[" + (PrintItems(v, 0, isPrint) + ("]" + r))
    ensures (Print(v, isPrint) + r)[1..] == PrintItems(v, 0, isPrint) + ("]" + r)
  {
    Bracketed("[", PrintItems(v, 0, isPrint), "]", r);
  }

  lemma Bracketed(open: string, body: string, close: string, r: string)
    requires |open| == 1
    ensures open + body + close + r == open + (body + (close + r))
    ensures (open + body + close + r)[1..] == body + (close + r)
  {
    Reassociate(open, body, close, r);
    assert (open + (body + (close + r)))[1..] == body + (close + r);
  }

  lemma ObjText(v: Json, r: string, isPrint: char -> bool)
    requires v.Obj?
    ensures var inner := PrintFields(v, SortedKeys(v.fields.Keys), isPrint) + ("}" + r);
      Print(v, isPrint) + r == "{" + inner && (Print(v, isPrint) + r)[1..] == inner
  {
    var body := PrintFields(v, SortedKeys(v.fields.Keys), isPrint);
    PrintedObject(v, isPrint);
    Bracketed("{", body, "}", r);
  }

  lemma PrintedObject(v: Json, isPrint: char -> bool)
    requires v.Obj?
    ensures Print(v, isPrint) == "{" + PrintFields(v, SortedKeys(v.fields.Keys), isPrint) + "}"
  {
  }

  /** A list or object text with its closing bracket, split after its first member. */
  ghost function ItemsTail(v: Json, from: nat, r: string, isPrint: char -> bool): string
    requires v.Arr? && from < |v.items|
  {
    if from + 1 == |v.items| then "]" + r else "," + (PrintItems(v, from + 1, isPrint) + ("]" + r))
  }

  lemma ItemsSplit(v: Json, from: nat, r: string, isPrint: char -> bool)
    requires v.Arr? && from < |v.items|
    ensures var text := PrintItems(v, from, isPrint) + ("]" + r);
      && text == Print(v.items[from], isPrint) + ItemsTail(v, from, r, isPrint)
      && text != "" && text[0] != ']'
  {
    FirstChar(v.items[from], isPrint);
  }

  lemma {:induction false} ItemsUnique(v: Json, w: Json, from: nat, r: string, q: string, isPrint: char -> bool)
    requires v.Arr? && w.Arr? && from <= |v.items| && from <= |w.items| && NoBreakPrinted(isPrint)
    requires PrintItems(v, from, isPrint) + ("]" + r) == PrintItems(w, from, isPrint) + ("]" + q)
    ensures v.items[from..] == w.items[from..] && r == q
    decreases v, 0, |v.items| - from
  {
    if from < |v.items| { ItemsSplit(v, from, r, isPrint); }
    if from < |w.items| { ItemsSplit(w, from, q, isPrint); }
    if from < |v.items| && from < |w.items| {
      var rest, tail := ItemsTail(v, from, r, isPrint), ItemsTail(w, from, q, isPrint);
      PrintUnique(v.items[from], w.items[from], rest, tail, isPrint);
      assert rest[1..] == tail[1..];
      if from + 1 < |v.items| {
        assert rest[1..] == PrintItems(v, from + 1, isPrint) + ("]" + r);
        assert tail[1..] == PrintItems(w, from + 1, isPrint) + ("]" + q);
        ItemsUnique(v, w, from + 1, r, q, isPrint);
        assert v.items[from..] == [v.items[from]] + v.items[from + 1..];
        assert w.items[from..] == [w.items[from]] + w.items[from + 1..];
      } else {
        assert rest[1..] == r && tail[1..] == q;
      }
    } else {
      assert "" + ("]" + r) == "]" + r && "" + ("]" + q) == "]" + q;
      assert ("]" + r)[1..] == r && ("]" + q)[1..] == q;
    }
  }

  ghost function FieldsTail(v: Json, ks: seq<string>, r: string, isPrint: char -> bool): string
    requires v.Obj? && ks != [] && forall k :: k in ks ==> k in v.fields
  {
    if |ks| == 1 then "}" + r else "," + (PrintFields(v, ks[1..], isPrint) + ("}" + r))
  }

  lemma FieldsSplit(v: Json, ks: seq<string>, r: string, isPrint: char -> bool)
    requires v.Obj? && ks != [] && forall k :: k in ks ==> k in v.fields
    ensures var text := PrintFields(v, ks, isPrint) + ("}" + r);
      && text != "" && text[0] == '"'
      && text == GoQuote(ks[0], isPrint) + (":" + (Print(v.fields[ks[0]], isPrint) + FieldsTail(v, ks, r, isPrint)))
  {
    FieldsSplitTail(v, ks, r, isPrint);
    Reassociate(GoQuote(ks[0], isPrint), ":", Print(v.fields[ks[0]], isPrint), FieldsTail(v, ks, r, isPrint));
  }

  lemma FieldsSplitTail(v: Json, ks: seq<string>, r: string, isPrint: char -> bool)
    requires v.Obj? && ks != [] && forall k :: k in ks ==> k in v.fields
    ensures PrintFields(v, ks, isPrint) + ("}" + r) == PrintField(v, ks[0], isPrint) + FieldsTail(v, ks, r, isPrint)
  {
    if |ks| > 1 {
      Reassociate(PrintField(v, ks[0], isPrint), ",", PrintFields(v, ks[1..], isPrint), "}" + r);
    }
  }

  lemma Reassociate(a: string, b: string, c: string, d: string)
    ensures a + b + c + d == a + (b + (c + d))
  {
  }

  lemma {:induction false} FieldsUnique(v: Json, w: Json, ks: seq<string>, ls: seq<string>, r: string, q: string, isPrint: char -> bool)
    requires v.Obj? && w.Obj? && NoBreakPrinted(isPrint)
    requires forall k :: k in ks ==> k in v.fields
    requires forall k :: k in ls ==> k in w.fields
    requires PrintFields(v, ks, isPrint) + ("}" + r) == PrintFields(w, ls, isPrint) + ("}" + q)
    ensures ks == ls && r == q && forall k :: k in ks ==> v.fields[k] == w.fields[k]
    decreases v, 0, 2 * |ks|
  {
    if ks != [] { FieldsSplit(v, ks, r, isPrint); }
    if ls != [] { FieldsSplit(w, ls, q, isPrint); }
    if ks != [] && ls != [] {
      var x, y := v.fields[ks[0]], w.fields[ls[0]];
      var rest, tail := FieldsTail(v, ks, r, isPrint), FieldsTail(w, ls, q, isPrint);
      var value, value' := Print(x, isPrint) + rest, Print(y, isPrint) + tail;
      KeyUnique(ks[0], ls[0], ":" + value, ":" + value', isPrint);
      assert (":" + value)[1..] == value && (":" + value')[1..] == value';
      PrintUnique(x, y, rest, tail, isPrint);
      FieldsTailUnique(v, w, ks, ls, r, q, isPrint);
    } else {
      assert "" + ("}" + r) == "}" + r && "" + ("}" + q) == "}" + q;
      assert ("}" + r)[1..] == r && ("}" + q)[1..] == q;
    }
  }

  lemma {:induction false} FieldsTailUnique(v: Json, w: Json, ks: seq<string>, ls: seq<string>, r: string, q: string, isPrint: char -> bool)
    requires v.Obj? && w.Obj? && NoBreakPrinted(isPrint) && ks != [] && ls != []
    requires forall k :: k in ks ==> k in v.fields
    requires forall k :: k in ls ==> k in w.fields
    requires ks[0] == ls[0] && v.fields[ks[0]] == w.fields[ls[0]]
    requires FieldsTail(v, ks, r, isPrint) == FieldsTail(w, ls, q, isPrint)
    ensures ks == ls && r == q && forall k :: k in ks ==> v.fields[k] == w.fields[k]
    decreases v, 0, 2 * |ks| - 1
  {
    var rest, tail := FieldsTail(v, ks, r, isPrint), FieldsTail(w, ls, q, isPrint);
    assert rest[1..] == tail[1..];
    assert rest[0] == ',' <==> |ks| > 1;
    if |ks| > 1 {
      assert rest[1..] == PrintFields(v, ks[1..], isPrint) + ("}" + r);
      assert tail[1..] == PrintFields(w, ls[1..], isPrint) + ("}" + q);
      FieldsUnique(v, w, ks[1..], ls[1..], r, q, isPrint);
      assert ks == [ks[0]] + ks[1..] && ls == [ls[0]] + ls[1..];
    } else {
      assert rest[1..] == r && tail[1..] == q;
      assert ks == [ks[0]] && ls == [ls[0]];
    }
  }

  /** stableJSON is canonical. */
  lemma Canonical(v: Json, w: Json, isPrint: char -> bool)
    requires NoBreakPrinted(isPrint)
    ensures Print(v, isPrint) == Print(w, isPrint) <==> v == w
  {
    if Print(v, isPrint) == Print(w, isPrint) {
      assert Print(v, isPrint) + "" == Print(w, isPrint) + "";
      PrintUnique(v, w, "", "", isPrint);
    }
  }
}
