/** Flattening a report's component tree into a table of elements with fresh ids. The table
    is a tree again, and reading it back from the root gives the tree that was flattened,
    normalised and without the nodes that are not components. */
module ReportTree {
  import opened JsonValues
  import opened Strings
  import opened Wrappers

  type Props = map<string, Json>

  datatype Element = Element(kind: string, props: Props, children: seq<string>)

  datatype ReportSpec = ReportSpec(root: string, elements: map<string, Element>)

  /** The normalisers of component types and properties. */
  datatype Rules = Rules(kindOf: (string, Props) -> string, propsOf: (string, Props) -> Props)

  const ROOT: string := "root"

  function NodeName(k: nat): string {
    "node_" + Itoa(k)
  }

  // ---- the tree a component means ----

  datatype Tree = Tree(kind: string, props: Props, children: seq<Tree>)

  function TextProps(s: string): Props {
    map["content" := Str(s)]
  }

  /** The component's name; "" if it has none. */
  function TypeName(fields: Props): string {
    if "component" in fields && fields["component"].Str? then fields["component"].s
    else if "type" in fields && fields["type"].Str? then fields["type"].s
    else ""
  }

  const RESERVED: set<string> := {"component", "type", "children", "props"}

  /** Properties: those under "props", overridden by the component's other fields. */
  function TreeProps(fields: Props): Props {
    var props: Props := if "props" in fields && fields["props"].Obj? then fields["props"].fields else map[];
    props + (fields - RESERVED)
  }

  /** A string child counts as one node. */
  function ChildNodes(fields: Props): seq<Json> {
    if "children" !in fields then []
    else match fields["children"]
      case Str(s) => [Str(s)]
      case Arr(items) => items
      case _ => []
  }

  lemma ChildSmaller(fields: Props, i: nat)
    requires i < |ChildNodes(fields)|
    ensures ChildNodes(fields)[i] < Obj(fields)
  {
    assert fields["children"] < Obj(fields);
    if fields["children"].Arr? {
      assert fields["children"].items[i] < fields["children"];
    }
  }

  function Normal(rules: Rules, node: Json): Option<Tree>
    decreases node, 1, 0
  {
    match node
    case Str(s) => Some(Tree("Text", TextProps(s), []))
    case Obj(fields) =>
      if TypeName(fields) == "" then None
      else
        var props := TreeProps(fields);
        var kind := rules.kindOf(TypeName(fields), props);
        Some(Tree(kind, rules.propsOf(kind, props), NormalKids(rules, fields, |ChildNodes(fields)|)))
    case _ => None
  }

  /** The first n children, without those that are not components. */
  function NormalKids(rules: Rules, fields: Props, n: nat): seq<Tree>
    requires n <= |ChildNodes(fields)|
    decreases Obj(fields), 0, n
  {
    if n == 0 then []
    else
      ChildSmaller(fields, n - 1);
      NormalKids(rules, fields, n - 1) + TreeList(Normal(rules, ChildNodes(fields)[n - 1]))
  }

  function TreeList(t: Option<Tree>): seq<Tree> {
    if t.Some? then [t.value] else []
  }

  /** Properties key by key: a field of the component itself, unless it is one of the four that
      have another meaning, or else what stands under "props", if that is a record. */
  ghost predicate PropsOf(fields: Props, props: Props) {
    forall key ::
      var own := key in fields && key != "component" && key != "type" && key != "children" && key != "props";
      var under := "props" in fields && fields["props"].Obj? && key in fields["props"].fields;
      && (key in props <==> own || under)
      && (own ==> props[key] == fields[key])
      && (under && !own ==> props[key] == fields["props"].fields[key])
  }

  lemma PropsKeys(fields: Props)
    ensures PropsOf(fields, TreeProps(fields))
  {
  }

  /** The name of a component: its "component" if that is a text, or else its "type". */
  ghost predicate NameOf(fields: Props, name: string) {
    if "component" in fields && fields["component"].Str? then fields["component"] == Str(name)
    else if "type" in fields && fields["type"].Str? then fields["type"] == Str(name)
    else name == ""
  }

  /** The trees of those of these nodes that mean one, in order; at tells which. */
  ghost predicate Keeps(mean: Json -> Option<Tree>, nodes: seq<Json>, at: seq<nat>, kids: seq<Tree>) {
    && |at| == |kids| && (forall i, j :: 0 <= i < j < |at| ==> at[i] < at[j])
    && (forall i: nat :: i in at <==> i < |nodes| && mean(nodes[i]).Some?)
    && (forall j :: 0 <= j < |kids| ==> at[j] < |nodes| && mean(nodes[at[j]]) == Some(kids[j]))
  }

  /** The children of a component: the items of a list, or a single text, and nothing else. */
  ghost predicate ChildrenOf(fields: Props, nodes: seq<Json>) {
    if "children" in fields && fields["children"].Str? then nodes == [fields["children"]]
    else if "children" in fields && fields["children"].Arr? then nodes == fields["children"].items
    else nodes == []
  }

  ghost function Meaning(rules: Rules): Json -> Option<Tree> {
    (node: Json) => Normal(rules, node)
  }

  ghost predicate Component(rules: Rules, fields: Props, name: string, props: Props, nodes: seq<Json>, at: seq<nat>, t: Option<Tree>) {
    && NameOf(fields, name) && PropsOf(fields, props) && ChildrenOf(fields, nodes)
    && (if name == "" then t == None
        else
          && t.Some? && t.value.kind == rules.kindOf(name, props) && t.value.props == rules.propsOf(t.value.kind, props)
          && Keeps(Meaning(rules), nodes, at, t.value.children))
  }

  /** What a node means: a text is a Text with that content; a record with a name is a component
      of that kind with its properties and the trees of its children; nothing else is one. */
  ghost predicate Means(rules: Rules, node: Json, t: Option<Tree>) {
    match node
    case Str(text) => t == Some(Tree("Text", map["content" := Str(text)], []))
    case Obj(fields) => exists name, props, nodes, at :: Component(rules, fields, name, props, nodes, at, t)
    case _ => t == None
  }

  lemma KeepsOne(mean: Json -> Option<Tree>, nodes: seq<Json>, at: seq<nat>, kids: seq<Tree>, node: Json, kid: Tree)
    requires Keeps(mean, nodes, at, kids) && mean(node) == Some(kid)
    ensures Keeps(mean, nodes + [node], at + [|nodes|], kids + [kid])
  {
    assert forall j :: 0 <= j < |at| ==> at[j] in at;
  }

  lemma KeepsNone(mean: Json -> Option<Tree>, nodes: seq<Json>, at: seq<nat>, kids: seq<Tree>, node: Json)
    requires Keeps(mean, nodes, at, kids) && mean(node) == None
    ensures Keeps(mean, nodes + [node], at, kids)
  {
  }

  lemma {:induction false} KidsKept(rules: Rules, fields: Props, n: nat) returns (at: seq<nat>)
    requires n <= |ChildNodes(fields)|
    ensures Keeps(Meaning(rules), ChildNodes(fields)[..n], at, NormalKids(rules, fields, n))
  {
    at := [];
    if n > 0 {
      at := KidsKept(rules, fields, n - 1);
      var nodes, node, kids := ChildNodes(fields)[..n - 1], ChildNodes(fields)[n - 1], NormalKids(rules, fields, n - 1);
      KidsNext(rules, fields, n);
      at := KeepsStep(Meaning(rules), nodes, at, kids, node, NormalKids(rules, fields, n));
      OneMore(ChildNodes(fields), n);
    }
  }

  lemma OneMore(nodes: seq<Json>, n: nat)
    requires 0 < n <= |nodes|
    ensures nodes[..n] == nodes[..n - 1] + [nodes[n - 1]]
  {
  }

  lemma KeepsStep(mean: Json -> Option<Tree>, nodes: seq<Json>, at: seq<nat>, kids: seq<Tree>, node: Json, next: seq<Tree>) returns (more: seq<nat>)
    requires Keeps(mean, nodes, at, kids)
    requires next == if mean(node).Some? then kids + [mean(node).value] else kids
    ensures Keeps(mean, nodes + [node], more, next)
  {
    if mean(node).Some? {
      KeepsOne(mean, nodes, at, kids, node, mean(node).value);
      more := at + [|nodes|];
    } else {
      KeepsNone(mean, nodes, at, kids, node);
      more := at;
    }
  }

  lemma KidsNext(rules: Rules, fields: Props, n: nat)
    requires 0 < n <= |ChildNodes(fields)|
    ensures var kids, kid := NormalKids(rules, fields, n - 1), Normal(rules, ChildNodes(fields)[n - 1]);
      NormalKids(rules, fields, n) == if kid.Some? then kids + [kid.value] else kids
  {
    var kids := NormalKids(rules, fields, n - 1);
    assert kids + [] == kids;
  }

  /** The tree that a node is flattened to is what the node means. */
  lemma NormalMeans(rules: Rules, node: Json)
    ensures Means(rules, node, Normal(rules, node))
  {
    if node.Obj? {
      var fields := node.fields;
      var nodes := ChildNodes(fields);
      PropsKeys(fields);
      ChildrenAre(fields);
      var at := KidsKept(rules, fields, |nodes|);
      assert nodes[..|nodes|] == nodes;
      assert Component(rules, fields, TypeName(fields), TreeProps(fields), nodes, at, Normal(rules, node));
    }
  }

  lemma ChildrenAre(fields: Props)
    ensures ChildrenOf(fields, ChildNodes(fields)) && NameOf(fields, TypeName(fields))
  {
  }

  /** Number of nodes. */
  function Size(t: Tree): (n: nat)
    ensures n >= 1
    decreases t, 0
  {
    1 + SizeAll(t, |t.children|)
  }

  function SizeAll(t: Tree, n: nat): nat
    requires n <= |t.children|
    decreases t, 0, n
  {
    if n == 0 then 0 else SizeAll(t, n - 1) + Size(t.children[n - 1])
  }

  function SizeOf(kids: seq<Tree>): nat {
    SizeAll(Tree("", map[], kids), |kids|)
  }

  lemma {:induction false} SameSizeAll(t: Tree, u: Tree, n: nat)
    requires n <= |t.children| && n <= |u.children| && t.children[..n] == u.children[..n]
    ensures SizeAll(t, n) == SizeAll(u, n)
  {
    if n > 0 {
      assert t.children[..n - 1] == t.children[..n][..n - 1] == u.children[..n][..n - 1] == u.children[..n - 1];
      assert t.children[n - 1] == t.children[..n][n - 1] == u.children[..n][n - 1];
      SameSizeAll(t, u, n - 1);
    }
  }

  lemma SizeSnoc(kids: seq<Tree>, t: Tree)
    ensures SizeOf(kids + [t]) == SizeOf(kids) + Size(t)
  {
    SameSizeAll(Tree("", map[], kids + [t]), Tree("", map[], kids), |kids|);
  }

  lemma SizeNode(kind: string, props: Props, kids: seq<Tree>)
    ensures Size(Tree(kind, props, kids)) == 1 + SizeOf(kids)
  {
    SameSizeAll(Tree(kind, props, kids), Tree("", map[], kids), |kids|);
  }

  // ---- reading the table back ----

  /** Read from id on, the table is the tree t. */
  ghost predicate Represents(elements: map<string, Element>, id: string, t: Tree)
    decreases t
  {
    && id in elements
    && elements[id].kind == t.kind && elements[id].props == t.props
    && |elements[id].children| == |t.children|
    && (forall i :: 0 <= i < |t.children| ==> Represents(elements, elements[id].children[i], t.children[i]))
  }

  /** It is no other tree. */
  lemma {:induction false} ReadBackUnique(elements: map<string, Element>, id: string, t: Tree, u: Tree)
    requires Represents(elements, id, t) && Represents(elements, id, u)
    ensures t == u
    decreases t
  {
    forall i | 0 <= i < |t.children| ensures t.children[i] == u.children[i] {
      ReadBackUnique(elements, elements[id].children[i], t.children[i], u.children[i]);
    }
    assert t.children == u.children;
  }

  ghost predicate Extends<K, V>(a: map<K, V>, b: map<K, V>) {
    forall k :: k in a ==> k in b && b[k] == a[k]
  }

  // ---- the table while it grows ----

  /** The place of a child: its parent's id and its position there. */
  datatype Place = Place(parent: string, position: nat)

  /** The table, the counter behind the ids, the place of every child and the tree that every
      element stands for. */
  datatype Store = Store(elements: map<string, Element>, nextId: nat, places: map<string, Place>, trees: map<string, Tree>)

  ghost predicate Numbered(name: nat -> string, c: string, after: nat, upto: nat) {
    exists k: nat :: after < k <= upto && c == name(k)
  }

  ghost predicate Names(name: nat -> string) {
    (forall j: nat, k: nat :: name(j) == name(k) ==> j == k) && (forall k: nat :: name(k) != ROOT)
  }

  /** A child stands where its place says. */
  ghost predicate Placed(s: Store, c: string) {
    && c in s.elements && c in s.places
    && s.places[c].parent in s.elements
    && s.places[c].position < |s.elements[s.places[c].parent].children|
    && s.elements[s.places[c].parent].children[s.places[c].position] == c
  }

  /** A reference is to an element of the table, whose place it is and whose tree belongs
      there. */
  ghost predicate HangsAs(s: Store, c: string, place: Place, t: Tree) {
    c in s.elements && c in s.places && s.places[c] == place && c in s.trees && s.trees[c] == t
  }

  ghost predicate Stands(s: Store, p: string)
    requires p in s.elements
  {
    var e := s.elements[p];
    && p in s.trees && s.trees[p].kind == e.kind && s.trees[p].props == e.props
    && KidsHang(s, p, e.children, s.trees[p].children)
  }

  ghost predicate KidsHang(s: Store, nodeId: string, children: seq<string>, kids: seq<Tree>) {
    |children| == |kids| && forall j :: 0 <= j < |kids| ==> HangsAs(s, children[j], Place(nodeId, j), kids[j])
  }

  ghost predicate Linked(s: Store) {
    s.trees.Keys == s.elements.Keys && forall p :: p in s.elements ==> Stands(s, p)
  }

  /** A table whose elements stand for trees reads as those trees. */
  lemma {:induction false} ReadsBack(s: Store, p: string)
    requires Linked(s) && p in s.elements
    ensures p in s.trees && Represents(s.elements, p, s.trees[p])
    decreases if p in s.trees then Size(s.trees[p]) else 0
  {
    assert Stands(s, p);
    var t, children := s.trees[p], s.elements[p].children;
    forall i | 0 <= i < |t.children| ensures Represents(s.elements, children[i], t.children[i]) {
      assert HangsAs(s, children[i], Place(p, i), t.children[i]);
      ChildSize(t, |t.children|, i);
      ReadsBack(s, children[i]);
    }
  }

  lemma {:induction false} ChildSize(t: Tree, n: nat, i: nat)
    requires i < n <= |t.children|
    ensures Size(t.children[i]) <= SizeAll(t, n)
  {
    if i < n - 1 {
      ChildSize(t, n - 1, i);
    }
  }

  ghost predicate Unused(name: nat -> string, s: Store) {
    forall k: nat :: k > s.nextId ==> name(k) !in s.elements && name(k) !in s.places
  }

  ghost predicate Expands(a: Store, b: Store) {
    Extends(a.elements, b.elements) && Extends(a.places, b.places) && Extends(a.trees, b.trees)
  }

  /** b has a's entries, with the same values, and the nodes numbered after lo; extra is an
      element without a place. */
  ghost predicate NewIds(name: nat -> string, a: Store, b: Store, lo: nat, extra: Option<string>) {
    && Expands(a, b)
    && (forall c :: c in b.elements <==> c in a.elements || extra == Some(c) || Numbered(name, c, lo, b.nextId))
    && (forall c :: c in b.places <==> c in a.places || Numbered(name, c, lo, b.nextId))
  }

  ghost predicate NewPlaced(a: Store, b: Store) {
    forall c :: c in b.places && c !in a.places ==> Placed(b, c)
  }

  /** b is a with the nodes of t added as a subtree at r, which has no place yet; the nodes
      below r have the numbers after start. */
  ghost predicate Grown(name: nat -> string, a: Store, start: nat, b: Store, r: string, t: Tree) {
    && NewIds(name, a, b, start, Some(r)) && NewPlaced(a, b) && Linked(b)
    && r in b.trees && b.trees[r] == t && b.nextId == start + Size(t) - 1
  }

  /** c is a child of a node that is not in the table yet. */
  ghost predicate Hangs(b: Store, c: string, nodeId: string, children: seq<string>) {
    && c in b.elements && c in b.places
    && b.places[c].parent == nodeId && b.places[c].position < |children| && children[b.places[c].position] == c
  }

  ghost predicate NewHang(a: Store, b: Store, nodeId: string, children: seq<string>) {
    forall c :: c in b.places && c !in a.places ==> Placed(b, c) || Hangs(b, c, nodeId, children)
  }

  /** b is a with the children so far of a node that is to be called nodeId. */
  ghost predicate WithKids(name: nat -> string, a: Store, b: Store, nodeId: string, children: seq<string>, kids: seq<Tree>) {
    && NewIds(name, a, b, a.nextId, None) && NewHang(a, b, nodeId, children) && Linked(b)
    && KidsHang(b, nodeId, children, kids) && b.nextId == a.nextId + SizeOf(kids)
  }

  lemma NoKids(name: nat -> string, a: Store, nodeId: string)
    requires Linked(a)
    ensures WithKids(name, a, a, nodeId, [], [])
  {
  }

  lemma PlacedStays(a: Store, b: Store, c: string)
    requires Expands(a, b) && Placed(a, c)
    ensures Placed(b, c)
  {
  }

  lemma HangsStays(a: Store, b: Store, c: string, nodeId: string, children: seq<string>, more: string)
    requires Expands(a, b) && Hangs(a, c, nodeId, children)
    ensures Hangs(b, c, nodeId, children + [more])
  {
  }

  lemma KidsHangStays(a: Store, b: Store, nodeId: string, children: seq<string>, kids: seq<Tree>)
    requires Expands(a, b) && KidsHang(a, nodeId, children, kids)
    ensures KidsHang(b, nodeId, children, kids)
  {
    forall j | 0 <= j < |kids| ensures HangsAs(b, children[j], Place(nodeId, j), kids[j]) {
      assert HangsAs(a, children[j], Place(nodeId, j), kids[j]);
    }
  }

  lemma StandsStays(a: Store, b: Store, p: string)
    requires Expands(a, b) && p in a.elements && Stands(a, p)
    ensures Stands(b, p)
  {
    KidsHangStays(a, b, p, a.elements[p].children, a.trees[p].children);
  }

  lemma LinkedStays(a: Store, b: Store)
    requires a.elements == b.elements && a.trees == b.trees && Expands(a, b) && Linked(a)
    ensures Linked(b)
  {
    forall p | p in b.elements ensures Stands(b, p) {
      StandsStays(a, b, p);
    }
  }

  lemma ExpandsTransitive(a: Store, b: Store, c: Store)
    requires Expands(a, b) && Expands(b, c)
    ensures Expands(a, c)
  {
  }

  lemma NumberedSplit(name: nat -> string, c: string, lo: nat, mid: nat, hi: nat)
    requires lo <= mid < hi
    ensures Numbered(name, c, lo, hi) <==> Numbered(name, c, lo, mid) || c == name(mid + 1) || Numbered(name, c, mid + 1, hi)
  {
  }

  lemma NotNumbered(name: nat -> string, k: nat, lo: nat, hi: nat)
    requires Names(name) && (k <= lo || k > hi)
    ensures !Numbered(name, name(k), lo, hi)
  {
  }

  /** The store after a child r has grown: r gets its place. */
  function AtPlace(c: Store, r: string, place: Place): Store {
    c.(places := c.places[r := place])
  }

  lemma KidIds(name: nat -> string, a: Store, b: Store, c: Store, place: Place)
    requires Names(name) && Unused(name, b) && a.nextId <= b.nextId && b.nextId < c.nextId
    requires NewIds(name, a, b, a.nextId, None) && NewIds(name, b, c, b.nextId + 1, Some(name(b.nextId + 1)))
    ensures NewIds(name, a, AtPlace(c, name(b.nextId + 1), place), a.nextId, None)
    ensures name(b.nextId + 1) !in c.places
  {
    NotNumbered(name, b.nextId + 1, b.nextId + 1, c.nextId);
    ExpandsTransitive(a, b, c);
    forall x { NumberedSplit(name, x, a.nextId, b.nextId, c.nextId); }
  }

  lemma KidPlaces(a: Store, b: Store, c: Store, r: string, nodeId: string, children: seq<string>)
    requires r in c.elements && r !in c.places
    requires Expands(b, c)
    requires NewHang(a, b, nodeId, children) && NewPlaced(b, c)
    ensures NewHang(a, AtPlace(c, r, Place(nodeId, |children|)), nodeId, children + [r])
  {
    var d := AtPlace(c, r, Place(nodeId, |children|));
    ExpandsTransitive(b, c, d);
    forall x | x in d.places && x !in a.places ensures Placed(d, x) || Hangs(d, x, nodeId, children + [r]) {
      if x == r {
        assert Hangs(d, x, nodeId, children + [r]);
      } else if x !in b.places {
        PlacedStays(c, d, x);
      } else if Placed(b, x) {
        PlacedStays(b, d, x);
      } else {
        HangsStays(b, d, x, nodeId, children, r);
      }
    }
  }

  lemma KidsStillHang(b: Store, d: Store, nodeId: string, children: seq<string>, kids: seq<Tree>, r: string, t: Tree)
    requires Expands(b, d) && KidsHang(b, nodeId, children, kids) && HangsAs(d, r, Place(nodeId, |children|), t)
    ensures KidsHang(d, nodeId, children + [r], kids + [t])
  {
    KidsHangStays(b, d, nodeId, children, kids);
  }

  lemma NewKidHangs(name: nat -> string, b: Store, c: Store, r: string, place: Place, t: Tree)
    requires Grown(name, b, b.nextId + 1, c, r, t)
    ensures HangsAs(AtPlace(c, r, place), r, place, t) && b.nextId < c.nextId && r in c.elements
  {
  }

  lemma PlaceLinks(c: Store, r: string, place: Place)
    requires Linked(c) && r !in c.places
    ensures Linked(AtPlace(c, r, place)) && Expands(c, AtPlace(c, r, place))
  {
    LinkedStays(c, AtPlace(c, r, place));
  }

  /** One more child has grown and gets its place. */
  lemma OneMoreKid(name: nat -> string, a: Store, b: Store, c: Store, nodeId: string, children: seq<string>, kids: seq<Tree>, t: Tree)
    requires Names(name) && Unused(name, b)
    requires WithKids(name, a, b, nodeId, children, kids) && Grown(name, b, b.nextId + 1, c, name(b.nextId + 1), t)
    ensures WithKids(name, a, AtPlace(c, name(b.nextId + 1), Place(nodeId, |children|)), nodeId, children + [name(b.nextId + 1)], kids + [t])
  {
    var r, place := name(b.nextId + 1), Place(nodeId, |children|);
    SizeSnoc(kids, t);
    NewKidHangs(name, b, c, r, place, t);
    KidIds(name, a, b, c, place);
    KidPlaces(a, b, c, r, nodeId, children);
    PlaceLinks(c, r, place);
    ExpandsTransitive(b, c, AtPlace(c, r, place));
    KidsStillHang(b, AtPlace(c, r, place), nodeId, children, kids, r, t);
  }

  /** The store after a node has gone into the table. */
  function WithNode(b: Store, nodeId: string, e: Element, kids: seq<Tree>): Store {
    b.(elements := b.elements[nodeId := e], trees := b.trees[nodeId := Tree(e.kind, e.props, kids)])
  }

  lemma NodePlaces(a: Store, b: Store, d: Store, nodeId: string, children: seq<string>)
    requires NewHang(a, b, nodeId, children) && Expands(b, d) && d.places == b.places
    requires nodeId in d.elements && d.elements[nodeId].children == children
    ensures NewPlaced(a, d)
  {
    forall c | c in d.places && c !in a.places ensures Placed(d, c) {
      if Placed(b, c) {
        PlacedStays(b, d, c);
      }
    }
  }

  lemma NodeLinked(b: Store, nodeId: string, e: Element, kids: seq<Tree>)
    requires Linked(b) && KidsHang(b, nodeId, e.children, kids) && nodeId !in b.elements && Expands(b, WithNode(b, nodeId, e, kids))
    ensures Linked(WithNode(b, nodeId, e, kids))
  {
    var d := WithNode(b, nodeId, e, kids);
    forall p | p in d.elements ensures Stands(d, p) {
      if p == nodeId {
        KidsHangStays(b, d, nodeId, e.children, kids);
      } else {
        StandsStays(b, d, p);
      }
    }
  }

  lemma NodeIds(name: nat -> string, a: Store, start: Store, b: Store, nodeId: string, e: Element, kids: seq<Tree>)
    requires start == a.(nextId := start.nextId) && NewIds(name, start, b, start.nextId, None)
    requires nodeId !in b.elements && b.trees.Keys == b.elements.Keys
    ensures NewIds(name, a, WithNode(b, nodeId, e, kids), start.nextId, Some(nodeId)) && Expands(b, WithNode(b, nodeId, e, kids))
  {
  }

  /** With its children complete the node itself goes into the table. */
  lemma NodeCloses(name: nat -> string, a: Store, start: Store, b: Store, nodeId: string, e: Element, kids: seq<Tree>)
    requires start == a.(nextId := start.nextId)
    requires WithKids(name, start, b, nodeId, e.children, kids) && nodeId !in b.elements
    ensures Grown(name, a, start.nextId, WithNode(b, nodeId, e, kids), nodeId, Tree(e.kind, e.props, kids))
  {
    SizeNode(e.kind, e.props, kids);
    NodeIds(name, a, start, b, nodeId, e, kids);
    NodePlaces(start, b, WithNode(b, nodeId, e, kids), nodeId, e.children);
    NodeLinked(b, nodeId, e, kids);
  }

  // ---- what addNode does to the store ----

  function StartOf(id: Option<string>, nextId: nat): nat {
    if id.Some? then nextId else nextId + 1
  }

  function IdOf(name: nat -> string, id: Option<string>, start: nat): string {
    if id.Some? then id.value else name(start)
  }

  /** The store when the number for the id has been taken. */
  function Started(s: Store, id: Option<string>): Store {
    s.(nextId := StartOf(id, s.nextId))
  }

  /** The store after a node was added, and its id if it is a component. */
  ghost function AddTo(rules: Rules, name: nat -> string, s: Store, node: Json, id: Option<string>): (Store, Option<string>)
    decreases node, 1, 0
  {
    var a := Started(s, id);
    var nodeId := IdOf(name, id, a.nextId);
    match node
    case Str(text) => (WithNode(a, nodeId, Element("Text", TextProps(text), []), []), Some(nodeId))
    case Obj(fields) =>
      if TypeName(fields) == "" then (s, None)
      else
        var props := TreeProps(fields);
        var kind := rules.kindOf(TypeName(fields), props);
        var below := AddKids(rules, name, a, fields, nodeId, |ChildNodes(fields)|);
        (WithNode(below.0, nodeId, Element(kind, rules.propsOf(kind, props), below.1), NormalKids(rules, fields, |ChildNodes(fields)|)), Some(nodeId))
    case _ => (s, None)
  }

  /** The store after the first n children of nodeId were added, and their ids. */
  ghost function AddKids(rules: Rules, name: nat -> string, s: Store, fields: Props, nodeId: string, n: nat): (Store, seq<string>)
    requires n <= |ChildNodes(fields)|
    decreases Obj(fields), 0, n
  {
    if n == 0 then (s, [])
    else
      ChildSmaller(fields, n - 1);
      var before := AddKids(rules, name, s, fields, nodeId, n - 1);
      var child := AddTo(rules, name, before.0, ChildNodes(fields)[n - 1], None);
      if child.1.None? then (child.0, before.1)
      else (AtPlace(child.0, child.1.value, Place(nodeId, |before.1|)), before.1 + [child.1.value])
  }

  /** The table is sound, and the numbers to come are unused. */
  ghost predicate Sound(name: nat -> string, s: Store) {
    Names(name) && Linked(s) && Unused(name, s)
  }

  ghost predicate MayName(s: Store, id: Option<string>) {
    id.Some? ==> id.value == ROOT && ROOT !in s.elements && ROOT !in s.places
  }

  lemma UnusedAbove(name: nat -> string, a: Store, b: Store, lo: nat, extra: Option<string>)
    requires Names(name) && Unused(name, a) && NewIds(name, a, b, lo, extra) && a.nextId <= lo <= b.nextId
    requires extra.Some? ==> extra.value == ROOT || exists k: nat :: k <= lo && extra.value == name(k)
    ensures Unused(name, b)
  {
    forall k: nat | k > b.nextId ensures name(k) !in b.elements && name(k) !in b.places {
      NotNumbered(name, k, lo, b.nextId);
    }
  }

  /** A node whose children have been added goes into the table. */
  lemma NodeGrows(name: nat -> string, s: Store, id: Option<string>, b: Store, e: Element, kids: seq<Tree>)
    requires Sound(name, s) && MayName(s, id)
    requires var a := Started(s, id); WithKids(name, a, b, IdOf(name, id, a.nextId), e.children, kids)
    ensures var start := StartOf(id, s.nextId);
            var d := WithNode(b, IdOf(name, id, start), e, kids);
            Sound(name, d) && Grown(name, s, start, d, IdOf(name, id, start), Tree(e.kind, e.props, kids))
  {
    var a := Started(s, id);
    var nodeId := IdOf(name, id, a.nextId);
    if id.None? {
      NotNumbered(name, a.nextId, a.nextId, b.nextId);
    }
    NodeCloses(name, s, a, b, nodeId, e, kids);
    UnusedAbove(name, s, WithNode(b, nodeId, e, kids), a.nextId, Some(nodeId));
  }

  lemma KidGrows(name: nat -> string, a: Store, b: Store, c: Store, nodeId: string, children: seq<string>, kids: seq<Tree>, t: Tree)
    requires Sound(name, a) && Unused(name, b)
    requires WithKids(name, a, b, nodeId, children, kids) && Grown(name, b, b.nextId + 1, c, name(b.nextId + 1), t)
    ensures WithKids(name, a, AtPlace(c, name(b.nextId + 1), Place(nodeId, |children|)), nodeId, children + [name(b.nextId + 1)], kids + [t])
  {
    OneMoreKid(name, a, b, c, nodeId, children, kids, t);
  }

  lemma KidsSound(name: nat -> string, a: Store, b: Store, nodeId: string, children: seq<string>, kids: seq<Tree>)
    requires Sound(name, a) && WithKids(name, a, b, nodeId, children, kids)
    ensures Sound(name, b)
  {
    UnusedAbove(name, a, b, a.nextId, None);
  }

  /** The three invariants, as values. */
  datatype Invariants = Invariants(
    sound: Store -> bool,
    withKids: (Store, Store, string, seq<string>, seq<Tree>) -> bool,
    grown: (Store, nat, Store, string, Tree) -> bool)

  ghost function InvariantsOf(name: nat -> string): Invariants {
    Invariants(s => Sound(name, s),
               (a, b, nodeId, children, kids) => WithKids(name, a, b, nodeId, children, kids),
               (a, start: nat, b, r, t) => Grown(name, a, start, b, r, t))
  }

  ghost predicate KidLaws(name: nat -> string, inv: Invariants) {
    && (forall a, nodeId :: inv.sound(a) ==> inv.withKids(a, a, nodeId, [], []))
    && (forall a, b, nodeId, children, kids :: inv.sound(a) && inv.withKids(a, b, nodeId, children, kids) ==> inv.sound(b))
    && (forall a, b, c, nodeId, children, kids, t {:trigger inv.withKids(a, b, nodeId, children, kids), inv.grown(b, b.nextId + 1, c, name(b.nextId + 1), t)} ::
          inv.sound(a) && inv.withKids(a, b, nodeId, children, kids) && inv.grown(b, b.nextId + 1, c, name(b.nextId + 1), t) ==>
            inv.withKids(a, AtPlace(c, name(b.nextId + 1), Place(nodeId, |children|)), nodeId, children + [name(b.nextId + 1)], kids + [t]))
  }

  ghost predicate NodeLaws(name: nat -> string, inv: Invariants) {
    && (forall s, id {:trigger Started(s, id)} :: inv.sound(s) ==> inv.sound(Started(s, id)))
    && (forall s, id, b, e: Element, kids {:trigger inv.withKids(Started(s, id), b, IdOf(name, id, Started(s, id).nextId), e.children, kids)} ::
          var start := Started(s, id).nextId;
          inv.sound(s) && MayName(s, id) && inv.withKids(Started(s, id), b, IdOf(name, id, start), e.children, kids) ==>
            var d := WithNode(b, IdOf(name, id, start), e, kids);
            inv.sound(d) && inv.grown(s, start, d, IdOf(name, id, start), Tree(e.kind, e.props, kids)))
  }

  lemma InvariantsKid(name: nat -> string)
    ensures KidLaws(name, InvariantsOf(name))
  {
    var inv := InvariantsOf(name);
    forall a, nodeId | inv.sound(a) ensures inv.withKids(a, a, nodeId, [], []) {
      NoKids(name, a, nodeId);
    }
    forall a, b, nodeId, children, kids | inv.sound(a) && inv.withKids(a, b, nodeId, children, kids) ensures inv.sound(b) {
      KidsSound(name, a, b, nodeId, children, kids);
    }
    forall a, b, c, nodeId, children, kids, t {:trigger inv.withKids(a, b, nodeId, children, kids), inv.grown(b, b.nextId + 1, c, name(b.nextId + 1), t)}
      | inv.sound(a) && inv.withKids(a, b, nodeId, children, kids) && inv.grown(b, b.nextId + 1, c, name(b.nextId + 1), t)
      ensures inv.withKids(a, AtPlace(c, name(b.nextId + 1), Place(nodeId, |children|)), nodeId, children + [name(b.nextId + 1)], kids + [t])
    {
      KidsSound(name, a, b, nodeId, children, kids);
      KidGrows(name, a, b, c, nodeId, children, kids, t);
    }
  }

  lemma InvariantsNode(name: nat -> string)
    ensures NodeLaws(name, InvariantsOf(name))
  {
    var inv := InvariantsOf(name);
    forall s, id | inv.sound(s) ensures inv.sound(Started(s, id)) {
      StartedSound(name, s, id);
    }
    forall s, id, b, e: Element, kids
      | inv.sound(s) && MayName(s, id) && inv.withKids(Started(s, id), b, IdOf(name, id, Started(s, id).nextId), e.children, kids)
      ensures var start := Started(s, id).nextId;
              var d := WithNode(b, IdOf(name, id, start), e, kids);
              inv.sound(d) && inv.grown(s, start, d, IdOf(name, id, start), Tree(e.kind, e.props, kids))
    {
      NodeGrows(name, s, id, b, e, kids);
    }
  }

  lemma StartedSound(name: nat -> string, s: Store, id: Option<string>)
    requires Sound(name, s)
    ensures Sound(name, Started(s, id))
  {
    forall p | p in s.elements ensures Stands(Started(s, id), p) {
      StandsStays(s, Started(s, id), p);
    }
  }

  lemma {:induction false} AddGrows(rules: Rules, name: nat -> string, inv: Invariants, s: Store, node: Json, id: Option<string>)
    requires KidLaws(name, inv) && NodeLaws(name, inv) && inv.sound(s) && MayName(s, id)
    ensures var (b, r) := AddTo(rules, name, s, node, id);
            && inv.sound(b) && (r.Some? <==> Normal(rules, node).Some?) && (r.None? ==> b == s)
            && (r.Some? ==>
                  && r.value == IdOf(name, id, StartOf(id, s.nextId))
                  && inv.grown(s, StartOf(id, s.nextId), b, r.value, Normal(rules, node).value))
    decreases node, 1, 0
  {
    var a := Started(s, id);
    var nodeId := IdOf(name, id, a.nextId);
    match node
    case Str(text) =>
      assert inv.withKids(a, a, nodeId, Element("Text", TextProps(text), []).children, []);
    case Obj(fields) =>
      if TypeName(fields) != "" {
        var props := TreeProps(fields);
        var kind := rules.kindOf(TypeName(fields), props);
        var n := |ChildNodes(fields)|;
        KidsGrow(rules, name, inv, a, fields, nodeId, n);
        var (b, children) := AddKids(rules, name, a, fields, nodeId, n);
        assert inv.withKids(a, b, nodeId, Element(kind, rules.propsOf(kind, props), children).children, NormalKids(rules, fields, n));
      }
    case _ =>
  }

  lemma {:induction false} KidsGrow(rules: Rules, name: nat -> string, inv: Invariants, a: Store, fields: Props, nodeId: string, n: nat)
    requires KidLaws(name, inv) && NodeLaws(name, inv) && inv.sound(a) && n <= |ChildNodes(fields)|
    ensures var (b, children) := AddKids(rules, name, a, fields, nodeId, n);
            inv.withKids(a, b, nodeId, children, NormalKids(rules, fields, n))
    decreases Obj(fields), 0, n
  {
    if n > 0 {
      ChildSmaller(fields, n - 1);
      var node := ChildNodes(fields)[n - 1];
      var (b, children) := AddKids(rules, name, a, fields, nodeId, n - 1);
      var kids := NormalKids(rules, fields, n - 1);
      KidsGrow(rules, name, inv, a, fields, nodeId, n - 1);
      AddGrows(rules, name, inv, b, node, None);
      assert kids + [] == kids;
    }
  }

  // ---- the flattener ----

  /** The variables that addNode captures. */
  class Flattener {
    const rules: Rules
    const name: nat -> string
    var elements: map<string, Element>
    var nextId: nat
    ghost var places: map<string, Place>
    ghost var trees: map<string, Tree>

    constructor (rules: Rules, name: nat -> string)
      ensures this.rules == rules && this.name == name && Snap() == EMPTY
    {
      this.rules, this.name := rules, name;
      elements, nextId, places, trees := map[], 0, map[], map[];
    }

    ghost function Snap(): Store
      reads this
    {
      Store(elements, nextId, places, trees)
    }

    /** The given id, or the next number's. */
    method NewId(id: Option<string>) returns (nodeId: string)
      modifies this`nextId
      ensures nextId == StartOf(id, old(nextId)) && nodeId == IdOf(name, id, nextId)
    {
      if id.Some? {
        nodeId := id.value;
      } else {
        nextId := nextId + 1;
        nodeId := name(nextId);
      }
    }

    method Put(nodeId: string, e: Element, ghost kids: seq<Tree>)
      modifies this`elements, this`trees
      ensures Snap() == WithNode(old(Snap()), nodeId, e, kids)
    {
      elements := elements[nodeId := e];
      trees := trees[nodeId := Tree(e.kind, e.props, kids)];
    }

    /** addNode: the answer is the node's id, or None for what is not a component. */
    method AddNode(node: Json, id: Option<string>) returns (r: Option<string>)
      modifies this
      decreases node, 1
      ensures (Snap(), r) == AddTo(rules, name, old(Snap()), node, id)
    {
      match node
      case Str(text) =>
        var textId := NewId(id);
        Put(textId, Element("Text", TextProps(text), []), []);
        return Some(textId);
      case Obj(fields) =>
        var kind := TypeName(fields);
        if kind == "" {
          return None;
        }
        var props := TreeProps(fields);
        var normalizedType := rules.kindOf(kind, props);
        var nodeId := NewId(id);
        var children := AddChildren(fields, nodeId);
        Put(nodeId, Element(normalizedType, rules.propsOf(normalizedType, props), children), NormalKids(rules, fields, |ChildNodes(fields)|));
        return Some(nodeId);
      case _ =>
        return None;
    }

    method AddChildren(fields: Props, nodeId: string) returns (children: seq<string>)
      modifies this
      decreases Obj(fields), 0
      ensures (Snap(), children) == AddKids(rules, name, old(Snap()), fields, nodeId, |ChildNodes(fields)|)
    {
      children := [];
      var nodes := ChildNodes(fields);
      for i := 0 to |nodes|
        invariant (Snap(), children) == AddKids(rules, name, old(Snap()), fields, nodeId, i)
      {
        ChildSmaller(fields, i);
        var childId := AddNode(nodes[i], None);
        if childId.Some? {
          places := places[childId.value := Place(nodeId, |children|)];
          children := children + [childId.value];
        }
      }
    }
  }

  lemma NodeNames()
    ensures Names(NodeName)
  {
    forall j: nat, k: nat | NodeName(j) == NodeName(k) ensures j == k {
      assert NodeName(j)[5..] == Itoa(j) && NodeName(k)[5..] == Itoa(k);
      ItoaInjective(j, k);
    }
    forall k: nat ensures NodeName(k) != ROOT {
      assert NodeName(k)[0] == 'n' && ROOT[0] == 'r';
    }
  }

  /** Every element but the root has one place, and stands there. */
  ghost predicate OneParent(elements: map<string, Element>, places: map<string, Place>) {
    && ROOT !in places
    && (forall c :: c in elements && c != ROOT ==>
          && c in places && places[c].parent in elements && places[c].position < |elements[places[c].parent].children|
          && elements[places[c].parent].children[places[c].position] == c)
    && (forall p, j :: p in elements && 0 <= j < |elements[p].children| ==>
          var c := elements[p].children[j]; c in elements && c in places && places[c] == Place(p, j))
  }

  lemma EmptySound(name: nat -> string)
    requires Names(name)
    ensures Sound(name, EMPTY) && KidLaws(name, InvariantsOf(name)) && NodeLaws(name, InvariantsOf(name))
  {
    InvariantsKid(name);
    InvariantsNode(name);
  }

  /** What a root grown in an empty table amounts to. */
  lemma RootGrown(name: nat -> string, b: Store, t: Tree)
    requires Names(name) && Grown(name, EMPTY, 0, b, ROOT, t)
    ensures Represents(b.elements, ROOT, t) && OneParent(b.elements, b.places)
    ensures forall c :: c in b.elements <==> c == ROOT || Numbered(name, c, 0, Size(t) - 1)
  {
    ReadsBack(b, ROOT);
    forall p, j | p in b.elements && 0 <= j < |b.elements[p].children|
      ensures var c := b.elements[p].children[j]; c in b.elements && c in b.places && b.places[c] == Place(p, j)
    {
      assert Stands(b, p);
      assert HangsAs(b, b.elements[p].children[j], Place(p, j), b.trees[p].children[j]);
    }
  }

  const EMPTY: Store := Store(map[], 0, map[], map[])

  /** The ids are exactly the root and node_1 .. node_n, the references form a tree, and
      reading it back from the root gives t. */
  ghost predicate IsTable(name: nat -> string, elements: map<string, Element>, places: map<string, Place>, t: Tree) {
    && (forall c :: c in elements <==> c == ROOT || Numbered(name, c, 0, Size(t) - 1))
    && OneParent(elements, places) && Represents(elements, ROOT, t)
  }

  /** Flattening any component gives a table for its normalised tree. */
  lemma Flattens(rules: Rules, name: nat -> string, node: Json)
    requires Names(name)
    ensures var (b, r) := AddTo(rules, name, EMPTY, node, Some(ROOT));
            && (r.Some? <==> Normal(rules, node).Some?)
            && (r.Some? ==> r.value == ROOT && IsTable(name, b.elements, b.places, Normal(rules, node).value))
  {
    EmptySound(name);
    AddGrows(rules, name, InvariantsOf(name), EMPTY, node, Some(ROOT));
    var (b, r) := AddTo(rules, name, EMPTY, node, Some(ROOT));
    if r.Some? {
      RootGrown(name, b, Normal(rules, node).value);
    }
  }

  /** parseTreeSpec */
  method ParseTreeSpec(rules: Rules, rootNode: Json) returns (spec: Option<ReportSpec>, ghost places: map<string, Place>)
    ensures spec.Some? <==> Normal(rules, rootNode).Some?
    ensures spec.Some? ==> spec.value.root == ROOT && IsTable(NodeName, spec.value.elements, places, Normal(rules, rootNode).value)
  {
    NodeNames();
    Flattens(rules, NodeName, rootNode);
    var fl := new Flattener(rules, NodeName);
    var root := fl.AddNode(rootNode, Some(ROOT));
    places := fl.places;
    if root.None? {
      return None, places;
    }
    return Some(ReportSpec(root.value, fl.elements)), places;
  }

  /** No element has two parents, nor stands twice below one; and none refers to the root. */
  lemma ParentUnique(elements: map<string, Element>, places: map<string, Place>, p: string, j: nat, q: string, k: nat)
    requires OneParent(elements, places) && p in elements && q in elements
    requires j < |elements[p].children| && k < |elements[q].children| && elements[p].children[j] == elements[q].children[k]
    ensures p == q && j == k && elements[p].children[j] in elements && elements[p].children[j] != ROOT
  {
  }
}
