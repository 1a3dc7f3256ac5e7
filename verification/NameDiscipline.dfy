/** When registry and rows stay in step: exactly when no two servers of a workspace offer
    functions of the same name, names of platform tools apart. */
module NameDiscipline {
  import opened FunctionStore
  import opened McpManager
  import opened Registry
  import opened Wrappers

  // ---- what holds without any discipline ----

  ghost predicate RowsSound(env: Env, rows: Rows) {
    forall s :: s in rows ==> ServerOk(env, s) && UniqueNames(rows[s]) && NamesOk(env, rows[s])
  }

  ghost predicate Sound(env: Env, st: State) {
    RowsSound(env, st.rows) && Shaped(env, st.entries)
  }

  /** In every workspace exactly the due tools are visible. */
  ghost predicate Right(env: Env, st: State) {
    forall w, tool :: env.ok(w) && w != "" ==> (tool in VisibleTools(st.entries, w) <==> Due(env.keys, env.platform, st, w, tool))
  }

  lemma RemovedSound(env: Env, st: State, s: Server)
    requires KeysOk(env) && Sound(env, st) && ServerOk(env, s)
    ensures Sound(env, Removed(env.keys, st, s))
  {
    if KeyOf(env.keys, s) in st.servers {
      UnregisterShaped(env, st.entries, s.workspace, st.servers[KeyOf(env.keys, s)].toolNames);
    }
  }

  /** Loading keeps the rows, and the server is then loaded beside the others. */
  lemma LoadSound(env: Env, st: State, s: Server, t: Server)
    requires KeysOk(env) && Sound(env, st) && ServerOk(env, s) && ServerOk(env, t)
    ensures Sound(env, LoadedState(env.keys, st, s)) && LoadedState(env.keys, st, s).rows == st.rows
    ensures IsLoaded(env, LoadedState(env.keys, st, s), t) <==> IsLoaded(env, st, t) || t == s
  {
    var r := Removed(env.keys, st, s);
    RemovedSound(env, st, s);
    RemovedStands(env, st, s, t);
    RegisterAllAt(env, r.entries, s, RowsOf(st.rows, s), s.workspace, "");
    PutStands(env, r.servers, s, Register(env.keys, r, s).servers[KeyOf(env.keys, s)], t);
  }

  lemma SetFlagNames(env: Env, list: seq<Function>, name: string)
    requires UniqueNames(list) && NamesOk(env, list)
    ensures UniqueNames(SetFlag(list, name, true)) && NamesOk(env, SetFlag(list, name, true))
  {
    FindSetFlag(list, name, true, "");
    if Find(list, name).Some? {
      ReplaceMembers(list, Find(list, name).value.(enabled := true));
    }
  }

  /** Switching a function on changes only its flag in the rows. */
  lemma EnableSound(env: Env, st: State, s: Server, name: string)
    requires KeysOk(env) && Sound(env, st) && ServerOk(env, s) && Find(RowsOf(st.rows, s), name).Some?
    ensures var after := Apply(env.keys, st, Toggle(s, name, true, true));
      && Sound(env, after)
      && Find(RowsOf(after.rows, s), name).Some? && Find(RowsOf(after.rows, s), name).value.enabled
      && forall t :: t != s ==> RowsOf(after.rows, t) == RowsOf(st.rows, t)
  {
    var list := RowsOf(st.rows, s);
    if Changes(list, name, true) {
      SetFlagNames(env, list, name);
      FindSetFlag(list, name, true, name);
      var row := Find(SetFlag(list, name, true), name).value;
      assert row in SetFlag(list, name, true) && env.ok(name);
      EnabledShaped(env, st, s, row);
      EnabledParts(env.keys, st, s, name, row);
      PutSound(env, st.rows, s, SetFlag(list, name, true));
    }
  }

  lemma PutSound(env: Env, rows: Rows, s: Server, list: seq<Function>)
    requires RowsSound(env, rows) && ServerOk(env, s) && UniqueNames(list) && NamesOk(env, list)
    ensures RowsSound(env, rows[s := list])
  {
  }

  lemma EnabledParts(keys: Keys, st: State, s: Server, name: string, row: Function)
    requires Changes(RowsOf(st.rows, s), name, true) && Find(SetFlag(RowsOf(st.rows, s), name, true), name) == Some(row)
    ensures var after := Apply(keys, st, Toggle(s, name, true, true));
      && after.rows == st.rows[s := SetFlag(RowsOf(st.rows, s), name, true)]
      && (after.entries == st.entries || after.entries == Tried(keys, st.entries, s, row).0)
  {
  }

  lemma EnabledShaped(env: Env, st: State, s: Server, row: Function)
    requires KeysOk(env) && Shaped(env, st.entries) && ServerOk(env, s) && env.ok(row.name)
    ensures Shaped(env, Tried(env.keys, st.entries, s, row).0)
  {
    BlockedIsPlatform(env, st.entries, s.workspace, row.name);
    if row.name !in env.platform { PutShaped(env, st.entries, s, row); }
  }

  // ---- two servers with the same function ----

  /** The registry has room for one of them only. */
  lemma OneVisible(env: Env, st: State, sa: Server, sb: Server, f: Function, g: Function)
    requires KeysOk(env) && Shaped(env, st.entries) && env.ok(sa.workspace) && sa.workspace == sb.workspace != "" && sa != sb
    requires f.name == g.name && f.name !in env.platform
    ensures ToolOf(sa, f) !in VisibleTools(st.entries, sa.workspace) || ToolOf(sb, g) !in VisibleTools(st.entries, sa.workspace)
  {
    var w := sa.workspace;
    if ToolOf(sa, f) in VisibleTools(st.entries, w) && ToolOf(sb, g) in VisibleTools(st.entries, w) {
      var j :| j in st.entries && Visible(st.entries[j], w) && st.entries[j].tool == ToolOf(sa, f);
      var k :| k in st.entries && Visible(st.entries[k], w) && st.entries[k].tool == ToolOf(sb, g);
      NamesUnique(env, st, w, j, k);
    }
  }

  lemma RowIsDue(env: Env, st: State, s: Server, name: string)
    requires IsLoaded(env, st, s) && name !in env.platform
    requires Find(RowsOf(st.rows, s), name).Some? && Find(RowsOf(st.rows, s), name).value.enabled
    ensures Due(env.keys, env.platform, st, s.workspace, ToolOf(s, Find(RowsOf(st.rows, s), name).value))
  {
    var f := Find(RowsOf(st.rows, s), name).value;
    assert f in RowsOf(st.rows, s);
  }

  /** Both servers loaded and both rows enabled is too much for the registry. */
  lemma BothLoadedWrong(env: Env, st: State, sa: Server, sb: Server, name: string)
    requires KeysOk(env) && Sound(env, st) && ServerOk(env, sa) && sa != sb && sa.workspace == sb.workspace
    requires IsLoaded(env, st, sa) && IsLoaded(env, st, sb) && name !in env.platform
    requires Find(RowsOf(st.rows, sa), name).Some? && Find(RowsOf(st.rows, sa), name).value.enabled
    requires Find(RowsOf(st.rows, sb), name).Some? && Find(RowsOf(st.rows, sb), name).value.enabled
    ensures !Right(env, st)
  {
    var f, g := Find(RowsOf(st.rows, sa), name).value, Find(RowsOf(st.rows, sb), name).value;
    RowIsDue(env, st, sa, name);
    RowIsDue(env, st, sb, name);
    OneVisible(env, st, sa, sb, f, g);
  }

  /** Switch the function on at both servers, then load both. */
  function EnableBoth(sa: Server, sb: Server, name: string): seq<Op> {
    [Toggle(sa, name, true, true)] + [Toggle(sb, name, true, true)] + [Load(sa, true)] + [Load(sb, true)]
  }

  /** Whatever has happened before: as soon as two servers of a workspace have rows of the
      same name, not a platform tool's, these four operations take registry and rows out of
      step. */
  lemma SharedNameBreaks(env: Env, st: State, sa: Server, sb: Server, name: string)
    requires KeysOk(env) && Sound(env, st) && ServerOk(env, sa) && ServerOk(env, sb)
    requires sa != sb && sa.workspace == sb.workspace && name !in env.platform
    requires Find(RowsOf(st.rows, sa), name).Some? && Find(RowsOf(st.rows, sb), name).Some?
    ensures !Right(env, Run(env.keys, st, EnableBoth(sa, sb, name)))
  {
    var one := Apply(env.keys, st, Toggle(sa, name, true, true));
    EnableSound(env, st, sa, name);
    var two := Apply(env.keys, one, Toggle(sb, name, true, true));
    EnableSound(env, one, sb, name);
    var three := LoadedState(env.keys, two, sa);
    LoadSound(env, two, sa, sa);
    var four := LoadedState(env.keys, three, sb);
    LoadSound(env, three, sb, sa);
    LoadSound(env, three, sb, sb);
    BothLoadedWrong(env, four, sa, sb, name);
    RunFour(env.keys, st, Toggle(sa, name, true, true), Toggle(sb, name, true, true), Load(sa, true), Load(sb, true));
  }

  lemma RunSnoc(keys: Keys, st: State, ops: seq<Op>, op: Op)
    ensures Run(keys, st, ops + [op]) == Apply(keys, Run(keys, st, ops), op)
  {
    assert (ops + [op])[..|ops|] == ops;
  }

  lemma RunFour(keys: Keys, st: State, a: Op, b: Op, c: Op, d: Op)
    ensures Run(keys, st, [a] + [b] + [c] + [d]) == Apply(keys, Apply(keys, Apply(keys, Apply(keys, st, a), b), c), d)
  {
    assert [] + [a] == [a];
    RunSnoc(keys, st, [], a);
    RunSnoc(keys, st, [a], b);
    RunSnoc(keys, st, [a] + [b], c);
    RunSnoc(keys, st, [a] + [b] + [c], d);
  }

  lemma {:induction false} RunConcat(keys: Keys, st: State, a: seq<Op>, b: seq<Op>)
    ensures Run(keys, st, a + b) == Run(keys, Run(keys, st, a), b)
    decreases |b|
  {
    if b == [] {
      assert a + b == a;
    } else {
      var init, last := b[..|b| - 1], b[|b| - 1];
      assert a + b == (a + init) + [last];
      RunSnoc(keys, st, a + init, last);
      RunConcat(keys, st, a, init);
    }
  }

  lemma LoadOne(keys: Keys, st: State, s: Server, f: Function)
    requires KeyOf(keys, s) !in st.servers && RowsOf(st.rows, s) == [f] && f.enabled && !Blocked(keys, st.entries, s.workspace, f.name)
    ensures LoadedState(keys, st, s)
         == State(st.rows, st.entries[keys.reg(s.workspace, f.name) := Entry(ToolOf(s, f), s.workspace)], st.servers[KeyOf(keys, s) := Loaded(s, [f.name])])
  {
    var entries := Tried(keys, st.entries, s, f).0;
    var list := RowsOf(st.rows, s);
    assert list[1..] == [] && RegisterAll(keys, entries, s, list[1..]) == (entries, []);
    assert RegisterAll(keys, st.entries, s, list) == (entries, [f.name] + []);
    assert [f.name] + [] == [f.name];
  }

  /** How it looks: two servers offer the same function, both are loaded, the second is
      removed; then the first is still loaded and its row enabled, but its tool is gone. */
  lemma SharedNameGone(keys: Keys, w: string, a: string, b: string, f: Function, g: Function)
    requires keys.state(w, a) != keys.state(w, b) && f.name == g.name && f.enabled && g.enabled
    ensures var sa, sb := Server(w, a), Server(w, b);
            var st := State(map[sa := [f], sb := [g]], map[], map[]);
            var after := Run(keys, st, [Load(sa, true)] + [Load(sb, true)] + [Remove(sb)]);
            && KeyOf(keys, sa) in after.servers && RowsOf(after.rows, sa) == [f]
            && VisibleTools(after.entries, w) == {}
  {
    var sa, sb := Server(w, a), Server(w, b);
    var st := State(map[sa := [f], sb := [g]], map[], map[]);
    LoadOne(keys, st, sa, f);
    var one := Apply(keys, st, Load(sa, true));
    LoadOne(keys, one, sb, g);
    var two := Apply(keys, one, Load(sb, true));
    assert [] + [Load(sa, true)] == [Load(sa, true)];
    RunSnoc(keys, st, [], Load(sa, true));
    RunSnoc(keys, st, [Load(sa, true)], Load(sb, true));
    RunSnoc(keys, st, [Load(sa, true)] + [Load(sb, true)], Remove(sb));
    UnregisterIsMinus(keys, two.entries, w, [g.name]);
    assert KeysOfNames(keys, w, [g.name]) == {keys.reg(w, f.name)} == two.entries.Keys;
    assert two.entries - {keys.reg(w, f.name)} == map[];
  }

  // ---- the exact condition ----

  /** What each server may ever offer. */
  type Catalog = (Server, string) -> bool

  ghost predicate InCatalog(may: Catalog, rows: Rows) {
    forall s, f :: s in rows && f in rows[s] ==> may(s, f.name)
  }

  /** Servers of one workspace that both may offer a name that no platform tool has. */
  ghost predicate Both(env: Env, may: Catalog, a: Server, b: Server, name: string) {
    && ServerOk(env, a) && ServerOk(env, b) && a.workspace == b.workspace
    && env.ok(name) && name !in env.platform && may(a, name) && may(b, name)
  }

  /** No two servers of a workspace may offer the same name, unless a platform tool has it. */
  ghost predicate Disciplined(env: Env, may: Catalog) {
    forall a: Server, b: Server, name :: Both(env, may, a, b, name) ==> a == b
  }

  /** An operation on servers with proper names, whose syncs find what the catalog allows. */
  ghost predicate Allowed(env: Env, may: Catalog, op: Op) {
    && (op.CloseAll? || ServerOk(env, op.server))
    && (op.Sync? && op.found.Some? ==> forall f :: f in op.found.value ==> env.ok(f.name) && may(op.server, f.name))
  }

  ghost predicate AllowedRun(env: Env, may: Catalog, st: State, ops: seq<Op>) {
    (forall op :: op in ops ==> Allowed(env, may, op)) && NeverHalfDone(env.keys, st, ops)
  }

  ghost predicate AlwaysRight(env: Env, may: Catalog, st: State) {
    forall ops :: AllowedRun(env, may, st, ops) ==> Right(env, Run(env.keys, st, ops))
  }

  function StartState(platform: set<string>, rows: Rows): State {
    State(rows, map p | p in platform :: Entry(Platform(p), ""), map[])
  }

  /** The server of a workspace that may offer a name. */
  ghost function OwnerOf(ok: string -> bool, may: Catalog): (string, string) -> string {
    (w: string, n: string) =>
      if exists s :: ok(s) && may(Server(w, s), n) then
        var s :| ok(s) && may(Server(w, s), n); s
      else ""
  }

  lemma CatalogOwns(env: Env, may: Catalog, s: Server, name: string)
    requires Disciplined(env, may) && ServerOk(env, s) && env.ok(name) && may(s, name)
    ensures Owns(env.(owner := OwnerOf(env.ok, may)), s, name)
  {
    assert Server(s.workspace, s.name) == s;
    var t := Server(s.workspace, OwnerOf(env.ok, may)(s.workspace, name));
    assert env.ok(t.name) && may(t, name);
    if name !in env.platform { assert Both(env, may, s, t, name); }
  }

  lemma DisciplineKeeps(env: Env, may: Catalog, rows: Rows, ops: seq<Op>)
    requires KeysOk(env) && RowsSound(env, rows) && InCatalog(may, rows) && Disciplined(env, may)
    requires AllowedRun(env, may, StartState(env.platform, rows), ops)
    ensures Right(env, Run(env.keys, StartState(env.platform, rows), ops))
  {
    var owned := env.(owner := OwnerOf(env.ok, may));
    forall s, f | s in rows && f in rows[s] ensures Owns(owned, s, f.name) {
      CatalogOwns(env, may, s, f.name);
    }
    forall op | op in ops ensures OpOk(owned, op) {
      CatalogOp(env, may, op);
    }
    var start := StartState(env.platform, rows);
    StartAgrees(owned, rows);
    RunAgrees(owned, start, ops);
    forall w, tool | env.ok(w) && w != ""
      ensures tool in VisibleTools(Run(env.keys, start, ops).entries, w) <==> Due(env.keys, env.platform, Run(env.keys, start, ops), w, tool)
    {
      VisibleIsDue(owned, Run(env.keys, start, ops), w, tool);
    }
  }

  lemma CatalogOp(env: Env, may: Catalog, op: Op)
    requires Disciplined(env, may) && Allowed(env, may, op)
    ensures OpOk(env.(owner := OwnerOf(env.ok, may)), op)
  {
    if op.Sync? && op.found.Some? {
      forall f | f in op.found.value ensures Owns(env.(owner := OwnerOf(env.ok, may)), op.server, f.name) {
        CatalogOwns(env, may, op.server, f.name);
      }
    }
  }

  /** A sync of one function gives the server a row of that name. */
  lemma SyncedOne(env: Env, st: State, s: Server, f: Function)
    requires KeysOk(env) && Sound(env, st) && ServerOk(env, s) && env.ok(f.name)
    ensures var after := Apply(env.keys, st, Sync(s, Some([f]), true));
      && Sound(env, after) && Find(RowsOf(after.rows, s), f.name).Some?
      && forall t :: t != s ==> RowsOf(after.rows, t) == RowsOf(st.rows, t)
  {
    var list := Synced(RowsOf(st.rows, s), [f]);
    SyncedNames(env, RowsOf(st.rows, s), f);
    var changed := st.(rows := st.rows[s := list]);
    LoadSound(env, changed, s, s);
  }

  lemma SyncedNames(env: Env, list: seq<Function>, f: Function)
    requires UniqueNames(list) && env.ok(f.name)
    ensures UniqueNames(Synced(list, [f])) && NamesOk(env, Synced(list, [f])) && Find(Synced(list, [f]), f.name).Some?
  {
    assert NamesOf([f]) == {f.name};
    SyncedIs(list, [f], f.name);
    forall g | g in Synced(list, [f]) ensures g.name == f.name {
      SyncedIs(list, [f], g.name);
      FindListed(Synced(list, [f]), g);
    }
  }

  function Offer(name: string): Function {
    Function(name, "", "", true)
  }

  function SyncBoth(sa: Server, sb: Server, name: string): seq<Op> {
    [Sync(sa, Some([Offer(name)]), true)] + [Sync(sb, Some([Offer(name)]), true)]
  }

  lemma BothSynced(env: Env, st: State, sa: Server, sb: Server, name: string)
    requires KeysOk(env) && Sound(env, st) && ServerOk(env, sa) && ServerOk(env, sb) && sa != sb && env.ok(name)
    ensures var after := Run(env.keys, st, SyncBoth(sa, sb, name));
      && Sound(env, after)
      && Find(RowsOf(after.rows, sa), name).Some? && Find(RowsOf(after.rows, sb), name).Some?
  {
    var first, second := Sync(sa, Some([Offer(name)]), true), Sync(sb, Some([Offer(name)]), true);
    SyncedOne(env, st, sa, Offer(name));
    SyncedOne(env, Apply(env.keys, st, first), sb, Offer(name));
    assert [] + [first] == [first];
    RunSnoc(env.keys, st, [], first);
    RunSnoc(env.keys, st, [first], second);
  }

  lemma BreakAllowed(env: Env, may: Catalog, st: State, sa: Server, sb: Server, name: string)
    requires Both(env, may, sa, sb, name)
    ensures AllowedRun(env, may, st, SyncBoth(sa, sb, name) + EnableBoth(sa, sb, name))
  {
    var ops := SyncBoth(sa, sb, name) + EnableBoth(sa, sb, name);
    forall op | op in ops ensures Allowed(env, may, op) && (op.Toggle? ==> op.listed) {
      assert op in SyncBoth(sa, sb, name) || op in EnableBoth(sa, sb, name);
      if op.Sync? {
        assert op.found == Some([Offer(name)]);
      }
    }
    forall i | 0 <= i < |ops| ensures !HalfDone(env.keys, Run(env.keys, st, ops[..i]), ops[i]) {
      assert ops[i] in ops;
    }
  }

  lemma UndisciplinedBreaks(env: Env, may: Catalog, st: State, sa: Server, sb: Server, name: string)
    requires KeysOk(env) && Sound(env, st) && Both(env, may, sa, sb, name) && sa != sb
    ensures !AlwaysRight(env, may, st)
  {
    BothSynced(env, st, sa, sb, name);
    SharedNameBreaks(env, Run(env.keys, st, SyncBoth(sa, sb, name)), sa, sb, name);
    RunConcat(env.keys, st, SyncBoth(sa, sb, name), EnableBoth(sa, sb, name));
    BreakAllowed(env, may, st, sa, sb, name);
  }

  /** From a start with any rows: registry and rows are in step after every sequence of
      operations that finds what the servers may offer, if and only if no two servers of a
      workspace may offer the same name. */
  lemma DisciplineExact(env: Env, may: Catalog, rows: Rows)
    requires KeysOk(env) && RowsSound(env, rows) && InCatalog(may, rows)
    ensures AlwaysRight(env, may, StartState(env.platform, rows)) <==> Disciplined(env, may)
  {
    var start := StartState(env.platform, rows);
    if Disciplined(env, may) {
      forall ops | AllowedRun(env, may, start, ops) ensures Right(env, Run(env.keys, start, ops)) {
        DisciplineKeeps(env, may, rows, ops);
      }
    } else {
      var a: Server, b: Server, name :| Both(env, may, a, b, name) && a != b;
      UndisciplinedBreaks(env, may, start, a, b, name);
    }
  }

  // ---- a fault in the middle of an enable ----

  /** A loaded server with one disabled row: switching the function on while the rows cannot
      be read back leaves its row enabled and its tool invisible. */
  lemma HalfDoneExample(env: Env, s: Server, f: Function)
    requires KeysOk(env) && ServerOk(env, s) && env.ok(f.name) && f.name !in env.platform && !f.enabled
    ensures var ops := [Load(s, true)] + [Toggle(s, f.name, true, false)];
      !Right(env, Run(env.keys, StartState(env.platform, map[s := [f]]), ops))
  {
    var start := StartState(env.platform, map[s := [f]]);
    var loaded := LoadedState(env.keys, start, s);
    OneLoaded(env, s, f);
    var after := WithFlag(loaded, s, f.name, true);
    assert [] + [Load(s, true)] == [Load(s, true)];
    RunSnoc(env.keys, start, [], Load(s, true));
    RunSnoc(env.keys, start, [Load(s, true)], Toggle(s, f.name, true, false));
    RowIsDue(env, after, s, f.name);
    assert after.entries == loaded.entries;
  }

  lemma OneLoaded(env: Env, s: Server, f: Function)
    requires KeysOk(env) && ServerOk(env, s) && env.ok(f.name) && f.name !in env.platform && !f.enabled
    ensures var loaded := LoadedState(env.keys, StartState(env.platform, map[s := [f]]), s);
      && loaded.rows == map[s := [f]] && IsLoaded(env, loaded, s)
      && Find([f], f.name) == Some(f) && SetFlag([f], f.name, true) == [f.(enabled := true)]
      && forall tool :: tool in VisibleTools(loaded.entries, s.workspace) ==> tool.Platform?
  {
    var start := StartState(env.platform, map[s := [f]]);
    var list := [f];
    assert list[1..] == [] && RegisterAll(env.keys, start.entries, s, list[1..]) == (start.entries, []);
    assert [f.(enabled := true)] + list[1..] == [f.(enabled := true)];
    assert LoadedState(env.keys, start, s).entries == start.entries;
  }
}
