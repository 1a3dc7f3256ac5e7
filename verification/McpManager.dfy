/** The manager of MCP servers. It keeps the tool registry in step with the stored function
    rows: in every workspace, after any sequence of operations, the visible tools are the
    platform's and those of the enabled rows of the servers loaded there. */
module McpManager {
  import opened FunctionStore
  import opened Ordering
  import opened Registry
  import opened Strings
  import opened Wrappers

  // ---- the state and the operations on it ----

  datatype Keys = Keys(reg: (string, string) -> string, state: (string, string) -> string)

  datatype Loaded = Loaded(server: Server, toolNames: seq<string>)

  datatype State = State(rows: Rows, entries: Entries, servers: map<string, Loaded>)

  function ToolOf(s: Server, f: Function): Tool {
    Remote(s.name, f.name, f.description, f.schema)
  }

  function KeyOf(keys: Keys, s: Server): string {
    keys.state(s.workspace, s.name)
  }

  /** A platform tool owns the name. */
  predicate Blocked(keys: Keys, entries: Entries, workspace: string, name: string) {
    var tool := Lookup(entries, keys.reg(workspace, name), name);
    tool.Some? && tool.value.Platform?
  }

  function Tried(keys: Keys, entries: Entries, s: Server, f: Function): (Entries, bool) {
    if Blocked(keys, entries, s.workspace, f.name) then (entries, false)
    else (entries[keys.reg(s.workspace, f.name) := Entry(ToolOf(s, f), s.workspace)], true)
  }

  /** The enabled functions of a list are registered; the names of those that could be. */
  function RegisterAll(keys: Keys, entries: Entries, s: Server, list: seq<Function>): (Entries, seq<string>)
    decreases |list|
  {
    if list == [] then (entries, [])
    else if !list[0].enabled then RegisterAll(keys, entries, s, list[1..])
    else
      var tried := Tried(keys, entries, s, list[0]);
      var rest := RegisterAll(keys, tried.0, s, list[1..]);
      (rest.0, if tried.1 then [list[0].name] + rest.1 else rest.1)
  }

  function Unregister(keys: Keys, entries: Entries, workspace: string, names: seq<string>): Entries
    decreases |names|
  {
    if names == [] then entries
    else Unregister(keys, entries, workspace, names[..|names| - 1]) - {keys.reg(workspace, names[|names| - 1])}
  }

  function Removed(keys: Keys, st: State, s: Server): State {
    var k := KeyOf(keys, s);
    if k !in st.servers then st
    else State(st.rows, Unregister(keys, st.entries, s.workspace, st.servers[k].toolNames), st.servers - {k})
  }

  /** A server that is not loaded is loaded from its rows. */
  function Register(keys: Keys, r: State, s: Server): State {
    var reg := RegisterAll(keys, r.entries, s, RowsOf(r.rows, s));
    State(r.rows, reg.0, r.servers[KeyOf(keys, s) := Loaded(s, reg.1)])
  }

  function LoadedState(keys: Keys, st: State, s: Server): State {
    Register(keys, Removed(keys, st, s), s)
  }

  function SyncedState(keys: Keys, st: State, s: Server, found: seq<Function>): State {
    LoadedState(keys, st.(rows := st.rows[s := Synced(RowsOf(st.rows, s), found)]), s)
  }

  function AppendUnique(names: seq<string>, v: string): seq<string> {
    if v in names then names else names + [v]
  }

  /** Without the first occurrence. */
  function RemoveStr(names: seq<string>, v: string): seq<string> {
    if names == [] then [] else if names[0] == v then names[1..] else [names[0]] + RemoveStr(names[1..], v)
  }

  /** What toggling a function whose row changes does to registry and servers. */
  function Toggled(keys: Keys, st: State, s: Server, name: string, enabled: bool): State {
    var rows := st.rows[s := SetFlag(RowsOf(st.rows, s), name, enabled)];
    var k := KeyOf(keys, s);
    if k !in st.servers then st.(rows := rows)
    else
      var names := st.servers[k].toolNames;
      if !enabled then
        State(rows, st.entries - {keys.reg(s.workspace, name)}, st.servers[k := Loaded(st.servers[k].server, RemoveStr(names, name))])
      else match Find(RowsOf(rows, s), name)
        case None => st.(rows := rows)
        case Some(row) =>
          var tried := Tried(keys, st.entries, s, row);
          State(rows, tried.0, if tried.1 then st.servers[k := Loaded(st.servers[k].server, AppendUnique(names, name))] else st.servers)
  }

  /** The registry keys of the names of some servers. */
  function KeysOfServers(keys: Keys, servers: map<string, Loaded>): set<string> {
    set k, n | k in servers && n in servers[k].toolNames :: keys.reg(servers[k].server.workspace, n)
  }

  function Closed(keys: Keys, st: State): State {
    State(st.rows, st.entries - KeysOfServers(keys, st.servers), map[])
  }

  // ---- agreement ----

  /** The naming discipline: names free of NUL make keys unambiguous, and every function name
      of a workspace that is not a platform tool's belongs to one server there. */
  datatype Env = Env(keys: Keys, ok: string -> bool, platform: set<string>, owner: (string, string) -> string)

  ghost predicate KeysOk(env: Env) {
    && (forall w, n, w', n' {:trigger env.keys.reg(w, n), env.keys.reg(w', n')} ::
          env.ok(w) && env.ok(w') && w != "" && w' != "" && env.keys.reg(w, n) == env.keys.reg(w', n') ==> w == w' && n == n')
    && (forall w, n {:trigger env.keys.reg(w, n)} :: w != "" ==> !env.ok(env.keys.reg(w, n)))
    && (forall w, n, w', n' {:trigger env.keys.state(w, n), env.keys.state(w', n')} ::
          env.ok(w) && env.ok(w') && env.keys.state(w, n) == env.keys.state(w', n') ==> w == w' && n == n')
    && (forall p :: p in env.platform ==> env.ok(p))
  }

  predicate ServerOk(env: Env, s: Server) {
    env.ok(s.workspace) && s.workspace != "" && env.ok(s.name)
  }

  /** A server may have a function of this name. */
  predicate Owns(env: Env, s: Server, name: string) {
    env.ok(name) && (name in env.platform || env.owner(s.workspace, name) == s.name)
  }

  ghost predicate Owned(env: Env, s: Server, list: seq<Function>) {
    UniqueNames(list) && forall f :: f in list ==> Owns(env, s, f.name)
  }

  ghost predicate RowsOwned(env: Env, rows: Rows) {
    forall s :: s in rows ==> ServerOk(env, s) && Owned(env, s, rows[s])
  }

  predicate IsLoaded(env: Env, st: State, s: Server) {
    KeyOf(env.keys, s) in st.servers
  }

  /** The entry that a workspace should have for a name: the enabled row of its owner, if that
      server is loaded and no platform tool has the name. */
  function Wanted(env: Env, st: State, w: string, n: string): Option<Entry> {
    var s := Server(w, env.owner(w, n));
    if !IsLoaded(env, st, s) || n in env.platform then None
    else match Find(RowsOf(st.rows, s), n)
      case Some(f) => if f.enabled then Some(Entry(ToolOf(s, f), w)) else None
      case None => None
  }

  function At(entries: Entries, key: string): Option<Entry> {
    if key in entries then Some(entries[key]) else None
  }

  /** Entries are the platform's tools, and remote tools under their keys. */
  ghost predicate Shaped(env: Env, entries: Entries) {
    && (forall p :: p in env.platform ==> At(entries, p) == Some(Entry(Platform(p), "")))
    && (forall k :: k in entries && k !in env.platform ==> ShapedAt(env, k, entries[k]))
  }

  predicate ShapedAt(env: Env, k: string, e: Entry) {
    e.tool.Remote? && env.ok(e.workspace) && e.workspace != "" && env.ok(e.tool.name)
    && e.tool.name !in env.platform && k == env.keys.reg(e.workspace, e.tool.name)
  }

  /** The names a loaded server remembers are those of its registered functions, each once. */
  ghost predicate NamesAgree(env: Env, st: State, k: string)
    requires k in st.servers
  {
    var l := st.servers[k];
    && ServerOk(env, l.server) && k == KeyOf(env.keys, l.server)
    && (forall i, j :: 0 <= i < j < |l.toolNames| ==> l.toolNames[i] != l.toolNames[j])
    && (forall n :: n in l.toolNames <==>
          env.ok(n) && env.owner(l.server.workspace, n) == l.server.name && Wanted(env, st, l.server.workspace, n).Some?)
  }

  ghost predicate EntriesAgree(env: Env, st: State) {
    forall w, n :: env.ok(w) && w != "" && env.ok(n) ==> At(st.entries, env.keys.reg(w, n)) == Wanted(env, st, w, n)
  }

  ghost predicate Agrees(env: Env, st: State) {
    && RowsOwned(env, st.rows) && Shaped(env, st.entries) && EntriesAgree(env, st)
    && (forall k :: k in st.servers ==> NamesAgree(env, st, k))
  }

  // ---- registering and unregistering ----

  lemma BlockedIsPlatform(env: Env, entries: Entries, w: string, n: string)
    requires KeysOk(env) && Shaped(env, entries) && env.ok(w) && w != "" && env.ok(n)
    ensures Blocked(env.keys, entries, w, n) <==> n in env.platform
  {
    var k := env.keys.reg(w, n);
    assert !env.ok(k) && k !in env.platform;
    forall x | x in entries && x !in env.platform ensures !env.ok(x) {
      assert ShapedAt(env, x, entries[x]);
      assert !env.ok(env.keys.reg(entries[x].workspace, entries[x].tool.name));
    }
    if k in entries {
      assert ShapedAt(env, k, entries[k]);
      var e := entries[k];
      assert env.keys.reg(e.workspace, e.tool.name) == env.keys.reg(w, n);
    } else if n in env.platform {
      assert At(entries, n) == Some(Entry(Platform(n), ""));
    }
  }

  lemma PutShaped(env: Env, entries: Entries, s: Server, f: Function)
    requires KeysOk(env) && Shaped(env, entries) && ServerOk(env, s) && env.ok(f.name) && f.name !in env.platform
    ensures Shaped(env, entries[env.keys.reg(s.workspace, f.name) := Entry(ToolOf(s, f), s.workspace)])
  {
    var k := env.keys.reg(s.workspace, f.name);
    assert !env.ok(k);
    var after := entries[k := Entry(ToolOf(s, f), s.workspace)];
    forall p | p in env.platform ensures At(after, p) == Some(Entry(Platform(p), "")) {
      assert At(entries, p) == Some(Entry(Platform(p), ""));
    }
  }

  ghost predicate NamesOk(env: Env, list: seq<Function>) {
    forall f :: f in list ==> env.ok(f.name)
  }

  predicate Registers(env: Env, list: seq<Function>, n: string) {
    Find(list, n).Some? && Find(list, n).value.enabled && n !in env.platform
  }

  /** Registering a list touches only the entries of its enabled rows. */
  lemma {:induction false} RegisterAllAt(env: Env, entries: Entries, s: Server, list: seq<Function>, w: string, n: string)
    requires KeysOk(env) && Shaped(env, entries) && ServerOk(env, s) && UniqueNames(list) && NamesOk(env, list)
    requires env.ok(w) && w != ""
    ensures Shaped(env, RegisterAll(env.keys, entries, s, list).0)
    ensures At(RegisterAll(env.keys, entries, s, list).0, env.keys.reg(w, n))
         == if w == s.workspace && Registers(env, list, n) then Some(Entry(ToolOf(s, Find(list, n).value), w)) else At(entries, env.keys.reg(w, n))
    decreases |list|
  {
    if list != [] {
      if list[0].enabled {
        var tried := Tried(env.keys, entries, s, list[0]);
        BlockedIsPlatform(env, entries, s.workspace, list[0].name);
        if tried.1 { PutShaped(env, entries, s, list[0]); }
        RegisterAllAt(env, tried.0, s, list[1..], w, n);
        assert tried.1 && env.keys.reg(w, n) == env.keys.reg(s.workspace, list[0].name) ==> w == s.workspace && n == list[0].name;
      } else {
        RegisterAllAt(env, entries, s, list[1..], w, n);
      }
    }
  }

  lemma RegistersCons(env: Env, list: seq<Function>)
    requires list != [] && UniqueNames(list)
    ensures forall n :: Registers(env, list, n) <==>
              if n == list[0].name then list[0].enabled && n !in env.platform else Registers(env, list[1..], n)
    ensures !Registers(env, list[1..], list[0].name)
  {
  }

  lemma {:induction false} RegisterAllNames(env: Env, entries: Entries, s: Server, list: seq<Function>)
    requires KeysOk(env) && Shaped(env, entries) && ServerOk(env, s) && UniqueNames(list) && NamesOk(env, list)
    ensures var names := RegisterAll(env.keys, entries, s, list).1;
            Distinct(names) && forall n :: n in names <==> Registers(env, list, n)
    decreases |list|
  {
    if list != [] {
      RegistersCons(env, list);
      if list[0].enabled {
        var tried := Tried(env.keys, entries, s, list[0]);
        BlockedIsPlatform(env, entries, s.workspace, list[0].name);
        if tried.1 { PutShaped(env, entries, s, list[0]); }
        RegisterAllNames(env, tried.0, s, list[1..]);
      } else {
        RegisterAllNames(env, entries, s, list[1..]);
      }
    }
  }

  lemma {:induction false} UnregisterAt(env: Env, entries: Entries, w0: string, names: seq<string>, k: string)
    ensures At(Unregister(env.keys, entries, w0, names), k)
         == if exists n :: n in names && k == env.keys.reg(w0, n) then None else At(entries, k)
    decreases |names|
  {
    if names != [] {
      var init, last := names[..|names| - 1], names[|names| - 1];
      UnregisterAt(env, entries, w0, init, k);
      assert forall n :: n in names <==> n in init || n == last;
    }
  }

  lemma UnregisterKey(env: Env, entries: Entries, w0: string, names: seq<string>, w: string, n: string)
    requires KeysOk(env) && env.ok(w0) && w0 != "" && env.ok(w) && w != ""
    ensures At(Unregister(env.keys, entries, w0, names), env.keys.reg(w, n))
         == if w == w0 && n in names then None else At(entries, env.keys.reg(w, n))
  {
    UnregisterAt(env, entries, w0, names, env.keys.reg(w, n));
  }

  lemma FewerShaped(env: Env, entries: Entries, fewer: Entries)
    requires Shaped(env, entries) && (forall k :: At(fewer, k) == At(entries, k) || (At(fewer, k) == None && !env.ok(k)))
    requires forall p :: p in env.platform ==> env.ok(p)
    ensures Shaped(env, fewer)
  {
    forall p | p in env.platform ensures At(fewer, p) == Some(Entry(Platform(p), "")) {
      assert At(entries, p) == Some(Entry(Platform(p), ""));
    }
    forall k | k in fewer && k !in env.platform ensures ShapedAt(env, k, fewer[k]) {
      assert At(fewer, k) == At(entries, k);
      assert ShapedAt(env, k, entries[k]);
    }
  }

  lemma UnregisterShaped(env: Env, entries: Entries, w0: string, names: seq<string>)
    requires KeysOk(env) && Shaped(env, entries) && w0 != ""
    ensures Shaped(env, Unregister(env.keys, entries, w0, names))
  {
    var fewer := Unregister(env.keys, entries, w0, names);
    forall k ensures At(fewer, k) == At(entries, k) || (At(fewer, k) == None && !env.ok(k)) {
      UnregisterAt(env, entries, w0, names, k);
    }
    FewerShaped(env, entries, fewer);
  }

  // ---- removing ----

  lemma ServerAtKey(env: Env, st: State, s: Server)
    requires KeysOk(env) && Agrees(env, st) && ServerOk(env, s) && IsLoaded(env, st, s)
    ensures NamesAgree(env, st, KeyOf(env.keys, s)) && st.servers[KeyOf(env.keys, s)].server == s
  {
    var k := KeyOf(env.keys, s);
    assert NamesAgree(env, st, k);
    var t := st.servers[k].server;
    assert env.keys.state(t.workspace, t.name) == env.keys.state(s.workspace, s.name);
  }

  /** Two states in which a name's owner stands the same want the same. */
  lemma WantedSame(env: Env, a: State, b: State, w: string, n: string)
    requires var s := Server(w, env.owner(w, n));
             (IsLoaded(env, a, s) <==> IsLoaded(env, b, s)) && RowsOf(a.rows, s) == RowsOf(b.rows, s)
    ensures Wanted(env, a, w, n) == Wanted(env, b, w, n)
  {
  }

  lemma RemovedStands(env: Env, st: State, s: Server, t: Server)
    requires KeysOk(env) && ServerOk(env, s) && env.ok(t.workspace)
    ensures IsLoaded(env, Removed(env.keys, st, s), t) <==> IsLoaded(env, st, t) && t != s
    ensures Removed(env.keys, st, s).rows == st.rows
  {
    assert KeyOf(env.keys, t) == KeyOf(env.keys, s) ==> t == s by {
      assert env.keys.state(t.workspace, t.name) == env.keys.state(s.workspace, s.name) ==> t.workspace == s.workspace && t.name == s.name;
    }
  }

  lemma RemovedAt(env: Env, st: State, s: Server, w: string, n: string)
    requires KeysOk(env) && Agrees(env, st) && ServerOk(env, s) && env.ok(w) && w != "" && env.ok(n)
    ensures At(Removed(env.keys, st, s).entries, env.keys.reg(w, n)) == Wanted(env, Removed(env.keys, st, s), w, n)
  {
    var after := Removed(env.keys, st, s);
    assert At(st.entries, env.keys.reg(w, n)) == Wanted(env, st, w, n);
    if IsLoaded(env, st, s) {
      var k := KeyOf(env.keys, s);
      ServerAtKey(env, st, s);
      UnregisterKey(env, st.entries, s.workspace, st.servers[k].toolNames, w, n);
      RemovedStands(env, st, s, Server(w, env.owner(w, n)));
    }
  }

  lemma RemovedNames(env: Env, st: State, s: Server, k: string)
    requires KeysOk(env) && Agrees(env, st) && ServerOk(env, s) && k in Removed(env.keys, st, s).servers
    ensures NamesAgree(env, Removed(env.keys, st, s), k)
  {
    var after := Removed(env.keys, st, s);
    assert NamesAgree(env, st, k);
    var l := st.servers[k];
    forall n | env.owner(l.server.workspace, n) == l.server.name
      ensures Wanted(env, after, l.server.workspace, n) == Wanted(env, st, l.server.workspace, n)
    {
      RemovedStands(env, st, s, l.server);
      WantedSame(env, after, st, l.server.workspace, n);
    }
  }

  lemma RemovedAgrees(env: Env, st: State, s: Server)
    requires KeysOk(env) && Agrees(env, st) && ServerOk(env, s)
    ensures Agrees(env, Removed(env.keys, st, s)) && !IsLoaded(env, Removed(env.keys, st, s), s)
  {
    var after := Removed(env.keys, st, s);
    RemovedStands(env, st, s, s);
    forall w, n | env.ok(w) && w != "" && env.ok(n) ensures At(after.entries, env.keys.reg(w, n)) == Wanted(env, after, w, n) {
      RemovedAt(env, st, s, w, n);
    }
    forall k | k in after.servers ensures NamesAgree(env, after, k) {
      RemovedNames(env, st, s, k);
    }
    if IsLoaded(env, st, s) {
      UnregisterShaped(env, st.entries, s.workspace, st.servers[KeyOf(env.keys, s)].toolNames);
    }
  }

  // ---- loading and syncing ----

  lemma PutStands(env: Env, servers: map<string, Loaded>, s: Server, l: Loaded, t: Server)
    requires KeysOk(env) && ServerOk(env, s) && env.ok(t.workspace)
    ensures KeyOf(env.keys, t) in servers[KeyOf(env.keys, s) := l] <==> KeyOf(env.keys, t) in servers || t == s
  {
    assert env.keys.state(t.workspace, t.name) == env.keys.state(s.workspace, s.name) ==> t.workspace == s.workspace && t.name == s.name;
  }

  lemma RowsOfOwned(env: Env, rows: Rows, s: Server)
    requires RowsOwned(env, rows)
    ensures Owned(env, s, RowsOf(rows, s)) && NamesOk(env, RowsOf(rows, s))
  {
  }

  lemma RegisterAt(env: Env, r: State, s: Server, w: string, n: string)
    requires KeysOk(env) && Agrees(env, r) && ServerOk(env, s) && !IsLoaded(env, r, s) && env.ok(w) && w != "" && env.ok(n)
    ensures At(Register(env.keys, r, s).entries, env.keys.reg(w, n)) == Wanted(env, Register(env.keys, r, s), w, n)
  {
    var list := RowsOf(r.rows, s);
    var after := Register(env.keys, r, s);
    RowsOfOwned(env, r.rows, s);
    RegisterAllAt(env, r.entries, s, list, w, n);
    assert At(r.entries, env.keys.reg(w, n)) == Wanted(env, r, w, n);
    var t := Server(w, env.owner(w, n));
    PutStands(env, r.servers, s, after.servers[KeyOf(env.keys, s)], t);
    if t != s {
      WantedSame(env, after, r, w, n);
    }
  }

  lemma RegisterNames(env: Env, r: State, s: Server, k: string)
    requires KeysOk(env) && Agrees(env, r) && ServerOk(env, s) && !IsLoaded(env, r, s) && k in Register(env.keys, r, s).servers
    ensures NamesAgree(env, Register(env.keys, r, s), k)
  {
    var after := Register(env.keys, r, s);
    RowsOfOwned(env, r.rows, s);
    RegisterAllNames(env, r.entries, s, RowsOf(r.rows, s));
    if k == KeyOf(env.keys, s) {
      forall n ensures n in after.servers[k].toolNames <==>
          env.ok(n) && env.owner(s.workspace, n) == s.name && Wanted(env, after, s.workspace, n).Some?
      {
        assert Registers(env, RowsOf(r.rows, s), n) ==> Owns(env, s, n);
      }
    } else {
      assert NamesAgree(env, r, k);
      var l := r.servers[k];
      PutStands(env, r.servers, s, after.servers[KeyOf(env.keys, s)], l.server);
      forall n | env.owner(l.server.workspace, n) == l.server.name
        ensures Wanted(env, after, l.server.workspace, n) == Wanted(env, r, l.server.workspace, n)
      {
        WantedSame(env, after, r, l.server.workspace, n);
      }
    }
  }

  lemma RegisterAgrees(env: Env, r: State, s: Server)
    requires KeysOk(env) && Agrees(env, r) && ServerOk(env, s) && !IsLoaded(env, r, s)
    ensures Agrees(env, Register(env.keys, r, s))
  {
    var after := Register(env.keys, r, s);
    forall w, n | env.ok(w) && w != "" && env.ok(n) ensures At(after.entries, env.keys.reg(w, n)) == Wanted(env, after, w, n) {
      RegisterAt(env, r, s, w, n);
    }
    forall k | k in after.servers ensures NamesAgree(env, after, k) {
      RegisterNames(env, r, s, k);
    }
    RowsOfOwned(env, r.rows, s);
    RegisterAllAt(env, r.entries, s, RowsOf(r.rows, s), s.workspace, "");
  }

  lemma RowsWanted(env: Env, r: State, s: Server, list: seq<Function>, w: string, n: string)
    requires !IsLoaded(env, r, s)
    ensures Wanted(env, r.(rows := r.rows[s := list]), w, n) == Wanted(env, r, w, n)
  {
    if Server(w, env.owner(w, n)) != s { WantedSame(env, r.(rows := r.rows[s := list]), r, w, n); }
  }

  lemma NamesAgreeSame(env: Env, a: State, b: State, k: string)
    requires k in a.servers && k in b.servers && b.servers[k] == a.servers[k] && NamesAgree(env, a, k)
    requires forall n :: env.owner(a.servers[k].server.workspace, n) == a.servers[k].server.name ==>
               (Wanted(env, b, a.servers[k].server.workspace, n).Some? <==> Wanted(env, a, a.servers[k].server.workspace, n).Some?)
    ensures NamesAgree(env, b, k)
  {
  }

  /** The rows of a server that is not loaded may change in any way. */
  lemma RowsAgree(env: Env, r: State, s: Server, list: seq<Function>)
    requires Agrees(env, r) && ServerOk(env, s) && !IsLoaded(env, r, s) && Owned(env, s, list)
    ensures Agrees(env, r.(rows := r.rows[s := list]))
  {
    var after := r.(rows := r.rows[s := list]);
    forall w, n | env.ok(w) && w != "" && env.ok(n) ensures At(after.entries, env.keys.reg(w, n)) == Wanted(env, after, w, n) {
      RowsWanted(env, r, s, list, w, n);
    }
    forall k | k in after.servers ensures NamesAgree(env, after, k) {
      forall n { RowsWanted(env, r, s, list, r.servers[k].server.workspace, n); }
      NamesAgreeSame(env, r, after, k);
    }
  }

  lemma LoadAgrees(env: Env, st: State, s: Server)
    requires KeysOk(env) && Agrees(env, st) && ServerOk(env, s)
    ensures Agrees(env, LoadedState(env.keys, st, s))
  {
    RemovedAgrees(env, st, s);
    RemovedStands(env, st, s, s);
    RegisterAgrees(env, Removed(env.keys, st, s), s);
  }

  lemma SyncedOwned(env: Env, s: Server, list: seq<Function>, found: seq<Function>)
    requires Owned(env, s, list) && forall f :: f in found ==> Owns(env, s, f.name)
    ensures Owned(env, s, Synced(list, found))
  {
    SyncedIs(list, found, "");
    forall f | f in Synced(list, found) ensures Owns(env, s, f.name) {
      SyncedIs(list, found, f.name);
      FindListed(Synced(list, found), f);
    }
  }

  lemma {:induction false} FindListed(list: seq<Function>, f: Function)
    requires f in list
    ensures Find(list, f.name).Some?
  {
    if list[0].name != f.name { FindListed(list[1..], f); }
  }

  lemma SyncAgrees(env: Env, st: State, s: Server, found: seq<Function>)
    requires KeysOk(env) && Agrees(env, st) && ServerOk(env, s)
    requires forall f :: f in found ==> Owns(env, s, f.name)
    ensures Agrees(env, SyncedState(env.keys, st, s, found))
  {
    var list := Synced(RowsOf(st.rows, s), found);
    var r := Removed(env.keys, st, s);
    RowsOfOwned(env, st.rows, s);
    SyncedOwned(env, s, RowsOf(st.rows, s), found);
    RemovedAgrees(env, st, s);
    RemovedStands(env, st, s, s);
    RowsAgree(env, r, s, list);
    var changed := r.(rows := r.rows[s := list]);
    RegisterAgrees(env, changed, s);
    assert SyncedState(env.keys, st, s, found) == Register(env.keys, changed, s);
  }

  // ---- toggling ----

  lemma {:induction false} RemoveStrDistinct(names: seq<string>, v: string)
    requires Distinct(names)
    ensures Distinct(RemoveStr(names, v)) && forall n :: n in RemoveStr(names, v) <==> n in names && n != v
  {
    if names != [] {
      var rest := names[1..];
      assert names == [names[0]] + rest && names[0] !in rest;
      if names[0] != v { RemoveStrDistinct(rest, v); }
    }
  }

  lemma AppendUniqueDistinct(names: seq<string>, v: string)
    requires Distinct(names)
    ensures Distinct(AppendUnique(names, v)) && forall n :: n in AppendUnique(names, v) <==> n in names || n == v
  {
  }

  /** What toggling a row of a loaded server does to the rows and the registry. */
  ghost predicate TogglesTo(env: Env, st: State, after: State, s: Server, row: Function, enabled: bool) {
    && Find(RowsOf(st.rows, s), row.name) == Some(row) && UniqueNames(RowsOf(st.rows, s))
    && IsLoaded(env, st, s) && Owns(env, s, row.name)
    && after.rows == st.rows[s := SetFlag(RowsOf(st.rows, s), row.name, enabled)]
    && after.servers.Keys == st.servers.Keys
    && after.entries == (if !enabled then st.entries - {env.keys.reg(s.workspace, row.name)}
                         else if row.name in env.platform then st.entries
                         else st.entries[env.keys.reg(s.workspace, row.name) := Entry(ToolOf(s, row.(enabled := true)), s.workspace)])
  }

  function NamesAfter(env: Env, names: seq<string>, name: string, enabled: bool): seq<string> {
    if !enabled then RemoveStr(names, name) else if name in env.platform then names else AppendUnique(names, name)
  }

  lemma ToggledParts(env: Env, st: State, s: Server, row: Function, enabled: bool)
    requires KeysOk(env) && Shaped(env, st.entries) && ServerOk(env, s) && IsLoaded(env, st, s)
    requires Find(RowsOf(st.rows, s), row.name) == Some(row) && Owned(env, s, RowsOf(st.rows, s))
    ensures var after, k := Toggled(env.keys, st, s, row.name, enabled), KeyOf(env.keys, s);
            && TogglesTo(env, st, after, s, row, enabled)
            && after.servers == st.servers[k := Loaded(st.servers[k].server, NamesAfter(env, st.servers[k].toolNames, row.name, enabled))]
  {
    FindSetFlag(RowsOf(st.rows, s), row.name, enabled, row.name);
    BlockedIsPlatform(env, st.entries, s.workspace, row.name);
    var k := KeyOf(env.keys, s);
    assert st.servers == st.servers[k := Loaded(st.servers[k].server, st.servers[k].toolNames)];
  }

  lemma ToggledWanted(env: Env, st: State, after: State, s: Server, row: Function, enabled: bool, w: string, n: string)
    requires TogglesTo(env, st, after, s, row, enabled)
    ensures Wanted(env, after, w, n)
         == if w == s.workspace && n == row.name then
              (if enabled && row.name !in env.platform then Some(Entry(ToolOf(s, row.(enabled := true)), w)) else None)
            else Wanted(env, st, w, n)
  {
    FindSetFlag(RowsOf(st.rows, s), row.name, enabled, n);
    if Server(w, env.owner(w, n)) != s {
      WantedSame(env, after, st, w, n);
    }
  }

  lemma ToggledAt(env: Env, st: State, after: State, s: Server, row: Function, enabled: bool, w: string, n: string)
    requires KeysOk(env) && ServerOk(env, s) && TogglesTo(env, st, after, s, row, enabled) && row.enabled != enabled
    requires env.ok(w) && w != "" && At(st.entries, env.keys.reg(w, n)) == Wanted(env, st, w, n)
    ensures At(after.entries, env.keys.reg(w, n)) == Wanted(env, after, w, n)
  {
    ToggledWanted(env, st, after, s, row, enabled, w, n);
    assert env.keys.reg(w, n) == env.keys.reg(s.workspace, row.name) ==> w == s.workspace && n == row.name;
  }

  lemma ToggledNames(env: Env, st: State, after: State, s: Server, row: Function, enabled: bool, k: string)
    requires TogglesTo(env, st, after, s, row, enabled) && row.enabled != enabled
    requires k in st.servers && NamesAgree(env, st, k) && k in after.servers
    requires after.servers[k] == if st.servers[k].server == s
      then Loaded(s, NamesAfter(env, st.servers[k].toolNames, row.name, enabled)) else st.servers[k]
    ensures NamesAgree(env, after, k)
  {
    var t := st.servers[k].server;
    forall n { ToggledWanted(env, st, after, s, row, enabled, t.workspace, n); }
    if t == s {
      RemoveStrDistinct(st.servers[k].toolNames, row.name);
      AppendUniqueDistinct(st.servers[k].toolNames, row.name);
    } else {
      NamesAgreeSame(env, st, after, k);
    }
  }

  lemma ToggledShaped(env: Env, st: State, after: State, s: Server, row: Function, enabled: bool)
    requires KeysOk(env) && Shaped(env, st.entries) && ServerOk(env, s) && TogglesTo(env, st, after, s, row, enabled)
    ensures Shaped(env, after.entries)
  {
    if !enabled {
      FewerShaped(env, st.entries, after.entries);
    } else if row.name !in env.platform {
      PutShaped(env, st.entries, s, row.(enabled := true));
    }
  }

  lemma SetFlagOwned(env: Env, s: Server, list: seq<Function>, name: string, enabled: bool)
    requires Owned(env, s, list)
    ensures Owned(env, s, SetFlag(list, name, enabled))
  {
    FindSetFlag(list, name, enabled, "");
    if Find(list, name).Some? {
      ReplaceMembers(list, Find(list, name).value.(enabled := enabled));
    }
  }

  lemma {:induction false} ReplaceMembers(list: seq<Function>, row: Function)
    ensures forall f :: f in Replace(list, row) ==> f in list || f == row
  {
    if list != [] && list[0].name != row.name { ReplaceMembers(list[1..], row); }
  }

  lemma LoadedToggleAgrees(env: Env, st: State, after: State, s: Server, row: Function, enabled: bool)
    requires KeysOk(env) && Agrees(env, st) && ServerOk(env, s) && TogglesTo(env, st, after, s, row, enabled) && row.enabled != enabled
    requires RowsOwned(env, after.rows)
    requires forall k :: k in after.servers ==> NamesAgree(env, after, k)
    ensures Agrees(env, after)
  {
    ToggledShaped(env, st, after, s, row, enabled);
    forall w, n | env.ok(w) && w != "" && env.ok(n) ensures At(after.entries, env.keys.reg(w, n)) == Wanted(env, after, w, n) {
      ToggledAt(env, st, after, s, row, enabled, w, n);
    }
  }

  lemma LoadedToggleNames(env: Env, st: State, after: State, s: Server, row: Function, enabled: bool)
    requires KeysOk(env) && Agrees(env, st) && ServerOk(env, s) && TogglesTo(env, st, after, s, row, enabled) && row.enabled != enabled
    requires var k := KeyOf(env.keys, s);
             after.servers == st.servers[k := Loaded(st.servers[k].server, NamesAfter(env, st.servers[k].toolNames, row.name, enabled))]
    ensures forall k :: k in after.servers ==> NamesAgree(env, after, k)
  {
    ServerAtKey(env, st, s);
    forall k | k in after.servers ensures NamesAgree(env, after, k) {
      assert NamesAgree(env, st, k);
      ToggledNames(env, st, after, s, row, enabled, k);
    }
  }

  lemma ToggleLoaded(env: Env, st: State, s: Server, row: Function, enabled: bool)
    requires KeysOk(env) && Agrees(env, st) && ServerOk(env, s) && IsLoaded(env, st, s)
    requires Find(RowsOf(st.rows, s), row.name) == Some(row) && row.enabled != enabled && Owned(env, s, RowsOf(st.rows, s))
    requires RowsOwned(env, st.rows[s := SetFlag(RowsOf(st.rows, s), row.name, enabled)])
    ensures Agrees(env, Toggled(env.keys, st, s, row.name, enabled))
  {
    ToggledParts(env, st, s, row, enabled);
    var after := Toggled(env.keys, st, s, row.name, enabled);
    LoadedToggleNames(env, st, after, s, row, enabled);
    LoadedToggleAgrees(env, st, after, s, row, enabled);
  }

  lemma ToggleAgrees(env: Env, st: State, s: Server, name: string, enabled: bool)
    requires KeysOk(env) && Agrees(env, st) && ServerOk(env, s) && Changes(RowsOf(st.rows, s), name, enabled)
    ensures Agrees(env, Toggled(env.keys, st, s, name, enabled))
  {
    RowsOfOwned(env, st.rows, s);
    SetFlagOwned(env, s, RowsOf(st.rows, s), name, enabled);
    if IsLoaded(env, st, s) {
      ToggleLoaded(env, st, s, Find(RowsOf(st.rows, s), name).value, enabled);
    } else {
      RowsAgree(env, st, s, SetFlag(RowsOf(st.rows, s), name, enabled));
    }
  }

  // ---- closing ----

  lemma CloseAgrees(env: Env, st: State)
    requires KeysOk(env) && Agrees(env, st)
    ensures Agrees(env, Closed(env.keys, st))
  {
    var after := Closed(env.keys, st);
    forall w, n | env.ok(w) && w != "" && env.ok(n) ensures At(after.entries, env.keys.reg(w, n)) == Wanted(env, after, w, n) {
      assert At(st.entries, env.keys.reg(w, n)) == Wanted(env, st, w, n);
      if Wanted(env, st, w, n).Some? {
        var k := KeyOf(env.keys, Server(w, env.owner(w, n)));
        assert NamesAgree(env, st, k);
        var t := st.servers[k].server;
        assert env.keys.state(t.workspace, t.name) == env.keys.state(w, env.owner(w, n));
        assert n in st.servers[k].toolNames;
      }
    }
    ClosedShaped(env, st);
  }

  lemma ClosedShaped(env: Env, st: State)
    requires KeysOk(env) && Shaped(env, st.entries) && forall k :: k in st.servers ==> st.servers[k].server.workspace != ""
    ensures Shaped(env, Closed(env.keys, st).entries)
  {
    FewerShaped(env, st.entries, Closed(env.keys, st).entries);
  }

  // ---- whole runs ----

  /** The operations, with the faults the database and the remote server may cause. */
  datatype Op =
    | Load(server: Server, listed: bool)
    | Sync(server: Server, found: Option<seq<Function>>, listed: bool)
    | Toggle(server: Server, name: string, enabled: bool, listed: bool)
    | Remove(server: Server)
    | CloseAll

  /** Enabling a function of a loaded server when its rows cannot be read back. */
  predicate HalfDone(keys: Keys, st: State, op: Op) {
    op.Toggle? && op.enabled && !op.listed && KeyOf(keys, op.server) in st.servers
    && Changes(RowsOf(st.rows, op.server), op.name, true)
  }

  function WithFlag(st: State, s: Server, name: string, enabled: bool): State {
    st.(rows := st.rows[s := SetFlag(RowsOf(st.rows, s), name, enabled)])
  }

  function Apply(keys: Keys, st: State, op: Op): State {
    match op
    case Load(s, listed) => if listed then LoadedState(keys, st, s) else Removed(keys, st, s)
    case Sync(s, found, listed) =>
      if found.None? then st
      else if listed then SyncedState(keys, st, s, found.value)
      else Removed(keys, st, s).(rows := st.rows[s := Synced(RowsOf(st.rows, s), found.value)])
    case Toggle(s, name, enabled, listed) =>
      if !Changes(RowsOf(st.rows, s), name, enabled) then st
      else if HalfDone(keys, st, op) then WithFlag(st, s, name, true)
      else Toggled(keys, st, s, name, enabled)
    case Remove(s) => Removed(keys, st, s)
    case CloseAll => Closed(keys, st)
  }

  ghost predicate OpOk(env: Env, op: Op) {
    && (op.CloseAll? || ServerOk(env, op.server))
    && (op.Sync? && op.found.Some? ==> forall f :: f in op.found.value ==> Owns(env, op.server, f.name))
  }

  lemma SyncFailsAgrees(env: Env, st: State, s: Server, found: seq<Function>)
    requires KeysOk(env) && Agrees(env, st) && ServerOk(env, s)
    requires forall f :: f in found ==> Owns(env, s, f.name)
    ensures Agrees(env, Removed(env.keys, st, s).(rows := st.rows[s := Synced(RowsOf(st.rows, s), found)]))
  {
    RemovedAgrees(env, st, s);
    RemovedStands(env, st, s, s);
    RowsOfOwned(env, st.rows, s);
    SyncedOwned(env, s, RowsOf(st.rows, s), found);
    RowsAgree(env, Removed(env.keys, st, s), s, Synced(RowsOf(st.rows, s), found));
  }

  lemma OpAgrees(env: Env, st: State, op: Op)
    requires KeysOk(env) && Agrees(env, st) && OpOk(env, op) && !HalfDone(env.keys, st, op)
    ensures Agrees(env, Apply(env.keys, st, op))
  {
    match op
    case Load(s, listed) => if listed { LoadAgrees(env, st, s); } else { RemovedAgrees(env, st, s); }
    case Sync(s, found, listed) =>
      if found.Some? {
        if listed { SyncAgrees(env, st, s, found.value); } else { SyncFailsAgrees(env, st, s, found.value); }
      }
    case Toggle(s, name, enabled, listed) =>
      if Changes(RowsOf(st.rows, s), name, enabled) { ToggleAgrees(env, st, s, name, enabled); }
    case Remove(s) => RemovedAgrees(env, st, s);
    case CloseAll => CloseAgrees(env, st);
  }

  /** Reading the rows back fails in the middle of an enable: registry and rows then disagree,
      unless a platform tool has the name anyway. */
  lemma HalfDoneDisagrees(env: Env, st: State, op: Op)
    requires KeysOk(env) && Agrees(env, st) && OpOk(env, op) && HalfDone(env.keys, st, op)
    ensures Agrees(env, Apply(env.keys, st, op)) <==> op.name in env.platform
  {
    var s, name := op.server, op.name;
    var after := WithFlag(st, s, name, true);
    RowsOfOwned(env, st.rows, s);
    var row := Find(RowsOf(st.rows, s), name).value;
    assert row in RowsOf(st.rows, s);
    FindSetFlag(RowsOf(st.rows, s), name, true, name);
    assert At(st.entries, env.keys.reg(s.workspace, name)) == Wanted(env, st, s.workspace, name) == None;
    if name in env.platform {
      ToggleAgrees(env, st, s, name, true);
      BlockedIsPlatform(env, st.entries, s.workspace, name);
      assert Toggled(env.keys, st, s, name, true) == after;
    } else {
      assert Wanted(env, after, s.workspace, name).Some?;
    }
  }

  function Run(keys: Keys, st: State, ops: seq<Op>): State
    decreases |ops|
  {
    if ops == [] then st else Apply(keys, Run(keys, st, ops[..|ops| - 1]), ops[|ops| - 1])
  }

  ghost predicate NeverHalfDone(keys: Keys, st: State, ops: seq<Op>) {
    forall i :: 0 <= i < |ops| ==> !HalfDone(keys, Run(keys, st, ops[..i]), ops[i])
  }

  /** After any sequence of operations registry and rows agree. */
  lemma {:induction false} RunAgrees(env: Env, st: State, ops: seq<Op>)
    requires KeysOk(env) && Agrees(env, st) && (forall op :: op in ops ==> OpOk(env, op)) && NeverHalfDone(env.keys, st, ops)
    ensures Agrees(env, Run(env.keys, st, ops))
    decreases |ops|
  {
    if ops != [] {
      var init, last := ops[..|ops| - 1], ops[|ops| - 1];
      forall i | 0 <= i < |init| ensures !HalfDone(env.keys, Run(env.keys, st, init[..i]), init[i]) {
        assert init[..i] == ops[..i];
      }
      RunAgrees(env, st, init);
      OpAgrees(env, Run(env.keys, st, init), last);
    }
  }

  // ---- what a workspace sees ----

  /** The tools that should be visible: the platform's, and those of the enabled rows of the
      loaded servers of the workspace whose names no platform tool has. */
  ghost predicate Due(keys: Keys, platform: set<string>, st: State, w: string, tool: Tool) {
    || (tool.Platform? && tool.name in platform)
    || exists s: Server, f: Function ::
         f in RowsOf(st.rows, s) && f.enabled && f.name !in platform
         && s.workspace == w && KeyOf(keys, s) in st.servers && tool == Remote(s.name, f.name, f.description, f.schema)
  }

  lemma {:induction false} UniqueFind(list: seq<Function>, f: Function)
    requires UniqueNames(list) && f in list
    ensures Find(list, f.name) == Some(f)
  {
    if list[0] != f {
      UniqueFind(list[1..], f);
    }
  }

  lemma RowIsWanted(env: Env, st: State, s: Server, f: Function)
    requires RowsOwned(env, st.rows) && f in RowsOf(st.rows, s) && IsLoaded(env, st, s)
    requires f.enabled && f.name !in env.platform
    ensures env.ok(f.name) && Wanted(env, st, s.workspace, f.name) == Some(Entry(ToolOf(s, f), s.workspace))
  {
    UniqueFind(RowsOf(st.rows, s), f);
    assert Owns(env, s, f.name);
  }

  lemma VisibleIsDue(env: Env, st: State, w: string, tool: Tool)
    requires KeysOk(env) && Agrees(env, st) && env.ok(w) && w != ""
    ensures tool in VisibleTools(st.entries, w) <==> Due(env.keys, env.platform, st, w, tool)
  {
    if k :| k in st.entries && Visible(st.entries[k], w) && st.entries[k].tool == tool {
      if k in env.platform {
        assert At(st.entries, k) == Some(Entry(Platform(k), ""));
      } else {
        assert ShapedAt(env, k, st.entries[k]);
        WantedIsDue(env, st, w, tool);
      }
    }
    if Due(env.keys, env.platform, st, w, tool) {
      DueIsVisible(env, st, w, tool);
    }
  }

  lemma WantedIsDue(env: Env, st: State, w: string, tool: Tool)
    requires EntriesAgree(env, st) && env.ok(w) && w != "" && env.ok(tool.name)
    requires At(st.entries, env.keys.reg(w, tool.name)) == Some(Entry(tool, w))
    ensures Due(env.keys, env.platform, st, w, tool)
  {
    assert Wanted(env, st, w, tool.name) == Some(Entry(tool, w));
    var s := Server(w, env.owner(w, tool.name));
    var f := Find(RowsOf(st.rows, s), tool.name).value;
    assert f in RowsOf(st.rows, s);
  }

  lemma DueIsVisible(env: Env, st: State, w: string, tool: Tool)
    requires KeysOk(env) && Agrees(env, st) && env.ok(w) && w != ""
    requires Due(env.keys, env.platform, st, w, tool)
    ensures tool in VisibleTools(st.entries, w)
  {
    var k := if tool.Platform? then tool.name else env.keys.reg(w, tool.name);
    if tool.Platform? {
      assert At(st.entries, k) == Some(Entry(Platform(k), ""));
    } else {
      var s, f :| f in RowsOf(st.rows, s) && f.enabled && f.name !in env.platform
        && s.workspace == w && KeyOf(env.keys, s) in st.servers && tool == Remote(s.name, f.name, f.description, f.schema);
      RowIsWanted(env, st, s, f);
      assert tool == ToolOf(s, f);
      assert At(st.entries, k) == Wanted(env, st, w, tool.name);
    }
    assert k in st.entries && Visible(st.entries[k], w) && st.entries[k].tool == tool;
  }

  /** Two visible entries never have tools of the same name. */
  lemma NamesUnique(env: Env, st: State, w: string, k: string, k': string)
    requires KeysOk(env) && Shaped(env, st.entries)
    requires k in st.entries && k' in st.entries && Visible(st.entries[k], w) && Visible(st.entries[k'], w)
    requires st.entries[k].tool.name == st.entries[k'].tool.name
    ensures k == k'
  {
    ShapedKey(env, st.entries, k);
    ShapedKey(env, st.entries, k');
  }

  lemma ShapedKey(env: Env, entries: Entries, k: string)
    requires Shaped(env, entries) && k in entries
    ensures if k in env.platform then entries[k] == Entry(Platform(k), "")
            else ShapedAt(env, k, entries[k])
  {
    if k in env.platform { assert At(entries, k) == Some(Entry(Platform(k), "")); }
  }

  /** However the visible tools are listed, they are the due ones, and no two positions of
      the list have the same name. */
  lemma VisibleUnique(env: Env, st: State, w: string, order: seq<string>, defs: seq<Tool>)
    requires KeysOk(env) && Agrees(env, st) && env.ok(w) && w != "" && IsListing(st.entries, w, order, defs)
    ensures forall tool :: tool in defs <==> Due(env.keys, env.platform, st, w, tool)
    ensures forall i, j :: 0 <= i < j < |defs| ==> defs[i].name != defs[j].name
  {
    forall tool ensures tool in defs <==> Due(env.keys, env.platform, st, w, tool) {
      VisibleIsDue(env, st, w, tool);
      ListedIsVisible(st.entries, w, order, defs, tool);
    }
    forall i, j | 0 <= i < j < |defs| ensures defs[i].name != defs[j].name {
      assert order[i] in order && order[j] in order;
      if defs[i].name == defs[j].name { NamesUnique(env, st, w, order[i], order[j]); }
    }
  }

  lemma ListedIsVisible(entries: Entries, w: string, order: seq<string>, defs: seq<Tool>, tool: Tool)
    requires IsListing(entries, w, order, defs)
    ensures tool in defs <==> tool in VisibleTools(entries, w)
  {
    if tool in defs {
      var i :| 0 <= i < |defs| && defs[i] == tool;
      assert order[i] in order;
    }
    if k :| k in entries && Visible(entries[k], w) && entries[k].tool == tool {
      var i :| 0 <= i < |order| && order[i] == k;
      assert defs[i] == tool;
    }
  }

  /** Every server of the workspace stands in b as in a. */
  ghost predicate Stand(keys: Keys, a: State, b: State, w: string) {
    forall s: Server :: s.workspace == w ==>
      RowsOf(b.rows, s) == RowsOf(a.rows, s) && (KeyOf(keys, s) in b.servers <==> KeyOf(keys, s) in a.servers)
  }

  lemma DueStands(keys: Keys, platform: set<string>, a: State, b: State, w: string, tool: Tool)
    requires Stand(keys, a, b, w) && Due(keys, platform, a, w, tool)
    ensures Due(keys, platform, b, w, tool)
  {
    if tool.Remote? {
      var s, f :| f in RowsOf(a.rows, s) && f.enabled && f.name !in platform
        && s.workspace == w && KeyOf(keys, s) in a.servers && tool == ToolOf(s, f);
      assert f in RowsOf(b.rows, s);
    }
  }

  lemma SeesSame(env: Env, a: State, b: State, w: string)
    requires KeysOk(env) && Agrees(env, a) && Agrees(env, b) && env.ok(w) && w != ""
    requires Stand(env.keys, a, b, w) && Stand(env.keys, b, a, w)
    ensures VisibleTools(a.entries, w) == VisibleTools(b.entries, w)
  {
    forall tool ensures tool in VisibleTools(a.entries, w) <==> tool in VisibleTools(b.entries, w) {
      VisibleIsDue(env, a, w, tool);
      VisibleIsDue(env, b, w, tool);
      if tool in VisibleTools(a.entries, w) { DueStands(env.keys, env.platform, a, b, w, tool); }
      if tool in VisibleTools(b.entries, w) { DueStands(env.keys, env.platform, b, a, w, tool); }
    }
  }

  /** An operation on a server of one workspace changes nothing that another one sees. */
  lemma OthersUntouched(env: Env, st: State, op: Op, w: string)
    requires KeysOk(env) && Agrees(env, st) && OpOk(env, op) && !HalfDone(env.keys, st, op)
    requires env.ok(w) && w != "" && !op.CloseAll? && op.server.workspace != w
    ensures VisibleTools(Apply(env.keys, st, op).entries, w) == VisibleTools(st.entries, w)
  {
    var after := Apply(env.keys, st, op);
    OpAgrees(env, st, op);
    forall s: Server | s.workspace == w
      ensures RowsOf(after.rows, s) == RowsOf(st.rows, s) && (KeyOf(env.keys, s) in after.servers <==> KeyOf(env.keys, s) in st.servers)
    {
      OthersStand(env, st, op, s);
    }
    SeesSame(env, after, st, w);
  }

  lemma OthersStand(env: Env, st: State, op: Op, t: Server)
    requires KeysOk(env) && OpOk(env, op) && env.ok(t.workspace) && !op.CloseAll? && op.server != t
    ensures IsLoaded(env, Apply(env.keys, st, op), t) <==> IsLoaded(env, st, t)
    ensures RowsOf(Apply(env.keys, st, op).rows, t) == RowsOf(st.rows, t)
  {
    var s := op.server;
    assert env.keys.state(t.workspace, t.name) == env.keys.state(s.workspace, s.name) ==> t.workspace == s.workspace && t.name == s.name;
  }

  // ---- the keys of the program ----

  predicate NulFree(s: string) {
    '\0' !in s
  }

  function StateKey(workspace: string, server: string): string {
    workspace + ['\0'] + server
  }

  const KEYS: Keys := Keys(RegKey, StateKey)

  /** Names without NUL make the program's keys unambiguous. */
  lemma ProgramKeysOk(platform: set<string>, owner: (string, string) -> string)
    requires forall p :: p in platform ==> NulFree(p)
    ensures KeysOk(Env(KEYS, NulFree, platform, owner))
  {
    forall w, n, w', n' | NulFree(w) && NulFree(w') && w != "" && w' != "" && RegKey(w, n) == RegKey(w', n') ensures w == w' && n == n' {
      RegKeyInjective(w, n, w', n');
    }
    forall w, n | w != "" ensures !NulFree(RegKey(w, n)) {
      RegKeyNoName(w, n);
    }
    forall w, n, w', n' | NulFree(w) && NulFree(w') && StateKey(w, n) == StateKey(w', n') ensures w == w' && n == n' {
      SeparatedUnique(w, n, w', n', '\0');
    }
  }

  /** At the start: the platform's tools are registered and no server is loaded. */
  lemma StartAgrees(env: Env, rows: Rows)
    requires KeysOk(env) && RowsOwned(env, rows)
    ensures Agrees(env, State(rows, map p | p in env.platform :: Entry(Platform(p), ""), map[]))
  {
  }

  // ---- the manager ----

  /** The manager over its store and registry. */
  class Manager {
    const keys: Keys
    const store: Store
    const registry: Registry
    var servers: map<string, Loaded>

    constructor (keys: Keys, store: Store, registry: Registry)
      requires registry.regKey == keys.reg
      ensures Valid() && this.keys == keys && this.store == store && this.registry == registry && servers == map[]
    {
      this.keys, this.store, this.registry := keys, store, registry;
      servers := map[];
    }

    ghost predicate Valid()
      reads this
    {
      registry.regKey == keys.reg
    }

    ghost function Current(): State
      reads this, store, registry
    {
      State(store.rows, registry.entries, servers)
    }

    method TryRegister(s: Server, f: Function) returns (registered: bool)
      requires Valid()
      modifies registry
      ensures (registry.entries, registered) == Tried(keys, old(registry.entries), s, f)
    {
      var existing := registry.GetForWorkspace(s.workspace, f.name);
      if existing.Some? {
        if existing.value.Platform? {
          return false;
        }
      }
      registry.RegisterForWorkspace(s.workspace, ToolOf(s, f));
      return true;
    }

    method RemoveServer(s: Server)
      requires Valid()
      modifies this, registry
      ensures Current() == Removed(keys, old(Current()), s)
    {
      var key := keys.state(s.workspace, s.name);
      if key !in servers {
        return;
      }
      var st := servers[key];
      servers := servers - {key};
      ghost var _ := UnregisterNames(s.workspace, st.toolNames);
    }

    /** LoadFromCache; listed tells whether reading the rows succeeds. */
    method LoadFromCache(s: Server, listed: bool) returns (ok: bool)
      requires Valid()
      modifies this, registry
      ensures Current() == Apply(keys, old(Current()), Load(s, listed)) && ok == listed
    {
      RemoveServer(s);
      if !listed {
        return false;
      }
      var funcs := store.ListFunctions(s);
      var toolNames: seq<string> := [];
      ghost var before := registry.entries;
      assert funcs[0..] == funcs;
      for i := 0 to |funcs|
        invariant servers == Removed(keys, old(Current()), s).servers && store.rows == old(store.rows)
        invariant Continues(keys, before, s, funcs, registry.entries, funcs[i..], toolNames)
      {
        assert funcs[i..][1..] == funcs[i + 1..];
        if funcs[i].enabled {
          var registered := TryRegister(s, funcs[i]);
          if registered {
            toolNames := toolNames + [funcs[i].name];
          }
        }
      }
      assert funcs[|funcs|..] == [] && toolNames + [] == toolNames;
      servers := servers[keys.state(s.workspace, s.name) := Loaded(s, toolNames)];
      return true;
    }

    /** The table is emptied first, then the tools of every server go, in any order. */
    method CloseAll()
      requires Valid()
      modifies this, registry
      ensures Current() == Closed(keys, old(Current()))
    {
      var rest := servers;
      servers := map[];
      ghost var gone: set<string> := {};
      while |rest| > 0
        invariant registry.entries == old(registry.entries) - gone && servers == map[] && store.rows == old(store.rows)
        invariant gone + KeysOfServers(keys, rest) == KeysOfServers(keys, old(servers))
        decreases |rest|
      {
        var k := AnyKey(rest);
        KeysOfMore(keys, rest, k);
        ghost var more := UnregisterNames(rest[k].server.workspace, rest[k].toolNames);
        MinusMinus(old(registry.entries), gone, more);
        Regroup(gone, more, KeysOfServers(keys, rest - {k}), KeysOfServers(keys, rest));
        gone := gone + more;
        rest := rest - {k};
      }
      assert gone == KeysOfServers(keys, old(servers)) by { assert KeysOfServers(keys, rest) == {}; }
    }

    method UnregisterNames(workspace: string, names: seq<string>) returns (ghost gone: set<string>)
      requires Valid()
      modifies registry
      ensures gone == KeysOfNames(keys, workspace, names) && registry.entries == old(registry.entries) - gone
      ensures registry.entries == Unregister(keys, old(registry.entries), workspace, names)
    {
      for i := 0 to |names|
        invariant registry.entries == Unregister(keys, old(registry.entries), workspace, names[..i])
      {
        var _ := registry.UnregisterForWorkspace(workspace, names[i]);
        assert names[..i + 1][..i] == names[..i];
      }
      assert names[..|names|] == names;
      gone := KeysOfNames(keys, workspace, names);
      UnregisterIsMinus(keys, old(registry.entries), workspace, names);
    }

    /** Sync; found is what the server lists, None if it cannot be reached. */
    method SyncServer(s: Server, found: Option<seq<Function>>, listed: bool) returns (ok: bool)
      requires Valid()
      modifies this, registry, store
      ensures Current() == Apply(keys, old(Current()), Sync(s, found, listed)) && (ok <==> found.Some? && listed)
    {
      if found.None? {
        return false;
      }
      store.SyncFunctions(s, found.value);
      ok := LoadFromCache(s, listed);
    }

    method SetFunctionEnabled(s: Server, name: string, enabled: bool, listed: bool) returns (ok: bool)
      requires Valid()
      modifies this, registry, store
      ensures Current() == Apply(keys, old(Current()), Toggle(s, name, enabled, listed))
    {
      var changed := store.SetFunctionEnabled(s, name, enabled);
      if !changed {
        return false;
      }
      var key := keys.state(s.workspace, s.name);
      if key !in servers {
        return true;
      }
      var st := servers[key];
      if enabled {
        if !listed {
          return false;
        }
        var funcs := store.ListFunctions(s);
        var target := Find(funcs, name);
        if target.None? {
          return false;
        }
        var registered := TryRegister(s, target.value);
        if registered {
          servers := servers[key := Loaded(st.server, AppendUnique(st.toolNames, name))];
        }
      } else {
        var _ := registry.UnregisterForWorkspace(s.workspace, name);
        servers := servers[key := Loaded(st.server, RemoveStr(st.toolNames, name))];
      }
      return true;
    }
  }

  function KeysOfNames(keys: Keys, w: string, names: seq<string>): set<string> {
    set n | n in names :: keys.reg(w, n)
  }

  lemma {:induction false} UnregisterIsMinus(keys: Keys, entries: Entries, w: string, names: seq<string>)
    ensures Unregister(keys, entries, w, names) == entries - KeysOfNames(keys, w, names)
    decreases |names|
  {
    if names == [] {
      assert KeysOfNames(keys, w, names) == {};
    } else {
      var init, last := names[..|names| - 1], names[|names| - 1];
      UnregisterIsMinus(keys, entries, w, init);
      assert names == init + [last];
      assert KeysOfNames(keys, w, names) == KeysOfNames(keys, w, init) + {keys.reg(w, last)};
    }
  }

  lemma InKeysOfServers(keys: Keys, servers: map<string, Loaded>, j: string, n: string)
    requires j in servers && n in servers[j].toolNames
    ensures keys.reg(servers[j].server.workspace, n) in KeysOfServers(keys, servers)
  {
  }

  lemma KeysOfMore(keys: Keys, servers: map<string, Loaded>, k: string)
    requires k in servers
    ensures KeysOfServers(keys, servers) == KeysOfServers(keys, servers - {k}) + KeysOfNames(keys, servers[k].server.workspace, servers[k].toolNames)
  {
    forall x | x in KeysOfServers(keys, servers)
      ensures x in KeysOfServers(keys, servers - {k}) || x in KeysOfNames(keys, servers[k].server.workspace, servers[k].toolNames)
    {
      var j, n :| j in servers && n in servers[j].toolNames && x == keys.reg(servers[j].server.workspace, n);
      if j != k { InKeysOfServers(keys, servers - {k}, j, n); }
    }
    forall x | x in KeysOfServers(keys, servers - {k}) ensures x in KeysOfServers(keys, servers) {
      var j, n :| j in servers - {k} && n in (servers - {k})[j].toolNames && x == keys.reg((servers - {k})[j].server.workspace, n);
      InKeysOfServers(keys, servers, j, n);
    }
  }

  method AnyKey(servers: map<string, Loaded>) returns (k: string)
    requires |servers| > 0
    ensures k in servers && |servers - {k}| < |servers|
  {
    assert servers.Keys != {};
    k :| k in servers.Keys;
    assert (servers - {k}).Keys == servers.Keys - {k};
  }

  lemma Regroup(gone: set<string>, more: set<string>, a: set<string>, b: set<string>)
    requires b == a + more
    ensures gone + more + a == gone + b
  {
  }

  lemma MinusMinus(entries: Entries, a: set<string>, b: set<string>)
    ensures entries - a - b == entries - (a + b)
  {
  }

  /** Registering the rest of a list completes what has been registered of it. */
  ghost predicate Continues(keys: Keys, before: Entries, s: Server, list: seq<Function>, entries: Entries, rest: seq<Function>, names: seq<string>) {
    var all, more := RegisterAll(keys, before, s, list), RegisterAll(keys, entries, s, rest);
    all.0 == more.0 && all.1 == names + more.1
  }
}
