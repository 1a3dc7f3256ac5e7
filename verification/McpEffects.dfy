/** What each operation of the manager does to rows and loaded servers, row by row, and what
    follows for the tools a workspace sees. */
module McpEffects {
  import opened FunctionStore
  import opened McpManager
  import opened NameDiscipline
  import opened Registry
  import opened Wrappers

  /** The row of a name at a server. */
  function RowAt(st: State, s: Server, name: string): Option<Function> {
    Find(RowsOf(st.rows, s), name)
  }

  /** How an operation must change the row of a name: a sync as AfterSync says, switching sets
      the flag of a row that is there, and nothing else changes a row. */
  ghost predicate RowChanges(op: Op, t: Server, name: string, was: Option<Function>, now: Option<Function>) {
    if op.Sync? && op.server == t && op.found.Some? then AfterSync(was, op.found.value, name, now)
    else if op.Toggle? && op.server == t && op.name == name && was.Some? then now == Some(was.value.(enabled := op.enabled))
    else now == was
  }

  /** Which servers an operation must leave loaded: loading and a successful sync load theirs,
      unless its rows cannot be listed; removing unloads it, closing unloads all. */
  predicate LoadsAs(op: Op, t: Server, was: bool) {
    match op
    case Load(s, listed) => if t == s then listed else was
    case Sync(s, found, listed) => if t == s && found.Some? then listed else was
    case Toggle(_, _, _, _) => was
    case Remove(s) => was && t != s
    case CloseAll => false
  }

  lemma LoadRows(keys: Keys, st: State, s: Server)
    ensures LoadedState(keys, st, s).rows == st.rows && Removed(keys, st, s).rows == st.rows
  {
  }

  lemma RowAfter(env: Env, st: State, op: Op, t: Server, name: string)
    requires !op.CloseAll? ==> UniqueNames(RowsOf(st.rows, op.server))
    ensures RowChanges(op, t, name, RowAt(st, t, name), RowAt(Apply(env.keys, st, op), t, name))
  {
    match op
    case Load(s, listed) => LoadRows(env.keys, st, s);
    case Sync(s, found, listed) =>
      if found.Some? {
        LoadRows(env.keys, st.(rows := st.rows[s := Synced(RowsOf(st.rows, s), found.value)]), s);
        SyncedRow(RowsOf(st.rows, s), found.value, name);
      }
    case Toggle(s, n, enabled, listed) => ToggleRow(env, st, s, n, enabled, listed, t, name);
    case Remove(s) => LoadRows(env.keys, st, s);
    case CloseAll =>
  }

  lemma ToggleRow(env: Env, st: State, s: Server, n: string, enabled: bool, listed: bool, t: Server, name: string)
    requires UniqueNames(RowsOf(st.rows, s))
    ensures RowAt(Apply(env.keys, st, Toggle(s, n, enabled, listed)), t, name)
         == if t == s && n == name && RowAt(st, t, name).Some? then Some(RowAt(st, t, name).value.(enabled := enabled)) else RowAt(st, t, name)
  {
    FindSetFlag(RowsOf(st.rows, s), n, enabled, name);
    ToggledRows(env.keys, st, s, n, enabled);
  }

  lemma ToggledRows(keys: Keys, st: State, s: Server, n: string, enabled: bool)
    ensures Toggled(keys, st, s, n, enabled).rows == st.rows[s := SetFlag(RowsOf(st.rows, s), n, enabled)]
  {
  }

  lemma LoadedAfter(env: Env, st: State, op: Op, t: Server)
    requires KeysOk(env) && ServerOk(env, t) && (!op.CloseAll? ==> ServerOk(env, op.server))
    ensures IsLoaded(env, Apply(env.keys, st, op), t) <==> LoadsAs(op, t, IsLoaded(env, st, t))
  {
    match op
    case Load(s, listed) => LoadStands(env, st, s, t);
    case Sync(s, found, listed) =>
      LoadStands(env, st, s, t);
      if found.Some? { LoadStands(env, st.(rows := st.rows[s := Synced(RowsOf(st.rows, s), found.value)]), s, t); }
    case Toggle(s, n, enabled, listed) =>
    case Remove(s) => LoadStands(env, st, s, t);
    case CloseAll =>
  }

  lemma LoadStands(env: Env, st: State, s: Server, t: Server)
    requires KeysOk(env) && ServerOk(env, s) && ServerOk(env, t)
    ensures IsLoaded(env, LoadedState(env.keys, st, s), t) <==> IsLoaded(env, st, t) || t == s
    ensures IsLoaded(env, Removed(env.keys, st, s), t) <==> IsLoaded(env, st, t) && t != s
  {
    var r := Removed(env.keys, st, s);
    RemovedStands(env, st, s, t);
    PutStands(env, r.servers, s, Register(env.keys, r, s).servers[KeyOf(env.keys, s)], t);
  }

  // ---- a disabled function stays disabled ----

  /** An operation that neither drops nor switches on the function. */
  predicate Spares(op: Op, s: Server, name: string) {
    && (op.Sync? && op.server == s && op.found.Some? ==> name in NamesOf(op.found.value))
    && !(op.Toggle? && op.server == s && op.name == name && op.enabled)
  }

  predicate IsOff(st: State, s: Server, name: string) {
    RowAt(st, s, name).Some? && !RowAt(st, s, name).value.enabled
  }

  lemma OpSpares(env: Env, st: State, op: Op, s: Server, name: string)
    requires IsOff(st, s, name) && Spares(op, s, name) && (!op.CloseAll? ==> UniqueNames(RowsOf(st.rows, op.server)))
    ensures IsOff(Apply(env.keys, st, op), s, name)
  {
    RowAfter(env, st, op, s, name);
    if op.Sync? && op.server == s && op.found.Some? {
      var f :| f in op.found.value && f.name == name;
    }
  }

  /** Through any operations that spare it a disabled function keeps its row and stays
      disabled, and no workspace sees its tool. */
  lemma {:induction false} StaysOff(env: Env, st: State, ops: seq<Op>, s: Server, name: string)
    requires KeysOk(env) && Agrees(env, st) && (forall op :: op in ops ==> OpOk(env, op)) && NeverHalfDone(env.keys, st, ops)
    requires ServerOk(env, s) && IsOff(st, s, name) && name !in env.platform
    requires forall op :: op in ops ==> Spares(op, s, name)
    ensures IsOff(Run(env.keys, st, ops), s, name)
    ensures forall tool :: tool in VisibleTools(Run(env.keys, st, ops).entries, s.workspace) ==>
              !(tool.Remote? && tool.server == s.name && tool.name == name)
    decreases |ops|
  {
    if ops != [] {
      var init, last := ops[..|ops| - 1], ops[|ops| - 1];
      assert last in ops && forall op :: op in init ==> op in ops;
      EarlierFine(env, st, ops);
      StaysOff(env, st, init, s, name);
      RunAgrees(env, st, init);
      if !last.CloseAll? { RowsOfOwned(env, Run(env.keys, st, init).rows, last.server); }
      OpSpares(env, Run(env.keys, st, init), last, s, name);
    }
    RunAgrees(env, st, ops);
    OffUnseen(env, Run(env.keys, st, ops), s, name);
  }

  lemma EarlierFine(env: Env, st: State, ops: seq<Op>)
    requires ops != [] && NeverHalfDone(env.keys, st, ops)
    ensures NeverHalfDone(env.keys, st, ops[..|ops| - 1])
  {
    var init := ops[..|ops| - 1];
    forall i | 0 <= i < |init| ensures !HalfDone(env.keys, Run(env.keys, st, init[..i]), init[i]) {
      assert init[..i] == ops[..i];
    }
  }

  lemma OffUnseen(env: Env, st: State, s: Server, name: string)
    requires KeysOk(env) && Agrees(env, st) && ServerOk(env, s) && IsOff(st, s, name) && name !in env.platform
    ensures forall tool :: tool in VisibleTools(st.entries, s.workspace) ==> !(tool.Remote? && tool.server == s.name && tool.name == name)
  {
    forall tool | tool in VisibleTools(st.entries, s.workspace) ensures !(tool.Remote? && tool.server == s.name && tool.name == name) {
      VisibleIsDue(env, st, s.workspace, tool);
      if tool.Remote? && tool.server == s.name && tool.name == name {
        var t: Server, f: Function :| f in RowsOf(st.rows, t) && f.enabled && f.name !in env.platform
          && t.workspace == s.workspace && KeyOf(env.keys, t) in st.servers && tool == Remote(t.name, f.name, f.description, f.schema);
        RowsOfOwned(env, st.rows, s);
        assert t == s;
        UniqueFind(RowsOf(st.rows, s), f);
      }
    }
  }
}
