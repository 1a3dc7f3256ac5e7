/** The table of MCP functions: per server the functions it was found to offer, in the order
    of their names, with the flag that switches each on or off. */
module FunctionStore {
  import opened Ordering
  import opened Wrappers

  datatype Server = Server(workspace: string, name: string)

  datatype Function = Function(name: string, description: string, schema: string, enabled: bool)

  /** The row of a name. */
  function Find(list: seq<Function>, name: string): (r: Option<Function>)
    ensures r.Some? ==> r.value.name == name && r.value in list
  {
    if list == [] then None else if list[0].name == name then Some(list[0]) else Find(list[1..], name)
  }

  /** Names are a primary key. */
  ghost predicate UniqueNames(list: seq<Function>) {
    list != [] ==> Find(list[1..], list[0].name).None? && UniqueNames(list[1..])
  }

  function NamesOf(funcs: seq<Function>): set<string> {
    set f | f in funcs :: f.name
  }

  // ---- the statements of a sync ----

  /** DELETE of the rows whose name is not in names. */
  function Keep(list: seq<Function>, names: set<string>): seq<Function> {
    if list == [] then []
    else if list[0].name in names then [list[0]] + Keep(list[1..], names)
    else Keep(list[1..], names)
  }

  function SchemaOr(schema: string): string {
    if schema == "" then "{}" else schema
  }

  /** The row an upsert leaves: a row that was there keeps its flag, a new one is enabled. */
  function Fresh(was: Option<Function>, f: Function): Function {
    Function(f.name, f.description, SchemaOr(f.schema), was.None? || was.value.enabled)
  }

  /** INSERT .. ON DUPLICATE KEY UPDATE */
  function Upsert(list: seq<Function>, f: Function): seq<Function> {
    if Find(list, f.name).Some? then Replace(list, Fresh(Find(list, f.name), f)) else InsertRow(list, Fresh(None, f))
  }

  function Replace(list: seq<Function>, row: Function): seq<Function> {
    if list == [] then []
    else if list[0].name == row.name then [row] + list[1..]
    else [list[0]] + Replace(list[1..], row)
  }

  function InsertRow(list: seq<Function>, row: Function): seq<Function> {
    if list == [] || Before(row.name, list[0].name) then [row] + list else [list[0]] + InsertRow(list[1..], row)
  }

  function UpsertAll(list: seq<Function>, funcs: seq<Function>): seq<Function>
    decreases |funcs|
  {
    if funcs == [] then list else Upsert(UpsertAll(list, funcs[..|funcs| - 1]), funcs[|funcs| - 1])
  }

  /** What SyncFunctions makes of a server's rows. */
  function Synced(list: seq<Function>, funcs: seq<Function>): seq<Function> {
    UpsertAll(Keep(list, NamesOf(funcs)), funcs)
  }

  lemma {:induction false} FindKeep(list: seq<Function>, names: set<string>, name: string)
    ensures Find(Keep(list, names), name) == if name in names then Find(list, name) else None
  {
    if list != [] { FindKeep(list[1..], names, name); }
  }

  lemma {:induction false} KeepUnique(list: seq<Function>, names: set<string>)
    requires UniqueNames(list)
    ensures UniqueNames(Keep(list, names))
  {
    if list != [] {
      KeepUnique(list[1..], names);
      FindKeep(list[1..], names, list[0].name);
    }
  }

  lemma {:induction false} FindReplace(list: seq<Function>, row: Function, name: string)
    requires Find(list, row.name).Some?
    ensures Find(Replace(list, row), name) == if name == row.name then Some(row) else Find(list, name)
  {
    if list[0].name != row.name { FindReplace(list[1..], row, name); }
  }

  lemma {:induction false} ReplaceUnique(list: seq<Function>, row: Function)
    requires Find(list, row.name).Some? && UniqueNames(list)
    ensures UniqueNames(Replace(list, row))
  {
    if list[0].name != row.name {
      ReplaceUnique(list[1..], row);
      FindReplace(list[1..], row, list[0].name);
    }
  }

  lemma {:induction false} FindInsertRow(list: seq<Function>, row: Function, name: string)
    requires Find(list, row.name).None?
    ensures Find(InsertRow(list, row), name) == if name == row.name then Some(row) else Find(list, name)
  {
    if list == [] || Before(row.name, list[0].name) {
      assert ([row] + list)[1..] == list;
    } else {
      FindInsertRow(list[1..], row, name);
    }
  }

  lemma {:induction false} InsertRowUnique(list: seq<Function>, row: Function)
    requires Find(list, row.name).None? && UniqueNames(list)
    ensures UniqueNames(InsertRow(list, row))
  {
    if list == [] || Before(row.name, list[0].name) {
      assert ([row] + list)[1..] == list;
    } else {
      InsertRowUnique(list[1..], row);
      FindInsertRow(list[1..], row, list[0].name);
    }
  }

  lemma FindUpsert(list: seq<Function>, f: Function, name: string)
    ensures Find(Upsert(list, f), name) == if name == f.name then Some(Fresh(Find(list, name), f)) else Find(list, name)
  {
    if Find(list, f.name).Some? {
      FindReplace(list, Fresh(Find(list, f.name), f), name);
    } else {
      FindInsertRow(list, Fresh(None, f), name);
    }
  }

  lemma UpsertUnique(list: seq<Function>, f: Function)
    requires UniqueNames(list)
    ensures UniqueNames(Upsert(list, f))
  {
    if Find(list, f.name).Some? {
      ReplaceUnique(list, Fresh(Find(list, f.name), f));
    } else {
      InsertRowUnique(list, Fresh(None, f));
    }
  }

  /** The last of the functions with a name. */
  function LastNamed(funcs: seq<Function>, name: string): Option<Function> {
    if funcs == [] then None
    else if funcs[|funcs| - 1].name == name then Some(funcs[|funcs| - 1])
    else LastNamed(funcs[..|funcs| - 1], name)
  }

  lemma {:induction false} LastNamedIn(funcs: seq<Function>, name: string)
    ensures LastNamed(funcs, name).Some? <==> name in NamesOf(funcs)
  {
    if funcs != [] {
      var init, last := funcs[..|funcs| - 1], funcs[|funcs| - 1];
      LastNamedIn(init, name);
      assert forall f :: f in funcs <==> f in init || f == last;
    }
  }

  /** The row of a name after upserts into rows with that name at most once. */
  lemma {:induction false} FindUpsertAll(list: seq<Function>, funcs: seq<Function>, name: string)
    requires UniqueNames(list)
    ensures UniqueNames(UpsertAll(list, funcs))
    ensures Find(UpsertAll(list, funcs), name)
         == if LastNamed(funcs, name).Some? then Some(Fresh(Find(list, name), LastNamed(funcs, name).value)) else Find(list, name)
    decreases |funcs|
  {
    if funcs != [] {
      var init, last := funcs[..|funcs| - 1], funcs[|funcs| - 1];
      FindUpsertAll(list, init, name);
      FindUpsert(UpsertAll(list, init), last, name);
      UpsertUnique(UpsertAll(list, init), last);
    }
  }

  /** What the row of a name must be after a sync, given what it was: a name that was not found
      has none; one that was has the description and schema found last, "{}" for an empty
      schema, and is enabled unless its row was there and disabled. */
  ghost predicate AfterSync(was: Option<Function>, funcs: seq<Function>, name: string, now: Option<Function>) {
    if forall i :: 0 <= i < |funcs| ==> funcs[i].name != name then now.None?
    else
      && now.Some? && now.value.name == name
      && (now.value.enabled <==> was.None? || was.value.enabled)
      && exists i :: 0 <= i < |funcs| && funcs[i].name == name && (forall j :: i < j < |funcs| ==> funcs[j].name != name)
           && now.value.description == funcs[i].description
           && now.value.schema == if funcs[i].schema == "" then "{}" else funcs[i].schema
  }

  lemma {:induction false} LastNamedAt(funcs: seq<Function>, name: string) returns (i: nat)
    requires LastNamed(funcs, name).Some?
    ensures i < |funcs| && funcs[i] == LastNamed(funcs, name).value && funcs[i].name == name
    ensures forall j :: i < j < |funcs| ==> funcs[j].name != name
  {
    i := |funcs| - 1;
    if funcs[i].name != name { i := LastNamedAt(funcs[..i], name); }
  }

  lemma SyncedIs(list: seq<Function>, funcs: seq<Function>, name: string)
    requires UniqueNames(list)
    ensures UniqueNames(Synced(list, funcs))
    ensures name in NamesOf(funcs) <==> LastNamed(funcs, name).Some?
    ensures Find(Synced(list, funcs), name)
         == if name in NamesOf(funcs) then Some(Fresh(Find(list, name), LastNamed(funcs, name).value)) else None
  {
    var kept := Keep(list, NamesOf(funcs));
    KeepUnique(list, NamesOf(funcs));
    FindUpsertAll(kept, funcs, name);
    FindKeep(list, NamesOf(funcs), name);
    LastNamedIn(funcs, name);
  }

  /** After a sync the row of every name is as it must be; each name still has at most one. */
  lemma SyncedRow(list: seq<Function>, funcs: seq<Function>, name: string)
    requires UniqueNames(list)
    ensures UniqueNames(Synced(list, funcs))
    ensures AfterSync(Find(list, name), funcs, name, Find(Synced(list, funcs), name))
  {
    SyncedIs(list, funcs, name);
    if LastNamed(funcs, name).Some? {
      var i := LastNamedAt(funcs, name);
    } else {
      forall i | 0 <= i < |funcs| ensures funcs[i].name != name {
        assert funcs[i] in funcs && funcs[i].name in NamesOf(funcs);
      }
    }
  }

  /** UPDATE of the flag. */
  function SetFlag(list: seq<Function>, name: string, enabled: bool): seq<Function> {
    if Find(list, name).None? then list else Replace(list, Find(list, name).value.(enabled := enabled))
  }

  lemma FindSetFlag(list: seq<Function>, name: string, enabled: bool, other: string)
    requires UniqueNames(list)
    ensures UniqueNames(SetFlag(list, name, enabled))
    ensures Find(SetFlag(list, name, enabled), other)
         == if other == name && Find(list, name).Some? then Some(Find(list, name).value.(enabled := enabled)) else Find(list, other)
  {
    if Find(list, name).Some? {
      var row := Find(list, name).value.(enabled := enabled);
      FindReplace(list, row, other);
      ReplaceUnique(list, row);
    }
  }

  type Rows = map<Server, seq<Function>>

  function RowsOf(rows: Rows, s: Server): seq<Function> {
    if s in rows then rows[s] else []
  }

  class Store {
    var rows: Rows

    constructor ()
      ensures rows == map[]
    {
      rows := map[];
    }

    method ListFunctions(s: Server) returns (list: seq<Function>)
      ensures list == RowsOf(rows, s)
    {
      list := if s in rows then rows[s] else [];
    }

    method SyncFunctions(s: Server, funcs: seq<Function>)
      modifies this
      ensures rows == old(rows)[s := Synced(RowsOf(old(rows), s), funcs)]
    {
      var list := if s in rows then rows[s] else [];
      list := Keep(list, NamesOf(funcs));
      ghost var kept := list;
      for i := 0 to |funcs|
        invariant list == UpsertAll(kept, funcs[..i]) && rows == old(rows)
      {
        list := Upsert(list, funcs[i]);
        assert funcs[..i + 1][..i] == funcs[..i];
      }
      assert funcs[..|funcs|] == funcs;
      rows := rows[s := list];
    }

    /** The answer is whether a row changed: the driver does not count a row that already
        has the flag, so setting it again is an error like setting it on no row. */
    method SetFunctionEnabled(s: Server, name: string, enabled: bool) returns (ok: bool)
      modifies this
      ensures ok <==> Changes(RowsOf(old(rows), s), name, enabled)
      ensures rows == if ok then old(rows)[s := SetFlag(RowsOf(old(rows), s), name, enabled)] else old(rows)
    {
      var list := if s in rows then rows[s] else [];
      ok := Changes(list, name, enabled);
      if ok {
        rows := rows[s := SetFlag(list, name, enabled)];
      }
    }
  }

  /** A row changes exactly when there is one of the name with another flag. */
  lemma ChangesWhen(list: seq<Function>, name: string, enabled: bool)
    requires UniqueNames(list)
    ensures Changes(list, name, enabled) <==> exists f :: f in list && f.name == name && f.enabled != enabled
  {
    if f :| f in list && f.name == name && f.enabled != enabled { FindOnly(list, f); }
  }

  lemma {:induction false} FindOnly(list: seq<Function>, f: Function)
    requires UniqueNames(list) && f in list
    ensures Find(list, f.name) == Some(f)
  {
    if list[0] != f {
      assert list == [list[0]] + list[1..];
      FindOnly(list[1..], f);
    }
  }

  predicate Changes(list: seq<Function>, name: string, enabled: bool) {
    Find(list, name).Some? && Find(list, name).value.enabled != enabled
  }
}
