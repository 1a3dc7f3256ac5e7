/** The tool registry: platform tools under their names, the tools of a workspace under a key
    that holds the workspace and the name. */
module Registry {
  import opened Ordering
  import opened Strings
  import opened Wrappers

  datatype Tool = Platform(name: string) | Remote(server: string, name: string, description: string, schema: string)

  datatype Entry = Entry(tool: Tool, workspace: string)

  type Entries = map<string, Entry>

  function RegKey(workspace: string, name: string): string {
    if workspace == "" then name else "ws" + ['\0'] + workspace + ['\0'] + name
  }

  /** Keys of workspaces differ from each other and from every name. */
  lemma RegKeyInjective(w: string, n: string, w': string, n': string)
    requires w != "" && w' != "" && '\0' !in w && '\0' !in w' && RegKey(w, n) == RegKey(w', n')
    ensures w == w' && n == n'
  {
    var rest, rest' := w + ['\0'] + n, w' + ['\0'] + n';
    assert RegKey(w, n) == "ws" + ['\0'] + rest && RegKey(w', n') == "ws" + ['\0'] + rest';
    SeparatedUnique("ws", rest, "ws", rest', '\0');
    SeparatedUnique(w, n, w', n', '\0');
  }

  lemma RegKeyNoName(w: string, n: string)
    requires w != ""
    ensures '\0' in RegKey(w, n)
  {
    assert RegKey(w, n)[2] == '\0';
  }

  /** The workspace's tool of a name, or else the platform's. */
  function Lookup(entries: Entries, key: string, name: string): Option<Tool> {
    if key in entries then Some(entries[key].tool)
    else if name in entries then Some(entries[name].tool)
    else None
  }

  predicate Visible(e: Entry, workspace: string) {
    e.workspace == "" || e.workspace == workspace
  }

  class Registry {
    var entries: Entries
    const regKey: (string, string) -> string

    constructor (regKey: (string, string) -> string)
      ensures entries == map[] && this.regKey == regKey
    {
      entries, this.regKey := map[], regKey;
    }

    method Register(tool: Tool)
      modifies this
      ensures entries == old(entries)[tool.name := Entry(tool, "")]
    {
      entries := entries[tool.name := Entry(tool, "")];
    }

    method RegisterForWorkspace(workspace: string, tool: Tool)
      modifies this
      ensures entries == old(entries)[regKey(workspace, tool.name) := Entry(tool, workspace)]
    {
      entries := entries[regKey(workspace, tool.name) := Entry(tool, workspace)];
    }

    method UnregisterForWorkspace(workspace: string, name: string) returns (removed: bool)
      modifies this
      ensures entries == old(entries) - {regKey(workspace, name)} && (removed <==> regKey(workspace, name) in old(entries))
    {
      var key := regKey(workspace, name);
      if key !in entries {
        assert entries - {key} == entries;
        return false;
      }
      entries := entries - {key};
      return true;
    }

    method GetForWorkspace(workspace: string, name: string) returns (tool: Option<Tool>)
      ensures tool == Lookup(entries, regKey(workspace, name), name)
    {
      var key := regKey(workspace, name);
      if key in entries {
        return Some(entries[key].tool);
      }
      if name in entries {
        return Some(entries[name].tool);
      }
      return None;
    }

    /** The tools offered to the model in a workspace, listed in whatever order the map yields
        its keys. */
    method ProviderDefs(workspace: string) returns (defs: seq<Tool>, ghost order: seq<string>)
      ensures IsListing(entries, workspace, order, defs)
    {
      defs, order := [], [];
      var rest := entries.Keys;
      while rest != {}
        invariant rest <= entries.Keys && Distinct(order) && ToolsAt(entries, order, defs)
        invariant forall k :: k in order <==> k in entries && k !in rest && Visible(entries[k], workspace)
      {
        var k :| k in rest;
        if Visible(entries[k], workspace) {
          defs, order := defs + [entries[k].tool], order + [k];
        }
        rest := rest - {k};
      }
    }
  }

  /** The tools under these keys, in this order. */
  ghost predicate ToolsAt(entries: Entries, order: seq<string>, defs: seq<Tool>) {
    |defs| == |order| && forall i :: 0 <= i < |order| ==> order[i] in entries && defs[i] == entries[order[i]].tool
  }

  /** A listing of the visible entries, each once. */
  ghost predicate IsListing(entries: Entries, workspace: string, order: seq<string>, defs: seq<Tool>) {
    && Distinct(order) && ToolsAt(entries, order, defs)
    && forall k :: k in order <==> k in entries && Visible(entries[k], workspace)
  }

  function VisibleTools(entries: Entries, workspace: string): set<Tool> {
    set k | k in entries && Visible(entries[k], workspace) :: entries[k].tool
  }
}
