/**
 * The tool registry: an insertion-ordered map from tool name to wrapped tool, and the
 * best-effort `tool_registry.json` snapshot of name -> description written after every
 * registration.
 */
module Registry {
  import opened Wrappers

  /** A Python function object obtained by executing code; `doc` is its docstring. */
  datatype Callable = Callable(id: nat, doc: Option<string>)

  /** What langchain's `tool(func)` produces: the function and a description taken from its docstring. */
  datatype Tool = Tool(func: Callable, description: string)

  /** `tool(func)` accepts a function only when it has a docstring; otherwise it raises. */
  predicate Wrappable(f: Callable) {
    f.doc.Some?
  }

  /** `tool(func)`: the description is the docstring, whatever description the caller had. */
  function Wrap(f: Callable): (t: Tool)
    requires Wrappable(f)
  {
    Tool(f, f.doc.value)
  }

  /** The registry as a value: names in insertion order and the tool stored under each. */
  datatype Table = Table(names: seq<string>, tools: map<string, Tool>)

  const EmptyTable := Table([], map[])

  /** Names are unique and are exactly the keys of the map. */
  ghost predicate WellFormed(t: Table) {
    && (forall i, j :: 0 <= i < j < |t.names| ==> t.names[i] != t.names[j])
    && (forall n :: n in t.tools <==> n in t.names)
  }

  function Lookup(t: Table, name: string): Option<Tool> {
    if name in t.tools then Some(t.tools[name]) else None
  }

  /**
   * `tool_registry[name] = tool` on a Python dict: a new name goes to the end,
   * an existing name keeps its position and gets the new tool.
   */
  function Put(t: Table, name: string, tool: Tool): Table {
    if name in t.tools then Table(t.names, t.tools[name := tool])
    else Table(t.names + [name], t.tools[name := tool])
  }

  /** After a put, the name maps to the new tool and every other entry is as before. */
  lemma PutLookup(t: Table, name: string, tool: Tool, other: string)
    ensures Lookup(Put(t, name, tool), name) == Some(tool)
    ensures other != name ==> Lookup(Put(t, name, tool), other) == Lookup(t, other)
  {
  }

  /** A put keeps names unique (at most one entry per name) and in step with the map. */
  lemma PutWellFormed(t: Table, name: string, tool: Tool)
    requires WellFormed(t)
    ensures WellFormed(Put(t, name, tool))
  {
    var r := Put(t, name, tool);
    if name !in t.tools {
      forall i, j | 0 <= i < j < |r.names| ensures r.names[i] != r.names[j] {
        if j == |t.names| {
          assert r.names[i] == t.names[i] && r.names[j] == name;
        }
      }
    }
  }

  /** Putting a name twice keeps only the second tool: the first is unrecoverable. */
  lemma LastWriteWins(t: Table, name: string, first: Tool, second: Tool)
    ensures Put(Put(t, name, first), name, second) == Put(t, name, second)
  {
  }

  /** The snapshot: one (name, description) pair per entry, in registry order; no code. */
  function Snapshot(t: Table): (s: seq<(string, string)>)
    requires WellFormed(t)
    ensures |s| == |t.names|
  {
    seq(|t.names|, i requires 0 <= i < |t.names| => (t.names[i], t.tools[t.names[i]].description))
  }

  /** How a put changes the snapshot: a new entry is appended, an existing one is replaced in place. */
  lemma SnapshotAfterPut(t: Table, name: string, tool: Tool)
    requires WellFormed(t)
    ensures WellFormed(Put(t, name, tool))
    ensures name !in t.tools ==> Snapshot(Put(t, name, tool)) == Snapshot(t) + [(name, tool.description)]
    ensures name in t.tools ==>
      |Snapshot(Put(t, name, tool))| == |Snapshot(t)|
      && forall i :: 0 <= i < |t.names| ==>
          Snapshot(Put(t, name, tool))[i] == if t.names[i] == name then (name, tool.description) else Snapshot(t)[i]
  {
    PutWellFormed(t, name, tool);
    if name !in t.tools {
      var r := Put(t, name, tool);
      assert Snapshot(r)[|t.names|] == (name, tool.description);
      assert Snapshot(r) == Snapshot(t) + [(name, tool.description)];
    }
  }

  /**
   * Read as the JSON object it is written as, the snapshot maps every registered name,
   * and nothing else, to the description of the tool under that name, each key once.
   */
  lemma SnapshotIsObject(t: Table)
    requires WellFormed(t)
    ensures forall i, j :: 0 <= i < j < |Snapshot(t)| ==> Snapshot(t)[i].0 != Snapshot(t)[j].0
    ensures forall n :: n in t.tools <==> exists i :: 0 <= i < |Snapshot(t)| && Snapshot(t)[i].0 == n
    ensures forall i :: 0 <= i < |Snapshot(t)| ==> Snapshot(t)[i].1 == t.tools[Snapshot(t)[i].0].description
  {
    var s := Snapshot(t);
    forall n | n in t.tools ensures exists i :: 0 <= i < |s| && s[i].0 == n {
      var i :| 0 <= i < |t.names| && t.names[i] == n;
      assert s[i].0 == n;
    }
  }

  /** What `tool_registry.json` holds. */
  datatype SnapshotFile =
    | Missing                                  // no file
    | Written(entries: seq<(string, string)>)  // the JSON object name -> {"description": ...}
    | Unreadable                               // a file that does not parse as that JSON

  /**
   * The module-level registry together with its snapshot file. File-system failures
   * are a parameter of each operation (`writable`, `removable`): they are swallowed
   * and leave the file as it was.
   */
  class ToolRegistry {
    var names: seq<string>
    var tools: map<string, Tool>
    var file: SnapshotFile

    ghost predicate Valid()
      reads this
    {
      WellFormed(Table(names, tools))
    }

    function Contents(): Table
      reads this
    {
      Table(names, tools)
    }

    /** A fresh process: an empty registry next to whatever file a previous run left. */
    constructor (existing: SnapshotFile)
      ensures Valid() && Contents() == EmptyTable && file == existing
    {
      names := [];
      tools := map[];
      file := existing;
    }

    /** `save_registry`: rewrites the snapshot from the current entries when the file can be written. */
    method SaveRegistry(writable: bool)
      requires Valid()
      modifies this`file
      ensures file == if writable then Written(Snapshot(Contents())) else old(file)
    {
      if writable {
        file := Written(Snapshot(Table(names, tools)));
      }
    }

    /**
     * `register_tool(name, func, description)`: stores `tool(func)` under `name`
     * (overwriting) and rewrites the snapshot; `description` is never read. When
     * `tool(func)` raises, the raise propagates (`registered` is false) before anything
     * has changed.
     */
    method RegisterTool(name: string, func: Callable, description: string, writable: bool) returns (registered: bool)
      requires Valid()
      modifies this
      ensures Valid()
      ensures registered == Wrappable(func)
      ensures !registered ==> unchanged(this)
      ensures registered ==> Contents() == Put(old(Contents()), name, Wrap(func))
      ensures registered ==> file == if writable then Written(Snapshot(Contents())) else old(file)
    {
      if !Wrappable(func) {
        return false;
      }
      PutWellFormed(Table(names, tools), name, Wrap(func));
      var wrapped := Wrap(func);
      if name !in tools {
        names := names + [name];
      }
      tools := tools[name := wrapped];
      SaveRegistry(writable);
      registered := true;
    }

    /** `load_registry`: the entries it reports from the file; the registry itself is not touched. */
    method LoadRegistry() returns (found: seq<(string, string)>)
      ensures found == if file.Written? then file.entries else []
    {
      found := if file.Written? then file.entries else [];
    }

    /** `reset_registry`: empties the registry and deletes the snapshot file if it can. */
    method ResetRegistry(removable: bool)
      modifies this
      ensures Valid() && Contents() == EmptyTable
      ensures file == if removable then Missing else old(file)
    {
      names := [];
      tools := map[];
      if removable {
        file := Missing;
      }
    }
  }
}
