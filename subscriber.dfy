/**
 * The subscriber: polls the bus and imports every published tool by executing its code
 * in a fresh namespace and registering the function bound under the event's name.
 */
module Subscriber {
  import opened Wrappers
  import opened Registry
  import opened Database

  /** What `exec(code, ns)` does: it raises, or leaves a namespace of top-level bindings. */
  datatype ExecOutcome = Raised(message: string) | Namespace(bindings: map<string, Callable>)

  /** The event dict built from a row: a NULL (or empty) description becomes "". */
  datatype ToolEvent = ToolEvent(name: string, description: string, code: string)

  function EventOf(row: Event): ToolEvent {
    ToolEvent(row.name, row.description.GetOr(""), row.code)
  }

  /**
   * The event registers a tool: executing its code succeeds and binds the event's name
   * to a function that `tool` accepts.
   */
  predicate Imports(ev: ToolEvent, exec: string -> ExecOutcome) {
    exec(ev.code).Namespace? && ev.name in exec(ev.code).bindings && Wrappable(exec(ev.code).bindings[ev.name])
  }

  /** The function an importing event registers. */
  function Imported(ev: ToolEvent, exec: string -> ExecOutcome): Callable
    requires Imports(ev, exec)
  {
    exec(ev.code).bindings[ev.name]
  }

  /** `_handle_event` on the registry's contents: a raise (of `exec` or of `tool`) or a missing binding changes nothing. */
  function ApplyEvent(t: Table, ev: ToolEvent, exec: string -> ExecOutcome): Table {
    if Imports(ev, exec) then Put(t, ev.name, Wrap(Imported(ev, exec))) else t
  }

  /** The registry contents after handling a batch of rows in order. */
  function ApplyRows(t: Table, rows: seq<Event>, exec: string -> ExecOutcome): Table {
    if rows == [] then t
    else ApplyEvent(ApplyRows(t, rows[..|rows| - 1], exec), EventOf(rows[|rows| - 1]), exec)
  }

  /** Some row of the batch imports a tool (and so rewrites the snapshot). */
  predicate AnyImports(rows: seq<Event>, exec: string -> ExecOutcome) {
    exists i :: 0 <= i < |rows| && Imports(EventOf(rows[i]), exec)
  }

  /** Handling rows keeps the registry well formed. */
  lemma {:induction false} ApplyRowsWellFormed(t: Table, rows: seq<Event>, exec: string -> ExecOutcome)
    requires WellFormed(t)
    ensures WellFormed(ApplyRows(t, rows, exec))
  {
    if rows != [] {
      var before := ApplyRows(t, rows[..|rows| - 1], exec);
      ApplyRowsWellFormed(t, rows[..|rows| - 1], exec);
      var ev := EventOf(rows[|rows| - 1]);
      if Imports(ev, exec) {
        PutWellFormed(before, ev.name, Wrap(Imported(ev, exec)));
      }
    }
  }

  /** Handling two polls' batches one after the other is handling their concatenation. */
  lemma {:induction false} ApplyRowsAppend(t: Table, a: seq<Event>, b: seq<Event>, exec: string -> ExecOutcome)
    ensures ApplyRows(t, a + b, exec) == ApplyRows(ApplyRows(t, a, exec), b, exec)
  {
    if b == [] {
      assert a + b == a;
    } else {
      ApplyRowsAppend(t, a, b[..|b| - 1], exec);
      assert (a + b)[..|a + b| - 1] == a + b[..|b| - 1];
      assert (a + b)[|a + b| - 1] == b[|b| - 1];
    }
  }

  /** A name no importing row mentions keeps its entry (or its absence). */
  lemma {:induction false} UntouchedName(t: Table, rows: seq<Event>, exec: string -> ExecOutcome, name: string)
    requires forall i :: 0 <= i < |rows| && Imports(EventOf(rows[i]), exec) ==> rows[i].name != name
    ensures Lookup(ApplyRows(t, rows, exec), name) == Lookup(t, name)
  {
    if rows != [] {
      UntouchedName(t, rows[..|rows| - 1], exec, name);
    }
  }

  /** A name ends up bound to the function of the last row that imported it. */
  lemma {:induction false} LastImportWins(t: Table, rows: seq<Event>, exec: string -> ExecOutcome, i: int)
    requires 0 <= i < |rows| && Imports(EventOf(rows[i]), exec)
    requires forall j :: i < j < |rows| && Imports(EventOf(rows[j]), exec) ==> rows[j].name != rows[i].name
    ensures Lookup(ApplyRows(t, rows, exec), rows[i].name) == Some(Wrap(Imported(EventOf(rows[i]), exec)))
  {
    var n := |rows| - 1;
    if i < n {
      LastImportWins(t, rows[..n], exec, i);
    } else {
      PutLookup(ApplyRows(t, rows[..n], exec), rows[i].name, Wrap(Imported(EventOf(rows[i]), exec)), rows[i].name);
    }
  }

  /**
   * `_handle_event`: executes the code; when that succeeds and binds the event's name,
   * registers the function under that name (which rewrites the snapshot). A raise of
   * `exec` or of the registration is caught and only reported.
   */
  method HandleEvent(reg: ToolRegistry, ev: ToolEvent, exec: string -> ExecOutcome, writable: bool)
    requires reg.Valid()
    modifies reg
    ensures reg.Valid()
    ensures reg.Contents() == ApplyEvent(old(reg.Contents()), ev, exec)
    ensures reg.file == if Imports(ev, exec) && writable then Written(Snapshot(reg.Contents())) else old(reg.file)
  {
    var outcome := exec(ev.code);
    match outcome
    case Raised(_) =>
    case Namespace(ns) =>
      if ev.name in ns {
        var registered := reg.RegisterTool(ev.name, ns[ev.name], ev.description, writable);
      }
  }

  /** The body of one `listen_for_tools` iteration after the poll: every row, in order. */
  method ProcessBatch(reg: ToolRegistry, rows: seq<Event>, exec: string -> ExecOutcome, writable: bool)
    requires reg.Valid()
    modifies reg
    ensures reg.Valid()
    ensures reg.Contents() == ApplyRows(old(reg.Contents()), rows, exec)
    ensures reg.file == if AnyImports(rows, exec) && writable then Written(Snapshot(reg.Contents())) else old(reg.file)
  {
    for i := 0 to |rows|
      invariant reg.Valid()
      invariant reg.Contents() == ApplyRows(old(reg.Contents()), rows[..i], exec)
      invariant reg.file == if AnyImports(rows[..i], exec) && writable then Written(Snapshot(reg.Contents())) else old(reg.file)
    {
      assert rows[..i + 1][..i] == rows[..i];
      HandleEvent(reg, EventOf(rows[i]), exec, writable);
      assert AnyImports(rows[..i + 1], exec) <==> AnyImports(rows[..i], exec) || Imports(EventOf(rows[i]), exec) by {
        assert forall k :: 0 <= k < i ==> rows[..i + 1][k] == rows[..i][k];
        assert rows[..i + 1][i] == rows[i];
      }
    }
    assert rows[..|rows|] == rows;
  }

  /**
   * One iteration of `listen_for_tools`: poll, then handle the batch. The cursor has moved
   * past every row of the batch whether or not its import succeeded.
   */
  method ListenOnce(bus: ReplicationBus, reg: ToolRegistry, sub: string, exec: string -> ExecOutcome, writable: bool)
    returns (batch: seq<Event>)
    requires bus.Valid() && reg.Valid()
    modifies bus, reg
    ensures bus.Valid() && reg.Valid()
    ensures batch == Selected(bus.log, old(bus.CursorOf(sub))) && bus.log == old(bus.log)
    ensures Selected(bus.log, bus.CursorOf(sub)) == []
    ensures reg.Contents() == ApplyRows(old(reg.Contents()), batch, exec)
    ensures reg.file == if AnyImports(batch, exec) && writable then Written(Snapshot(reg.Contents())) else old(reg.file)
    ensures bus.nextId == old(bus.nextId)
    ensures bus.cursors == if batch == [] then old(bus.cursors) else old(bus.cursors)[sub := batch[|batch| - 1].id]
  {
    batch := bus.GetNewToolUpdates(sub);
    ProcessBatch(reg, batch, exec, writable);
  }
}
