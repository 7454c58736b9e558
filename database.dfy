/**
 * The replication bus: the append-only `tool_updates` log with its SERIAL ids, and the
 * `subscriber_state` table that stores, per subscriber, the last id it has been handed.
 */
module Database {
  import opened Wrappers

  /** One row of `tool_updates`; `description` is a nullable column. */
  datatype Event = Event(id: int, name: string, description: Option<string>, code: string)

  /** Ids strictly increase along the log. */
  predicate Ascending(log: seq<Event>) {
    forall i, j :: 0 <= i < j < |log| ==> log[i].id < log[j].id
  }

  /** `SELECT ... FROM tool_updates WHERE id > cursor ORDER BY id ASC` over a log kept in id order. */
  function Selected(log: seq<Event>, cursor: int): (batch: seq<Event>)
  {
    if log == [] then []
    else if log[0].id > cursor then [log[0]] + Selected(log[1..], cursor)
    else Selected(log[1..], cursor)
  }

  /** The rows with `id <= cursor`. */
  function Seen(log: seq<Event>, cursor: int): (prefix: seq<Event>)
  {
    if log == [] then []
    else if log[0].id <= cursor then [log[0]] + Seen(log[1..], cursor)
    else Seen(log[1..], cursor)
  }

  /** The selection holds exactly the rows with `id > cursor`. */
  lemma {:induction false} SelectedMembers(log: seq<Event>, cursor: int)
    ensures forall e :: e in Selected(log, cursor) <==> e in log && e.id > cursor
  {
    if log != [] {
      SelectedMembers(log[1..], cursor);
      assert log == [log[0]] + log[1..];
    }
  }

  /** Index of the first row with `id > cursor` (the length of the log if there is none). */
  function Boundary(log: seq<Event>, cursor: int): (k: nat)
    ensures k <= |log|
    ensures k < |log| ==> log[k].id > cursor
  {
    if log == [] || log[0].id > cursor then 0 else 1 + Boundary(log[1..], cursor)
  }

  /** An ordered log starting above the cursor is entirely due, and none of it has been seen. */
  lemma {:induction false} AllDue(log: seq<Event>, cursor: int)
    requires Ascending(log) && (log != [] ==> log[0].id > cursor)
    ensures Selected(log, cursor) == log && Seen(log, cursor) == []
  {
    if log != [] {
      assert Ascending(log[1..]);
      assert |log| > 1 ==> log[1].id > log[0].id;
      AllDue(log[1..], cursor);
      assert log == [log[0]] + log[1..];
    }
  }

  /** On an ordered log the rows already seen are the ones before the boundary. */
  lemma {:induction false} SeenIsPrefix(log: seq<Event>, cursor: int)
    requires Ascending(log)
    ensures Seen(log, cursor) == log[..Boundary(log, cursor)]
  {
    if log != [] {
      if log[0].id > cursor {
        AllDue(log, cursor);
      } else {
        assert Ascending(log[1..]);
        SeenIsPrefix(log[1..], cursor);
        assert log[1..][..Boundary(log[1..], cursor)] == log[1..Boundary(log, cursor)];
      }
    }
  }

  /** On an ordered log the rows still to deliver are the ones from the boundary on. */
  lemma {:induction false} SelectedIsSuffix(log: seq<Event>, cursor: int)
    requires Ascending(log)
    ensures Selected(log, cursor) == log[Boundary(log, cursor)..]
  {
    if log != [] {
      if log[0].id > cursor {
        AllDue(log, cursor);
      } else {
        assert Ascending(log[1..]);
        SelectedIsSuffix(log[1..], cursor);
        assert log[1..][Boundary(log[1..], cursor)..] == log[Boundary(log, cursor)..];
      }
    }
  }

  /** On an ordered log the boundary splits it into the rows already seen and the rows still to deliver. */
  lemma BoundarySplits(log: seq<Event>, cursor: int)
    requires Ascending(log)
    ensures Seen(log, cursor) == log[..Boundary(log, cursor)]
    ensures Selected(log, cursor) == log[Boundary(log, cursor)..]
  {
    SeenIsPrefix(log, cursor);
    SelectedIsSuffix(log, cursor);
  }

  /** Whatever the cursor, what was seen followed by what is selected is the whole log. */
  lemma {:induction false} SeenThenSelected(log: seq<Event>, cursor: int)
    requires Ascending(log)
    ensures Seen(log, cursor) + Selected(log, cursor) == log
  {
    BoundarySplits(log, cursor);
    assert log[..Boundary(log, cursor)] + log[Boundary(log, cursor)..] == log;
  }

  /** A suffix of an ordered log is ordered. */
  lemma SuffixAscending(log: seq<Event>, k: nat)
    requires Ascending(log) && k <= |log|
    ensures Ascending(log[k..])
  {
    assert forall i, j :: 0 <= i < j < |log[k..]| ==> log[k..][i] == log[k + i] && log[k..][j] == log[k + j];
  }

  /**
   * Every subscriber receives the updates it shares with another subscriber in the same
   * relative order, whatever their cursors.
   */
  lemma SameRelativeOrder(log: seq<Event>, c1: int, c2: int, i: int, j: int, k: int, l: int)
    requires Ascending(log)
    requires 0 <= i < |Selected(log, c1)| && 0 <= j < |Selected(log, c1)|
    requires 0 <= k < |Selected(log, c2)| && 0 <= l < |Selected(log, c2)|
    requires Selected(log, c1)[i] == Selected(log, c2)[k] && Selected(log, c1)[j] == Selected(log, c2)[l]
    ensures i < j <==> k < l
  {
    BoundarySplits(log, c1);
    BoundarySplits(log, c2);
    SuffixAscending(log, Boundary(log, c1));
    SuffixAscending(log, Boundary(log, c2));
    var b1, b2 := Selected(log, c1), Selected(log, c2);
    assert i < j ==> b1[i].id < b1[j].id;
    assert j < i ==> b1[j].id < b1[i].id;
    assert k < l ==> b2[k].id < b2[l].id;
    assert l < k ==> b2[l].id < b2[k].id;
  }

  /** A cursor at the id of the last row delivered leaves nothing to select. */
  lemma CaughtUp(log: seq<Event>)
    requires Ascending(log) && log != []
    ensures Selected(log, log[|log| - 1].id) == []
  {
    var last := log[|log| - 1].id;
    BoundarySplits(log, last);
    assert forall i :: 0 <= i < |log| - 1 ==> log[i].id < last;
    assert Boundary(log, last) == |log|;
  }

  /** Appending a row whose id is above the cursor leaves what the cursor has seen alone. */
  lemma {:induction false} SeenAppend(log: seq<Event>, e: Event, cursor: int)
    requires e.id > cursor
    ensures Seen(log + [e], cursor) == Seen(log, cursor)
  {
    if log == [] {
      assert Seen([e][1..], cursor) == [];
    } else {
      assert (log + [e])[1..] == log[1..] + [e];
      SeenAppend(log[1..], e, cursor);
    }
  }

  /** A published row reaches every subscriber whose cursor is below its id, after what it was already due. */
  lemma {:induction false} SelectedAppend(log: seq<Event>, e: Event, cursor: int)
    requires e.id > cursor
    ensures Selected(log + [e], cursor) == Selected(log, cursor) + [e]
  {
    if log == [] {
      assert Selected([e][1..], cursor) == [];
    } else {
      assert (log + [e])[1..] == log[1..] + [e];
      SelectedAppend(log[1..], e, cursor);
    }
  }

  /** What one poll needs about the log: the batch, and where the cursor ends up. */
  lemma PollStep(log: seq<Event>, last: int)
    requires Ascending(log)
    ensures Selected(log, last) == log[Boundary(log, last)..]
    ensures Seen(log, last) + Selected(log, last) == log
    ensures Selected(log, last) != [] ==>
      && last < log[|log| - 1].id
      && Seen(log, log[|log| - 1].id) == log
      && Selected(log, log[|log| - 1].id) == []
  {
    BoundarySplits(log, last);
    SeenThenSelected(log, last);
    if Selected(log, last) != [] {
      var top := log[|log| - 1].id;
      CaughtUp(log);
      SeenThenSelected(log, top);
    }
  }

  /** Ids ascend and lie in [1, nextId); every cursor is below nextId. */
  ghost predicate BusInvariant(log: seq<Event>, cursors: map<string, int>, nextId: int) {
    && Ascending(log)
    && 1 <= nextId
    && (forall i :: 0 <= i < |log| ==> 1 <= log[i].id < nextId)
    && (forall s :: s in cursors ==> cursors[s] < nextId)
  }

  /** Moving a cursor to the id of the last row keeps every cursor below the next id. */
  lemma CursorToLast(log: seq<Event>, cursors: map<string, int>, nextId: int, sub: string)
    requires BusInvariant(log, cursors, nextId) && log != []
    ensures BusInvariant(log, cursors[sub := log[|log| - 1].id], nextId)
  {
  }

  /**
   * The database shared by every process: the `tool_updates` rows in id order, the
   * `subscriber_state` cursors, and the next SERIAL value.
   */
  class ReplicationBus {
    var log: seq<Event>
    var cursors: map<string, int>
    var nextId: int

    ghost predicate Valid()
      reads this
    {
      BusInvariant(log, cursors, nextId)
    }

    /** `last_processed_id` for a subscriber, 0 when it has no row yet. */
    function CursorOf(sub: string): int
      reads this
    {
      if sub in cursors then cursors[sub] else 0
    }

    /** Freshly created tables. */
    constructor ()
      ensures Valid() && log == [] && cursors == map[] && nextId == 1
    {
      log := [];
      cursors := map[];
      nextId := 1;
    }

    /**
     * `publish_tool_update`: inserts a row with the next SERIAL id, after every existing
     * row; every subscriber will be handed it after what it was already due.
     */
    method PublishToolUpdate(name: string, description: string, code: string)
      requires Valid()
      modifies this
      ensures Valid()
      ensures log == old(log) + [Event(old(nextId), name, Some(description), code)]
      ensures cursors == old(cursors) && nextId == old(nextId) + 1
      ensures forall s :: Selected(log, CursorOf(s)) == Selected(old(log), CursorOf(s)) + [log[|log| - 1]]
    {
      var e := Event(nextId, name, Some(description), code);
      log := log + [e];
      nextId := nextId + 1;
      forall s ensures Selected(log, CursorOf(s)) == Selected(old(log), CursorOf(s)) + [e] {
        SelectedAppend(old(log), e, CursorOf(s));
      }
    }

    /**
     * `get_new_tool_updates`: the rows after the subscriber's cursor in id order; when there
     * are any, the cursor moves to the last one's id (upsert), otherwise nothing is written.
     * The rows the cursor has passed grow by exactly the batch, so consecutive polls hand
     * out each row once and skip none.
     */
    method GetNewToolUpdates(sub: string) returns (batch: seq<Event>)
      requires Valid()
      modifies this
      ensures Valid()
      ensures batch == Selected(log, old(CursorOf(sub)))
      ensures log == old(log) && nextId == old(nextId)
      ensures batch == [] ==> cursors == old(cursors)
      ensures batch != [] ==> cursors == old(cursors)[sub := batch[|batch| - 1].id]
      ensures old(CursorOf(sub)) <= CursorOf(sub)
      ensures Selected(log, CursorOf(sub)) == []
      ensures Seen(log, CursorOf(sub)) == Seen(log, old(CursorOf(sub))) + batch
    {
      var last := CursorOf(sub);
      PollStep(log, last);
      var k := Boundary(log, last);
      batch := log[k..];
      if k < |log| {
        var top := |log| - 1;
        assert batch[top - k] == log[top];
        CursorToLast(log, cursors, nextId, sub);
        cursors := cursors[sub := log[top].id];
      }
    }
  }
}
