/** Indexed transactions of the program and their events, in the order they were stored. */
module IndexerStore {
  import opened Wrappers

  type Signature = string

  /** A transaction as it is stored; the index of an event is its place in `events`. */
  datatype Record = Record(signature: Signature, slot: nat, failed: bool, logsTruncated: bool, events: seq<string>)

  /** A row of `program_events`; its id is its place in the table. */
  datatype EventRow = EventRow(signature: Signature, index: nat, slot: nat, data: string)

  datatype Tables = Tables(
    transactions: seq<Record>, events: seq<EventRow>,
    cursor: Option<Signature>, genesis: Option<string>, program: Option<string>)
  {
    predicate IsIndexed(signature: Signature) {
      exists k :: 0 <= k < |transactions| && transactions[k].signature == signature
    }

    /** `record`: what is already stored is left as it is, and the cursor moves to the transaction. */
    function Recorded(r: Record): Tables {
      this.(transactions := if IsIndexed(r.signature) then transactions else transactions + [r],
            events := Inserted(events, RowsOf(r)),
            cursor := Some(r.signature))
    }
  }

  function RowsOf(r: Record): seq<EventRow> {
    seq(|r.events|, k requires 0 <= k < |r.events| => EventRow(r.signature, k, r.slot, r.events[k]))
  }

  predicate HasRow(events: seq<EventRow>, row: EventRow) {
    exists k :: 0 <= k < |events| && events[k].signature == row.signature && events[k].index == row.index
  }

  /** `INSERT OR IGNORE` of rows one after another. */
  function Inserted(events: seq<EventRow>, rows: seq<EventRow>): seq<EventRow> {
    if rows == [] then events else
    var before := Inserted(events, rows[..|rows| - 1]);
    if HasRow(before, rows[|rows| - 1]) then before else before + [rows[|rows| - 1]]
  }

  /** Rows of a transaction not yet stored are all added. */
  lemma {:induction false} InsertedNew(events: seq<EventRow>, rows: seq<EventRow>, signature: Signature)
    requires forall k :: 0 <= k < |events| ==> events[k].signature != signature
    requires forall k :: 0 <= k < |rows| ==> rows[k].signature == signature && rows[k].index == k
    ensures Inserted(events, rows) == events + rows
  {
    if rows == [] {
      assert events + rows == events;
    } else {
      InsertedNew(events, rows[..|rows| - 1], signature);
      assert events + rows[..|rows| - 1] + [rows[|rows| - 1]] == events + rows;
    }
  }

  /** Storing a transaction a second time changes nothing. */
  lemma {:induction false} RecordedTwice(t: Tables, r: Record)
    ensures t.Recorded(r).Recorded(r) == t.Recorded(r)
    ensures t.IsIndexed(r.signature) ==> t.Recorded(r).transactions == t.transactions
  {
    var u := t.Recorded(r);
    if !t.IsIndexed(r.signature) {
      assert u.transactions[|t.transactions|].signature == r.signature;
    } else {
      assert u.IsIndexed(r.signature);
    }
    AllHaveRows(t.events, RowsOf(r));
    NothingInserted(u.events, RowsOf(r));
  }

  lemma {:induction false} AllHaveRows(events: seq<EventRow>, rows: seq<EventRow>)
    ensures events <= Inserted(events, rows)
    ensures forall k :: 0 <= k < |rows| ==> HasRow(Inserted(events, rows), rows[k])
  {
    if rows != [] {
      var before, row := Inserted(events, rows[..|rows| - 1]), rows[|rows| - 1];
      AllHaveRows(events, rows[..|rows| - 1]);
      forall k | 0 <= k < |rows| ensures HasRow(Inserted(events, rows), rows[k]) {
        if k < |rows| - 1 {
          assert HasRow(before, rows[..|rows| - 1][k]);
          StillHasRow(before, row, rows[k]);
        } else if !HasRow(before, row) {
          assert (before + [row])[|before|] == row;
        }
      }
    }
  }

  lemma {:induction false} StillHasRow(events: seq<EventRow>, more: EventRow, row: EventRow)
    requires HasRow(events, row)
    ensures HasRow(events + [more], row)
  {
    var k :| 0 <= k < |events| && events[k].signature == row.signature && events[k].index == row.index;
    assert (events + [more])[k] == events[k];
  }

  lemma {:induction false} NothingInserted(events: seq<EventRow>, rows: seq<EventRow>)
    requires forall k :: 0 <= k < |rows| ==> HasRow(events, rows[k])
    ensures Inserted(events, rows) == events
  {
    if rows != [] {
      NothingInserted(events, rows[..|rows| - 1]);
    }
  }

  class IndexerStore {
    var transactions: seq<Record>
    var events: seq<EventRow>
    var cursor: Option<Signature>
    var genesis: Option<string>
    var program: Option<string>

    function State(): Tables
      reads this
    {
      Tables(transactions, events, cursor, genesis, program)
    }

    constructor ()
      ensures State() == Tables([], [], None, None, None)
    {
      transactions, events, cursor, genesis, program := [], [], None, None, None;
    }

    method IsIndexed(signature: Signature) returns (indexed: bool)
      ensures indexed <==> State().IsIndexed(signature)
    {
      for k := 0 to |transactions|
        invariant forall j :: 0 <= j < k ==> transactions[j].signature != signature
      {
        if transactions[k].signature == signature {
          return true;
        }
      }
      return false;
    }

    /** Moves the cursor past a transaction that is already indexed. */
    method AdvanceCursor(signature: Signature)
      modifies this
      ensures State() == old(State()).(cursor := Some(signature))
    {
      cursor := Some(signature);
    }

    /** Stores a transaction with its events and moves the cursor to it, atomically. */
    method Save(r: Record)
      modifies this
      ensures State() == old(State()).Recorded(r)
    {
      var indexed := IsIndexed(r.signature);
      if !indexed {
        transactions := transactions + [r];
      }
      var rows := RowsOf(r);
      var stored := events;
      for k := 0 to |rows|
        invariant stored == Inserted(events, rows[..k])
      {
        assert rows[..k + 1][..k] == rows[..k];
        if !HasRow(stored, rows[k]) {
          stored := stored + [rows[k]];
        }
      }
      assert rows[..|rows|] == rows;
      events := stored;
      cursor := Some(r.signature);
    }
  }
}
