/** core.outbox and one database connection, with PostgreSQL's rule that the first failing statement
    aborts its transaction (workers/src/db.ts, services/realtime/src/db.ts). */
module OutboxTable {
  import opened Prelude

  datatype Row = Row(id: nat, name: string, dispatched: bool)

  /** A committed write a handler made for an event. */
  datatype Effect = Effect(event: nat, statement: string)

  function MarkRow(row: Row, marks: set<nat>): Row {
    if row.id in marks then row.(dispatched := true) else row
  }

  function Marked(rows: seq<Row>, marks: set<nat>): (r: seq<Row>)
    ensures |r| == |rows|
    ensures forall i :: 0 <= i < |rows| ==> r[i] == MarkRow(rows[i], marks)
  {
    seq(|rows|, i requires 0 <= i < |rows| => MarkRow(rows[i], marks))
  }

  lemma MarkedNothing(rows: seq<Row>)
    ensures Marked(rows, {}) == rows
  {
  }

  predicate DistinctEvents(rows: seq<Row>) {
    forall i, j :: 0 <= i < j < |rows| ==> rows[i].id != rows[j].id
  }

  /** `rows` is the table in `occurred_at` order, as every drainer's query reads it. */
  class Connection {
    var rows: seq<Row>
    var effects: seq<Effect>
    // the open transaction
    var open: bool
    var aborted: bool
    var marks: set<nat>
    var pending: seq<Effect>

    ghost predicate Idle() reads this {
      !open && !aborted && marks == {} && pending == []
    }

    constructor (table: seq<Row>)
      ensures Idle() && rows == table && effects == []
    {
      rows, effects := table, [];
      open, aborted, marks, pending := false, false, {}, [];
    }

    method Begin()
      requires Idle()
      modifies this
      ensures open && !aborted && marks == {} && pending == []
      ensures rows == old(rows) && effects == old(effects)
    {
      open := true;
    }

    /** A statement; once the transaction is aborted every statement throws. */
    method Execute(event: nat, statement: string, writes: bool, fails: bool) returns (threw: bool)
      requires open
      modifies this`aborted, this`pending
      ensures threw == (old(aborted) || fails) == aborted
      ensures pending == if writes && !threw then old(pending) + [Effect(event, statement)] else old(pending)
    {
      threw := aborted || fails;
      if threw {
        aborted := true;
      } else if writes {
        pending := pending + [Effect(event, statement)];
      }
    }

    method MarkDispatched(event: nat, fails: bool) returns (threw: bool)
      requires open
      modifies this`aborted, this`marks
      ensures threw == (old(aborted) || fails) == aborted
      ensures marks == if threw then old(marks) else old(marks) + {event}
    {
      threw := aborted || fails;
      if threw {
        aborted := true;
      } else {
        marks := marks + {event};
      }
    }

    /** COMMIT. In an aborted transaction it rolls back, and does not throw. */
    method Commit()
      requires open
      modifies this
      ensures Idle()
      ensures rows == if old(aborted) then old(rows) else Marked(old(rows), old(marks))
      ensures effects == if old(aborted) then old(effects) else old(effects) + old(pending)
    {
      if !aborted {
        rows := Marked(rows, marks);
        effects := effects + pending;
      }
      open, aborted, marks, pending := false, false, {}, [];
    }

    method Rollback()
      requires open
      modifies this
      ensures Idle() && rows == old(rows) && effects == old(effects)
    {
      open, aborted, marks, pending := false, false, {}, [];
    }
  }
}
