/** The realtime dispatcher: one row a turn, 200 turns a drain (services/realtime/src/dispatcher.ts, framework.ts). */
module Dispatcher {
  import opened Prelude
  import opened OutboxTable

  const MAX_ROWS_PER_DRAIN := 200

  /** What goes wrong while one row is handled; consumers are numbered in registration order. */
  datatype Fault = Fine | Lookup(at: nat) | Handler(at: nat) | Record(at: nat) | Mark

  type Faults = nat -> Fault

  /** What one row's consumers did: rows for core.processed_events, and handler calls, which no
      rollback undoes since a handler is not given the transaction's client. */
  datatype Work = Work(writes: seq<Effect>, calls: seq<Effect>, threw: bool)

  function Called(w: Work, call: Effect, fails: bool): Work {
    Work(if fails then w.writes else w.writes + [call], w.calls + [call], fails)
  }

  /** The first `k` consumers on one event; `done` is core.processed_events. */
  function Consume(event: nat, consumers: seq<string>, k: nat, done: seq<Effect>, fault: Fault): Work
    requires k <= |consumers|
  {
    if k == 0 then Work([], [], false)
    else
      var w := Consume(event, consumers, k - 1, done, fault);
      var call := Effect(event, consumers[k - 1]);
      if w.threw then w
      else if fault == Lookup(k - 1) then Work(w.writes, w.calls, true)
      else if call in done || call in w.writes then w
      else Called(w, call, fault == Handler(k - 1) || fault == Record(k - 1))
  }

  /** Every consumer, in registration order, on one event. */
  function Each(event: nat, consumers: seq<string>): (r: seq<Effect>)
    ensures |r| == |consumers| && forall i :: 0 <= i < |r| ==> r[i] == Effect(event, consumers[i])
  {
    seq(|consumers|, i requires 0 <= i < |consumers| => Effect(event, consumers[i]))
  }

  predicate Distinct(names: seq<string>) {
    forall i, j :: 0 <= i < j < |names| ==> names[i] != names[j]
  }

  /** A fault that happens on some row of `n` consumers, none of which was skipped. */
  predicate Stops(fault: Fault, n: nat) {
    match fault
    case Fine => false
    case Mark => true
    case Lookup(i) => i < n
    case Handler(i) => i < n
    case Record(i) => i < n
  }

  /** How many handlers run before (or at) the fault. */
  function Reached(fault: Fault, n: nat): nat {
    match fault
    case Lookup(i) => if i < n then i else n
    case Handler(i) => if i < n then i + 1 else n
    case Record(i) => if i < n then i + 1 else n
    case _ => n
  }

  lemma ReachedStep(fault: Fault, k: nat)
    requires k > 0
    ensures fault != Mark && Stops(fault, k - 1) ==> Stops(fault, k) && Reached(fault, k) == Reached(fault, k - 1)
    ensures fault == Mark || !Stops(fault, k - 1) ==>
      && Reached(fault, k - 1) == k - 1
      && Reached(fault, k) == (if fault == Lookup(k - 1) then k - 1 else k)
      && (fault != Mark && Stops(fault, k) <==>
          fault == Lookup(k - 1) || fault == Handler(k - 1) || fault == Record(k - 1))
  {
  }

  lemma NotCalledYet(event: nat, consumers: seq<string>, m: nat, k: nat)
    requires m <= k < |consumers| && Distinct(consumers)
    ensures Effect(event, consumers[k]) !in Each(event, consumers[..m])
  {
    assert forall i :: 0 <= i < m ==> Each(event, consumers[..m])[i].statement == consumers[i];
  }

  /** When core.processed_events has nothing on the event, no consumer is skipped: the handlers called
      are exactly those up to the fault, and without one every consumer is recorded. */
  lemma {:induction false} ConsumeCallsUpToTheFault(
      event: nat, consumers: seq<string>, k: nat, done: seq<Effect>, fault: Fault)
    requires k <= |consumers| && Distinct(consumers)
    requires forall i :: 0 <= i < |done| ==> done[i].event != event
    ensures var w := Consume(event, consumers, k, done, fault);
      && w.threw == (fault != Mark && Stops(fault, k))
      && w.calls == Each(event, consumers[..Reached(fault, k)])
      && (!w.threw ==> w.writes == Each(event, consumers[..k]))
      && (forall x :: x in w.writes ==> x in w.calls)
  {
    if k > 0 {
      ConsumeCallsUpToTheFault(event, consumers, k - 1, done, fault);
      var w := Consume(event, consumers, k - 1, done, fault);
      var call := Effect(event, consumers[k - 1]);
      assert call !in done;
      ReachedStep(fault, k);
      if !w.threw {
        NotCalledYet(event, consumers, k - 1, k - 1);
        assert Each(event, consumers[..k]) == Each(event, consumers[..k - 1]) + [call];
        hide Each, Stops, Reached;
        assert call !in w.writes;
      }
    }
  }

  /** Whatever core.processed_events holds: no handler is called for a consumer that is on record for the event, each
      of the others is called at most once, and without a fault every one of them is on record afterwards. */
  lemma {:induction false} ConsumeSkipsTheProcessed(
      event: nat, consumers: seq<string>, k: nat, done: seq<Effect>, fault: Fault)
    requires k <= |consumers| && Distinct(consumers)
    ensures var w := Consume(event, consumers, k, done, fault);
      && (forall x :: x in w.calls ==> x !in done && exists i :: 0 <= i < k && x == Effect(event, consumers[i]))
      && (forall x :: x in w.writes ==> x in w.calls)
      && (!w.threw ==> w.calls == w.writes)
      && (!w.threw ==> forall i :: 0 <= i < k ==>
            Effect(event, consumers[i]) in done || Effect(event, consumers[i]) in w.writes)
      && (forall i, j :: 0 <= i < j < |w.calls| ==> w.calls[i] != w.calls[j])
  {
    if k == 0 {
    } else {
      ConsumeSkipsTheProcessed(event, consumers, k - 1, done, fault);
      var before, w := Consume(event, consumers, k - 1, done, fault), Consume(event, consumers, k, done, fault);
      var call := Effect(event, consumers[k - 1]);
      assert call !in before.calls;
      assert w == before || w.calls == before.calls || w.calls == before.calls + [call];
    }
  }

  // ---------------------------------------------------------------------
  // Tables
  // ---------------------------------------------------------------------

  /** `effects` is core.processed_events; `calls` and `broadcasts` happened outside the database. */
  datatype Board = Board(rows: seq<Row>, effects: seq<Effect>, calls: seq<Effect>, broadcasts: seq<nat>)

  /** `where dispatched_at is null order by occurred_at limit 1`. */
  function Head(rows: seq<Row>): (p: nat)
    ensures p <= |rows|
    ensures forall i :: 0 <= i < p ==> rows[i].dispatched
    ensures p < |rows| ==> !rows[p].dispatched
  {
    if rows == [] || !rows[0].dispatched then 0 else 1 + Head(rows[1..])
  }

  predicate Goes(b: Board, consumers: seq<string>, faults: Faults) {
    var p := Head(b.rows);
    p < |b.rows| && faults(b.rows[p].id) != Mark && !WorkAt(b, consumers, faults, p).threw
  }

  function WorkAt(b: Board, consumers: seq<string>, faults: Faults, p: nat): Work
    requires p < |b.rows|
  {
    Consume(b.rows[p].id, consumers, |consumers|, b.effects, faults(b.rows[p].id))
  }

  function Sent(b: Board, w: Work, p: nat): Board
    requires p < |b.rows|
  {
    Board(Marked(b.rows, {b.rows[p].id}), b.effects + w.writes, b.calls + w.calls, b.broadcasts + [b.rows[p].id])
  }

  /** One turn of the drain's loop. */
  function Turn(b: Board, consumers: seq<string>, faults: Faults): Board {
    var p := Head(b.rows);
    if p == |b.rows| then b
    else
      var w := WorkAt(b, consumers, faults, p);
      if Goes(b, consumers, faults) then Sent(b, w, p) else b.(calls := b.calls + w.calls)
  }

  /** At most `n` turns, stopping at the first that dispatches nothing. */
  function Drained(b: Board, consumers: seq<string>, faults: Faults, n: nat): Board
    decreases n
  {
    if n == 0 then b
    else if Goes(b, consumers, faults) then Drained(Turn(b, consumers, faults), consumers, faults, n - 1)
    else Turn(b, consumers, faults)
  }

  datatype Outcome = Dispatched(event: nat) | Empty | Threw

  class Dispatcher {
    const db: Connection
    const consumers: seq<string>
    var calls: seq<Effect>
    var broadcasts: seq<nat>

    ghost predicate Valid() reads this, db {
      db.Idle()
    }

    ghost function Contents(): Board reads this, db {
      Board(db.rows, db.effects, calls, broadcasts)
    }

    constructor (connection: Connection, registry: seq<string>)
      requires connection.Idle()
      ensures Valid() && db == connection && consumers == registry
      ensures Contents() == Board(connection.rows, connection.effects, [], [])
    {
      db, consumers, calls, broadcasts := connection, registry, [], [];
    }

    method RunConsumers(event: nat, fault: Fault) returns (threw: bool)
      requires db.open && !db.aborted && db.pending == []
      modifies this`calls, db`aborted, db`pending
      ensures var w := Consume(event, consumers, |consumers|, db.effects, fault);
        && threw == w.threw && calls == old(calls) + w.calls
        && (!threw ==> !db.aborted && db.pending == w.writes)
    {
      threw := false;
      var k := 0;
      while k < |consumers| && !threw
        invariant 0 <= k <= |consumers|
        invariant var w := Consume(event, consumers, k, db.effects, fault);
          && threw == w.threw && calls == old(calls) + w.calls
          && (!threw ==> !db.aborted && db.pending == w.writes)
      {
        ghost var w := Consume(event, consumers, k, db.effects, fault);
        var call := Effect(event, consumers[k]);
        threw := db.Execute(event, "core.processed_events", false, fault == Lookup(k));
        if !threw && call !in db.effects && call !in db.pending {
          calls := calls + [call];
          assert calls == old(calls) + (w.calls + [call]);
          if fault == Handler(k) {
            threw := true;
          } else {
            threw := db.Execute(event, consumers[k], true, fault == Record(k));
          }
        }
        k := k + 1;
      }
      if threw {
        ThrewStays(event, consumers, k, db.effects, fault);
      }
    }

    /** One row in one transaction: its consumers, then its mark; any failure rolls back. */
    method DispatchOne(faults: Faults) returns (outcome: Outcome)
      requires Valid()
      modifies this`calls, db
      ensures Valid()
      ensures var b := old(Contents()); var p := Head(b.rows);
        outcome == if p == |b.rows| then Empty
                   else if Goes(b, consumers, faults) then Dispatched(b.rows[p].id) else Threw
      ensures Contents() == Turn(old(Contents()), consumers, faults).(broadcasts := broadcasts)
    {
      db.Begin();
      var p := Head(db.rows);
      if p == |db.rows| {
        MarkedNothing(db.rows);
        db.Commit();
        return Empty;
      }
      var event := db.rows[p].id;
      var threw := RunConsumers(event, faults(event));
      if !threw {
        threw := db.MarkDispatched(event, faults(event) == Mark);
      }
      if threw {
        db.Rollback();
        return Threw;
      }
      assert db.marks == {event};
      db.Commit();
      return Dispatched(event);
    }

    /** The broadcast follows the commit. It returns the number of rows dispatched. */
    method DrainOutbox(faults: Faults) returns (dispatchedCount: nat)
      requires Valid()
      modifies this`calls, this`broadcasts, db
      ensures Valid()
      ensures Contents() == Drained(old(Contents()), consumers, faults, MAX_ROWS_PER_DRAIN)
      ensures |broadcasts| == |old(broadcasts)| + dispatchedCount
    {
      dispatchedCount := 0;
      var i := 0;
      while i < MAX_ROWS_PER_DRAIN
        invariant 0 <= i <= MAX_ROWS_PER_DRAIN
        invariant Valid()
        invariant Drained(Contents(), consumers, faults, MAX_ROWS_PER_DRAIN - i) ==
          Drained(old(Contents()), consumers, faults, MAX_ROWS_PER_DRAIN)
        invariant |broadcasts| == |old(broadcasts)| + dispatchedCount
      {
        var outcome := DispatchOne(faults);
        if outcome.Dispatched? {
          broadcasts := broadcasts + [outcome.event];
          dispatchedCount := dispatchedCount + 1;
        } else {
          break;
        }
        i := i + 1;
      }
    }
  }

  lemma {:induction false} ThrewStays(event: nat, consumers: seq<string>, k: nat, done: seq<Effect>, fault: Fault)
    requires k <= |consumers| && Consume(event, consumers, k, done, fault).threw
    ensures Consume(event, consumers, |consumers|, done, fault) == Consume(event, consumers, k, done, fault)
    decreases |consumers| - k
  {
    if k < |consumers| {
      ThrewStays(event, consumers, k + 1, done, fault);
    }
  }

  // ---------------------------------------------------------------------
  // Whole histories: no other drainer, no overlapping drains, rows arriving in `occurred_at` order
  // ---------------------------------------------------------------------

  datatype Occurrence = Arrive(event: nat, name: string) | Drain(faults: Faults)

  predicate Possible(b: Board, o: Occurrence) {
    o.Arrive? ==> forall i :: 0 <= i < |b.rows| ==> b.rows[i].id != o.event
  }

  function Then(b: Board, consumers: seq<string>, o: Occurrence): Board {
    match o
    case Arrive(event, name) => b.(rows := b.rows + [Row(event, name, false)])
    case Drain(faults) => Drained(b, consumers, faults, MAX_ROWS_PER_DRAIN)
  }

  function After(b: Board, consumers: seq<string>, h: seq<Occurrence>): Board
    decreases |h|
  {
    if h == [] then b else After(Then(b, consumers, h[0]), consumers, h[1..])
  }

  predicate CanHappen(b: Board, consumers: seq<string>, h: seq<Occurrence>)
    decreases |h|
  {
    h != [] ==> Possible(b, h[0]) && CanHappen(Then(b, consumers, h[0]), consumers, h[1..])
  }

  function Ids(rows: seq<Row>): (r: seq<nat>)
    ensures |r| == |rows| && forall i :: 0 <= i < |r| ==> r[i] == rows[i].id
  {
    seq(|rows|, i requires 0 <= i < |rows| => rows[i].id)
  }

  /** Every consumer of every row, row by row. */
  function AllOf(rows: seq<Row>, consumers: seq<string>): seq<Effect> {
    if rows == [] then []
    else AllOf(rows[..|rows| - 1], consumers) + Each(rows[|rows| - 1].id, consumers)
  }

  /** The dispatched rows are a prefix of the table; the broadcasts are that prefix, in order, and
      core.processed_events holds every consumer of its rows and nothing else. */
  predicate InStep(b: Board, consumers: seq<string>) {
    var p := Head(b.rows);
    && DistinctEvents(b.rows)
    && (forall i :: p <= i < |b.rows| ==> !b.rows[i].dispatched)
    && b.broadcasts == Ids(b.rows[..p])
    && b.effects == AllOf(b.rows[..p], consumers)
  }

  lemma {:induction false} AllOfKnows(rows: seq<Row>, consumers: seq<string>, x: Effect)
    requires x in AllOf(rows, consumers)
    ensures exists i :: 0 <= i < |rows| && rows[i].id == x.event
  {
    if x in AllOf(rows[..|rows| - 1], consumers) {
      AllOfKnows(rows[..|rows| - 1], consumers, x);
      var i :| 0 <= i < |rows| - 1 && rows[..|rows| - 1][i].id == x.event;
      assert rows[i].id == x.event;
    } else {
      assert rows[|rows| - 1].id == x.event;
    }
  }

  /** So the consumers' own check for an event handled before never finds the row at hand. */
  lemma NothingProcessedBefore(b: Board, consumers: seq<string>)
    requires InStep(b, consumers) && Head(b.rows) < |b.rows|
    ensures forall i :: 0 <= i < |b.effects| ==> b.effects[i].event != b.rows[Head(b.rows)].id
  {
    var p := Head(b.rows);
    forall i | 0 <= i < |b.effects| ensures b.effects[i].event != b.rows[p].id {
      assert b.effects[i] in AllOf(b.rows[..p], consumers);
      AllOfKnows(b.rows[..p], consumers, b.effects[i]);
      var j :| 0 <= j < p && b.rows[..p][j].id == b.effects[i].event;
      assert b.rows[j].id != b.rows[p].id;
    }
  }

  lemma {:induction false} HeadIs(rows: seq<Row>, p: nat)
    requires p <= |rows| && (forall i :: 0 <= i < p ==> rows[i].dispatched)
    requires p < |rows| ==> !rows[p].dispatched
    ensures Head(rows) == p
  {
  }

  lemma TurnRuns(b: Board, consumers: seq<string>, faults: Faults)
    requires InStep(b, consumers) && Distinct(consumers) && Head(b.rows) < |b.rows|
    ensures var p := Head(b.rows); var event := b.rows[p].id; var w := WorkAt(b, consumers, faults, p);
      && (Goes(b, consumers, faults) <==> !Stops(faults(event), |consumers|))
      && w.calls == Each(event, consumers[..Reached(faults(event), |consumers|)])
      && (Goes(b, consumers, faults) ==> w.writes == Each(event, consumers))
  {
    var p := Head(b.rows);
    NothingProcessedBefore(b, consumers);
    ConsumeCallsUpToTheFault(b.rows[p].id, consumers, |consumers|, b.effects, faults(b.rows[p].id));
    assert consumers[..|consumers|] == consumers;
  }

  lemma MarkingOne(rows: seq<Row>, p: nat)
    requires DistinctEvents(rows) && p < |rows|
    ensures Marked(rows, {rows[p].id}) == rows[p := rows[p].(dispatched := true)]
  {
    var t := Marked(rows, {rows[p].id});
    forall i | 0 <= i < |rows| ensures t[i] == rows[p := rows[p].(dispatched := true)][i] {
      assert i != p ==> rows[i].id != rows[p].id;
    }
  }

  /** The dispatched prefix, grown by the row at `p`. */
  lemma HeadRowsSent(rows: seq<Row>, p: nat, consumers: seq<string>)
    requires p < |rows| && DistinctEvents(rows)
    ensures var t := rows[p := rows[p].(dispatched := true)];
      && DistinctEvents(t) && Ids(t) == Ids(rows)
      && Ids(t[..p + 1]) == Ids(rows[..p]) + [rows[p].id]
      && AllOf(t[..p + 1], consumers) == AllOf(rows[..p], consumers) + Each(rows[p].id, consumers)
  {
    var t := rows[p := rows[p].(dispatched := true)];
    assert t[..p + 1][..p] == rows[..p];
    assert t[..p + 1][p].id == rows[p].id;
  }

  lemma SentInStep(b: Board, consumers: seq<string>, w: Work)
    requires InStep(b, consumers) && Head(b.rows) < |b.rows| && w.writes == Each(b.rows[Head(b.rows)].id, consumers)
    ensures var t := Sent(b, w, Head(b.rows));
      InStep(t, consumers) && Ids(t.rows) == Ids(b.rows) && Head(t.rows) == Head(b.rows) + 1
  {
    var p := Head(b.rows);
    var t := Sent(b, w, p);
    MarkingOne(b.rows, p);
    HeadIs(t.rows, p + 1);
    hide Head, Marked, MarkRow;
    HeadRowsSent(b.rows, p, consumers);
  }

  lemma TurnInStep(b: Board, consumers: seq<string>, faults: Faults)
    requires InStep(b, consumers) && Distinct(consumers)
    ensures var p := Head(b.rows);
      && (Goes(b, consumers, faults) <==> p < |b.rows| && !Stops(faults(b.rows[p].id), |consumers|))
      && var t := Turn(b, consumers, faults);
        && InStep(t, consumers) && Ids(t.rows) == Ids(b.rows)
        && Head(t.rows) == (if Goes(b, consumers, faults) then p + 1 else p)
        && t.calls == (if p == |b.rows| then b.calls
                       else b.calls + Each(b.rows[p].id, consumers[..Reached(faults(b.rows[p].id), |consumers|)]))
  {
    var p := Head(b.rows);
    if p < |b.rows| {
      TurnRuns(b, consumers, faults);
      if Goes(b, consumers, faults) {
        SentInStep(b, consumers, WorkAt(b, consumers, faults, p));
      }
    }
  }

  /** A drain dispatches the next rows up to the first one at fault, at most `n` of them. */
  lemma {:induction false} DrainTakesNextRows(b: Board, consumers: seq<string>, faults: Faults, n: nat)
    requires InStep(b, consumers) && Distinct(consumers)
    ensures var t := Drained(b, consumers, faults, n);
      InStep(t, consumers) && Ids(t.rows) == Ids(b.rows) &&
        Took(Ids(b.rows), Head(b.rows), Head(t.rows), |consumers|, faults, n)
    decreases n
  {
    hide Turn, InStep, Goes, Head, Stops, Reached, Took;
    TurnInStep(b, consumers, faults);
    SameLength(Turn(b, consumers, faults).rows, b.rows);
    var p, goes := Head(b.rows), Goes(b, consumers, faults);
    assert goes <==> p < |b.rows| && !Stops(faults(Ids(b.rows)[p]), |consumers|);
    if n > 0 && goes {
      var t := Turn(b, consumers, faults);
      DrainTakesNextRows(t, consumers, faults, n - 1);
      TookOneMore(Ids(b.rows), p, Head(Drained(t, consumers, faults, n - 1).rows), |consumers|, faults, n - 1);
    } else {
      TookNone(Ids(b.rows), p, |consumers|, faults, n);
    }
  }

  lemma TookNone(ids: seq<nat>, p: nat, consumers: nat, faults: Faults, n: nat)
    requires p <= |ids| && (n > 0 && p < |ids| ==> Stops(faults(ids[p]), consumers))
    ensures Took(ids, p, p, consumers, faults, n)
  {
  }

  lemma TookOneMore(ids: seq<nat>, p: nat, q: nat, consumers: nat, faults: Faults, n: nat)
    requires p < |ids| && !Stops(faults(ids[p]), consumers) && Took(ids, p + 1, q, consumers, faults, n)
    ensures Took(ids, p, q, consumers, faults, n + 1)
  {
  }

  /** From row `p` to row `q` none is at fault; short of `n` rows, the table ends or the next one is. */
  predicate Took(ids: seq<nat>, p: nat, q: nat, consumers: nat, faults: Faults, n: nat) {
    && p <= q <= |ids| && q <= p + n
    && (forall i :: p <= i < q ==> !Stops(faults(ids[i]), consumers))
    && (q < p + n && q < |ids| ==> Stops(faults(ids[q]), consumers))
  }

  lemma SameLength(a: seq<Row>, b: seq<Row>)
    requires Ids(a) == Ids(b)
    ensures |a| == |b| && forall i :: 0 <= i < |a| ==> a[i].id == b[i].id
  {
    assert |a| == |Ids(a)| == |b|;
    assert forall i :: 0 <= i < |a| ==> a[i].id == Ids(a)[i] == Ids(b)[i] == b[i].id;
  }

  lemma ThenInStep(b: Board, consumers: seq<string>, o: Occurrence)
    requires InStep(b, consumers) && Distinct(consumers) && Possible(b, o)
    ensures var t := Then(b, consumers, o);
      InStep(t, consumers) && |b.rows| <= |t.rows| && forall i :: 0 <= i < |b.rows| ==> t.rows[i].id == b.rows[i].id
  {
    match o
    case Arrive(event, name) =>
      var t, p := Then(b, consumers, o), Head(b.rows);
      HeadIs(t.rows, p);
      assert t.rows[..p] == b.rows[..p];
    case Drain(faults) =>
      DrainTakesNextRows(b, consumers, faults, MAX_ROWS_PER_DRAIN);
      SameLength(Then(b, consumers, o).rows, b.rows);
  }

  /** After any history the dispatched rows are a prefix of the table and the broadcasts are exactly
      the committed rows, in the order they were committed, which is the order they occurred in. */
  lemma {:induction false} DispatchedIsAlwaysAPrefix(b: Board, consumers: seq<string>, h: seq<Occurrence>)
    requires InStep(b, consumers) && Distinct(consumers) && CanHappen(b, consumers, h)
    ensures var t := After(b, consumers, h);
      InStep(t, consumers) && |b.rows| <= |t.rows| && forall i :: 0 <= i < |b.rows| ==> t.rows[i].id == b.rows[i].id
    decreases |h|
  {
    if h == [] {
    } else {
      ThenInStep(b, consumers, h[0]);
      DispatchedIsAlwaysAPrefix(Then(b, consumers, h[0]), consumers, h[1..]);
    }
  }

  /** Every drain of the history fails on this event. */
  predicate AlwaysStuck(h: seq<Occurrence>, event: nat, n: nat) {
    forall i :: 0 <= i < |h| && h[i].Drain? ==> Stops(h[i].faults(event), n)
  }

  /** Nothing from a permanently failing row on is ever dispatched or broadcast. */
  lemma {:induction false} NothingPassesAStuckRow(b: Board, consumers: seq<string>, h: seq<Occurrence>, r: nat)
    requires InStep(b, consumers) && Distinct(consumers) && CanHappen(b, consumers, h)
    requires Head(b.rows) <= r < |b.rows| && AlwaysStuck(h, b.rows[r].id, |consumers|)
    ensures var t := After(b, consumers, h);
      && r < |t.rows| && (forall i :: r <= i < |t.rows| ==> !t.rows[i].dispatched)
      && |t.broadcasts| <= r
    decreases |h|
  {
    if h == [] {
    } else {
      ThenInStep(b, consumers, h[0]);
      var t := Then(b, consumers, h[0]);
      assert Head(t.rows) <= r by {
        match h[0]
        case Arrive(event, name) => HeadIs(t.rows, Head(b.rows));
        case Drain(faults) => DrainTakesNextRows(b, consumers, faults, MAX_ROWS_PER_DRAIN);
      }
      assert forall i :: 0 <= i < |h[1..]| ==> h[1..][i] == h[i + 1];
      NothingPassesAStuckRow(t, consumers, h[1..], r);
    }
  }

  function CountOf(calls: seq<Effect>, call: Effect): nat {
    multiset(calls)[call]
  }

  /** The drains of a history that get as far as consumer `j` on the event. */
  function DrainsReaching(h: seq<Occurrence>, event: nat, j: nat, n: nat): nat
    decreases |h|
  {
    if h == [] then 0
    else DrainsReaching(h[1..], event, j, n) + if h[0].Drain? && j < Reached(h[0].faults(event), n) then 1 else 0
  }

  lemma EachCountsOne(event: nat, consumers: seq<string>, m: nat, j: nat)
    requires m <= |consumers| && j < |consumers| && Distinct(consumers)
    ensures CountOf(Each(event, consumers[..m]), Effect(event, consumers[j])) == if j < m then 1 else 0
  {
    var calls, call := Each(event, consumers[..m]), Effect(event, consumers[j]);
    forall i | 0 <= i < |calls| ensures calls[i] == call <==> i == j {
      assert calls[i].statement == consumers[i];
    }
    if j < m {
      assert calls == calls[..j] + [call] + calls[j + 1..];
      assert call !in calls[..j] && call !in calls[j + 1..];
    } else {
      assert call !in calls;
    }
  }

  lemma ReachedAtMost(fault: Fault, n: nat)
    ensures Reached(fault, n) <= n
  {
  }

  /** While a row is stuck at the head, each drain calls again every handler it gets to: a consumer
      that succeeded before the failing one is not skipped by its idempotency check, whose record was
      rolled back with the rest. */
  lemma {:induction false} RetriesCallHandlersAgain(b: Board, consumers: seq<string>, h: seq<Occurrence>, j: nat)
    requires InStep(b, consumers) && Distinct(consumers) && CanHappen(b, consumers, h) && j < |consumers|
    requires Head(b.rows) < |b.rows| && AlwaysStuck(h, b.rows[Head(b.rows)].id, |consumers|)
    ensures var event := b.rows[Head(b.rows)].id; var call := Effect(event, consumers[j]);
      CountOf(After(b, consumers, h).calls, call) == CountOf(b.calls, call) + DrainsReaching(h, event, j, |consumers|)
    decreases |h|
  {
    if h == [] {
    } else {
      var p := Head(b.rows);
      var event := b.rows[p].id;
      var t := Then(b, consumers, h[0]);
      ThenInStep(b, consumers, h[0]);
      assert Head(t.rows) == p && t.rows[p].id == event by {
        match h[0]
        case Arrive(_, _) => HeadIs(t.rows, p);
        case Drain(faults) => TurnInStep(b, consumers, faults); assert Stops(faults(event), |consumers|);
      }
      if h[0].Drain? {
        var m := Reached(h[0].faults(event), |consumers|);
        TurnInStep(b, consumers, h[0].faults);
        ReachedAtMost(h[0].faults(event), |consumers|);
        EachCountsOne(event, consumers, m, j);
      }
      assert forall i :: 0 <= i < |h[1..]| ==> h[1..][i] == h[i + 1];
      RetriesCallHandlersAgain(t, consumers, h[1..], j);
    }
  }

  predicate AllFine(h: seq<Occurrence>, rows: seq<Row>, n: nat) {
    && (forall i :: 0 <= i < |h| ==> h[i].Drain?)
    && (forall i, j :: 0 <= i < |h| && 0 <= j < |rows| ==> !Stops(h[i].faults(rows[j].id), n))
  }

  /** A backlog with no failing row is cleared two hundred rows a drain. */
  lemma {:induction false} BacklogClears(b: Board, consumers: seq<string>, h: seq<Occurrence>)
    requires InStep(b, consumers) && Distinct(consumers) && AllFine(h, b.rows, |consumers|)
    ensures var t := After(b, consumers, h);
      && |t.rows| == |b.rows|
      && Head(t.rows) == if Head(b.rows) + 200 * |h| < |b.rows| then Head(b.rows) + 200 * |h| else |b.rows|
    decreases |h|
  {
    hide InStep, Drained, Goes, Stops;
    if h == [] {
    } else {
      DrainTakesNextRows(b, consumers, h[0].faults, MAX_ROWS_PER_DRAIN);
      var t := Then(b, consumers, h[0]);
      SameLength(t.rows, b.rows);
      assert forall i :: 0 <= i < |h[1..]| ==> h[1..][i] == h[i + 1];
      BacklogClears(t, consumers, h[1..]);
    }
  }
}
