/** The batch drains over any history: events that arrive and drains of both workers, in any order. */
module OutboxHistory {
  import opened Prelude
  import opened OutboxTable
  import opened BatchDrains

  datatype Tables = Tables(rows: seq<Row>, effects: seq<Effect>)

  /** One drain: its world and the rows other transactions hold. */
  datatype Drain = Drain(worker: Worker, world: World, locked: set<nat>)

  /** An event is committed somewhere in the table's order, or a drain runs. */
  datatype Happening = Arrives(row: Row, at: nat) | Drains(drain: Drain)

  predicate IsNew(t: Tables, row: Row, at: nat) {
    at <= |t.rows| && !row.dispatched && forall i :: 0 <= i < |t.rows| ==> t.rows[i].id != row.id
  }

  /** An event with a known id is refused. */
  function Happens(t: Tables, h: Happening): Tables {
    match h
    case Arrives(row, at) => if IsNew(t, row, at) then t.(rows := t.rows[..at] + [row] + t.rows[at..]) else t
    case Drains(drain) =>
      Tables(RowsAfter(drain.worker, t.rows, drain.world, drain.locked),
             t.effects + NewEffects(drain.worker, t.rows, drain.world, drain.locked))
  }

  function After(t: Tables, hs: seq<Happening>): Tables
    decreases |hs|
  {
    if hs == [] then t else Happens(After(t, hs[..|hs| - 1]), hs[|hs| - 1])
  }

  // ---------------------------------------------------------------------
  // The effects of one event
  // ---------------------------------------------------------------------

  function Of(effects: seq<Effect>, event: nat): seq<Effect> {
    if effects == [] then []
    else
      var last := effects[|effects| - 1];
      Of(effects[..|effects| - 1], event) + if last.event == event then [last] else []
  }

  lemma {:induction false} OfConcat(a: seq<Effect>, b: seq<Effect>, event: nat)
    ensures Of(a + b, event) == Of(a, event) + Of(b, event)
    decreases |b|
  {
    if b == [] {
      assert a + b == a;
    } else {
      assert (a + b)[..|a + b| - 1] == a + b[..|b| - 1];
      OfConcat(a, b[..|b| - 1], event);
    }
  }

  lemma {:induction false} OfWrites(event: nat, statements: seq<Statement>, x: nat)
    ensures Of(WritesOf(event, statements), x) == if x == event then WritesOf(event, statements) else []
  {
    if statements == [] {
    } else {
      var front, last := statements[..|statements| - 1], statements[|statements| - 1];
      OfWrites(event, front, x);
      var tail := if last.Write? then [Effect(event, last.call)] else [];
      OfConcat(WritesOf(event, front), tail, x);
      assert last.Write? ==> tail[..0] == [];
    }
  }

  function RowWrites(worker: Worker, row: Row, world: World): seq<Effect> {
    WritesOf(row.id, Statements(worker, row, world(row.id)))
  }

  lemma OfLast(worker: Worker, batch: seq<Row>, world: World, event: nat)
    requires batch != []
    ensures var front, last := batch[..|batch| - 1], batch[|batch| - 1];
      Of(EffectsOf(worker, batch, world), event) ==
        Of(EffectsOf(worker, front, world), event) +
        if last.id == event && !world(last.id).badPayload then RowWrites(worker, last, world) else []
  {
    var front, last := batch[..|batch| - 1], batch[|batch| - 1];
    var writes := if world(last.id).badPayload then [] else RowWrites(worker, last, world);
    OfConcat(EffectsOf(worker, front, world), writes, event);
    OfWrites(last.id, Statements(worker, last, world(last.id)), event);
  }

  /** In a batch of distinct events, an event's effects are those of its own handler. */
  lemma {:induction false} OfBatch(worker: Worker, batch: seq<Row>, world: World, k: nat)
    requires DistinctEvents(batch) && k < |batch|
    ensures Of(EffectsOf(worker, batch, world), batch[k].id) ==
      if world(batch[k].id).badPayload then [] else RowWrites(worker, batch[k], world)
    decreases |batch|
  {
    hide Of, EffectsOf, RowWrites;
    OfLast(worker, batch, world, batch[k].id);
    var front := batch[..|batch| - 1];
    if k < |front| {
      assert front[k] == batch[k];
      OfBatch(worker, front, world, k);
    } else {
      OfOthers(worker, front, world, batch[k].id);
    }
  }

  lemma {:induction false} OfOthers(worker: Worker, batch: seq<Row>, world: World, event: nat)
    requires forall i :: 0 <= i < |batch| ==> batch[i].id != event
    ensures Of(EffectsOf(worker, batch, world), event) == []
    decreases |batch|
  {
    if batch == [] {
    } else {
      OfLast(worker, batch, world, event);
      OfOthers(worker, batch[..|batch| - 1], world, event);
    }
  }

  // ---------------------------------------------------------------------
  // A drain's batch
  // ---------------------------------------------------------------------

  lemma {:induction false} SelectDistinct(rows: seq<Row>, names: set<string>, locked: set<nat>)
    requires DistinctEvents(rows)
    ensures DistinctEvents(Select(rows, names, locked))
  {
    if rows == [] {
    } else {
      SelectDistinct(rows[1..], names, locked);
      var rest := Select(rows[1..], names, locked);
      forall k | 0 <= k < |rest| ensures rest[k].id != rows[0].id {
        assert rest[k] in rows[1..];
      }
    }
  }

  function SectionNames(n: nat): set<string>
    requires n <= 4
  {
    if n == 0 then {} else SectionNames(n - 1) + {SECTIONS[n - 1]}
  }

  lemma NamesDiffer(n: nat)
    requires n < 4
    ensures SECTIONS[n] !in SectionNames(n)
  {
    assert SectionNames(1) == {PAID};
    assert SectionNames(2) == {PAID, CANCELLED};
    assert SectionNames(3) == {PAID, CANCELLED, RETURNED};
    assert |PAID| == 17 && |CANCELLED| == 22 && |RETURNED| == 22 && |SETTLED| == 22;
    assert CANCELLED[7] == 'o' && RETURNED[7] == 'r' && SETTLED[7] == 'i';
  }

  lemma ConcatDistinct(rows: seq<Row>, a: seq<Row>, b: seq<Row>, name: string)
    requires DistinctEvents(rows) && DistinctEvents(a) && DistinctEvents(b)
    requires forall i :: 0 <= i < |a| ==> a[i] in rows && a[i].name != name
    requires forall j :: 0 <= j < |b| ==> b[j] in rows && b[j].name == name
    ensures DistinctEvents(a + b)
  {
    forall i, j | 0 <= i < |a| && 0 <= j < |b| ensures a[i].id != b[j].id {
      assert a[i] in rows && b[j] in rows && a[i] != b[j];
    }
  }

  lemma {:induction false} SectionsDistinct(rows: seq<Row>, locked: set<nat>, n: nat)
    requires DistinctEvents(rows) && n <= 4
    ensures var batch := Sections(rows, locked, n);
      DistinctEvents(batch) && forall k :: 0 <= k < |batch| ==> !batch[k].dispatched && batch[k].name in SectionNames(n)
  {
    if n > 0 {
      var name := SECTIONS[n - 1];
      SectionsDistinct(rows, locked, n - 1);
      SelectDistinct(rows, {name}, locked);
      NamesDiffer(n - 1);
      hide DistinctEvents;
      ConcatDistinct(rows, Sections(rows, locked, n - 1), Select(rows, {name}, locked), name);
    }
  }

  /** The events a worker asks for. */
  function NamesOf(worker: Worker): set<string> {
    if worker.Dispatch? then DISPATCH_EVENTS else SectionNames(4)
  }

  lemma BatchDistinct(worker: Worker, rows: seq<Row>, locked: set<nat>)
    requires DistinctEvents(rows)
    ensures var batch := BatchOf(worker, rows, locked);
      DistinctEvents(batch) &&
      forall k :: 0 <= k < |batch| ==> batch[k] in rows && !batch[k].dispatched && batch[k].name in NamesOf(worker)
  {
    if worker.Dispatch? {
      SelectDistinct(rows, DISPATCH_EVENTS, locked);
    } else {
      SectionsDistinct(rows, locked, 4);
    }
  }

  // ---------------------------------------------------------------------
  // Each event exactly once
  // ---------------------------------------------------------------------

  /** The drain commits the event's handler: its payload is good, and the database refuses no handler of the batch. */
  predicate Commits(drain: Drain, rows: seq<Row>, event: nat) {
    var batch := BatchOf(drain.worker, rows, drain.locked);
    !Poisoned(drain.worker, batch, drain.world) && event in Handled(batch, drain.world)
  }

  /** The drains of a history that committed the event. */
  function Committers(t: Tables, hs: seq<Happening>, event: nat): seq<Drain>
    decreases |hs|
  {
    if hs == [] then []
    else
      var front, last := hs[..|hs| - 1], hs[|hs| - 1];
      Committers(t, front, event) +
      if last.Drains? && Commits(last.drain, After(t, front).rows, event) then [last.drain] else []
  }

  const EMPTY: Tables := Tables([], [])

  /** What the tables tell about an event that these drains committed. */
  ghost predicate Told(t: Tables, drains: seq<Drain>, event: nat) {
    && |drains| <= 1
    && ((forall row :: row in t.rows ==> row.id != event) ==> drains == [])
    && (drains == [] ==> Of(t.effects, event) == [])
    && forall row :: row in t.rows && row.id == event ==>
         && row.dispatched == (drains != [])
         && (drains != [] ==>
               && Of(t.effects, event) == RowWrites(drains[0].worker, row, drains[0].world)
               && row.name in NamesOf(drains[0].worker) && !drains[0].world(event).badPayload)
  }

  lemma Inserted(rows: seq<Row>, row: Row, at: nat)
    requires at <= |rows| && DistinctEvents(rows) && forall i :: 0 <= i < |rows| ==> rows[i].id != row.id
    ensures var more := rows[..at] + [row] + rows[at..];
      && (forall x :: x in more <==> x in rows || x == row)
      && DistinctEvents(more)
  {
    assert rows == rows[..at] + rows[at..];
  }

  lemma ArrivalTold(t: Tables, row: Row, at: nat, drains: seq<Drain>, event: nat)
    requires Told(t, drains, event) && DistinctEvents(t.rows) && IsNew(t, row, at)
    ensures var u := Happens(t, Arrives(row, at)); Told(u, drains, event) && DistinctEvents(u.rows)
  {
    hide Of, RowWrites, DistinctEvents, NamesOf;
    Inserted(t.rows, row, at);
    assert forall x :: x in t.rows ==> x.id != row.id;
    var u := Happens(t, Arrives(row, at));
    assert u.effects == t.effects && forall x :: x in u.rows <==> x in t.rows || x == row;
  }

  /** The row a drain commits, before and after. */
  lemma CommittedRow(t: Tables, drain: Drain, event: nat) returns (row: Row)
    requires DistinctEvents(t.rows) && Commits(drain, t.rows, event)
    ensures row in t.rows && row.id == event && !row.dispatched
    ensures row.name in NamesOf(drain.worker) && !drain.world(event).badPayload
    ensures Of(NewEffects(drain.worker, t.rows, drain.world, drain.locked), event) ==
      RowWrites(drain.worker, row, drain.world)
  {
    hide Of, RowWrites, EffectsOf, NamesOf;
    var batch := BatchOf(drain.worker, t.rows, drain.locked);
    BatchDistinct(drain.worker, t.rows, drain.locked);
    var k :| 0 <= k < |batch| && !drain.world(batch[k].id).badPayload && batch[k].id == event;
    OfBatch(drain.worker, batch, drain.world, k);
    row := batch[k];
  }

  lemma MarkedOnly(rows: seq<Row>, marks: set<nat>, row: Row)
    requires DistinctEvents(rows) && row in rows && row.id in marks
    ensures forall x :: x in Marked(rows, marks) && x.id == row.id ==> x == row.(dispatched := true)
    ensures exists x :: x in Marked(rows, marks) && x.id == row.id
  {
    var marked := Marked(rows, marks);
    var j :| 0 <= j < |rows| && rows[j] == row;
    assert marked[j] == row.(dispatched := true);
    forall x | x in marked && x.id == row.id ensures x == row.(dispatched := true) {
      var i :| 0 <= i < |marked| && marked[i] == x;
      assert i == j;
    }
  }

  lemma CommitTold(t: Tables, drain: Drain, event: nat)
    requires DistinctEvents(t.rows) && Told(t, [], event) && Commits(drain, t.rows, event)
    ensures Told(Happens(t, Drains(drain)), [drain], event)
  {
    hide Of, NewEffects, RowWrites, DistinctEvents, Poisoned, NamesOf;
    var row := CommittedRow(t, drain, event);
    OfConcat(t.effects, NewEffects(drain.worker, t.rows, drain.world, drain.locked), event);
    MarkedOnly(t.rows, Handled(BatchOf(drain.worker, t.rows, drain.locked), drain.world), row);
    SameWrites(drain.worker, row, drain.world);
    hide Handled, BatchOf;
  }

  lemma SameWrites(worker: Worker, row: Row, world: World)
    ensures RowWrites(worker, row.(dispatched := true), world) == RowWrites(worker, row, world)
  {
  }

  lemma OtherTold(t: Tables, drain: Drain, drains: seq<Drain>, event: nat)
    requires DistinctEvents(t.rows) && Told(t, drains, event) && !Commits(drain, t.rows, event)
    ensures Told(Happens(t, Drains(drain)), drains, event)
  {
    var batch, u := BatchOf(drain.worker, t.rows, drain.locked), Happens(t, Drains(drain));
    var more := NewEffects(drain.worker, t.rows, drain.world, drain.locked);
    OfConcat(t.effects, more, event);
    if !Poisoned(drain.worker, batch, drain.world) {
      UnhandledEffects(drain, t.rows, event);
    }
    assert Of(more, event) == [];
    assert forall i :: 0 <= i < |t.rows| && t.rows[i].id == event ==> u.rows[i] == t.rows[i];
    forall i | 0 <= i < |t.rows| ensures u.rows[i].id == t.rows[i].id {
    }
  }

  lemma UnhandledEffects(drain: Drain, rows: seq<Row>, event: nat)
    requires DistinctEvents(rows) && event !in Handled(BatchOf(drain.worker, rows, drain.locked), drain.world)
    ensures Of(EffectsOf(drain.worker, BatchOf(drain.worker, rows, drain.locked), drain.world), event) == []
  {
    var batch := BatchOf(drain.worker, rows, drain.locked);
    BatchDistinct(drain.worker, rows, drain.locked);
    if k :| 0 <= k < |batch| && batch[k].id == event {
      assert drain.world(batch[k].id).badPayload;
      OfBatch(drain.worker, batch, drain.world, k);
    } else {
      OfOthers(drain.worker, batch, drain.world, event);
    }
  }

  /** A committed event is not committed again. */
  lemma CommitsOnce(t: Tables, drain: Drain, drains: seq<Drain>, event: nat)
    requires DistinctEvents(t.rows) && Told(t, drains, event) && Commits(drain, t.rows, event)
    ensures drains == []
  {
    var row := CommittedRow(t, drain, event);
  }

  lemma ArrivalOrRefusal(t: Tables, h: Happening, drains: seq<Drain>, event: nat)
    requires Told(t, drains, event) && DistinctEvents(t.rows) && h.Arrives?
    ensures Told(Happens(t, h), drains, event) && DistinctEvents(Happens(t, h).rows)
  {
    if IsNew(t, h.row, h.at) {
      ArrivalTold(t, h.row, h.at, drains, event);
    }
  }

  lemma DrainTold(t: Tables, drain: Drain, drains: seq<Drain>, event: nat)
    requires Told(t, drains, event) && DistinctEvents(t.rows)
    ensures Told(Happens(t, Drains(drain)), drains + if Commits(drain, t.rows, event) then [drain] else [], event)
    ensures DistinctEvents(Happens(t, Drains(drain)).rows)
  {
    StaysDistinct(t, drain);
    hide Told, Commits, Happens, DistinctEvents;
    if Commits(drain, t.rows, event) {
      CommitsOnce(t, drain, drains, event);
      CommitTold(t, drain, event);
    } else {
      OtherTold(t, drain, drains, event);
      assert drains + [] == drains;
    }
  }

  lemma StaysDistinct(t: Tables, drain: Drain)
    requires DistinctEvents(t.rows)
    ensures DistinctEvents(Happens(t, Drains(drain)).rows)
  {
  }

  lemma {:induction false} HistoryTold(hs: seq<Happening>, event: nat)
    ensures Told(After(EMPTY, hs), Committers(EMPTY, hs, event), event) && DistinctEvents(After(EMPTY, hs).rows)
    decreases |hs|
  {
    if hs == [] {
    } else {
      hide Told, Commits, Happens, DistinctEvents;
      var front, last := hs[..|hs| - 1], hs[|hs| - 1];
      HistoryTold(front, event);
      if last.Arrives? {
        ArrivalOrRefusal(After(EMPTY, front), last, Committers(EMPTY, front, event), event);
      } else {
        DrainTold(After(EMPTY, front), last.drain, Committers(EMPTY, front, event), event);
      }
    }
  }

  /** All or nothing for each event, over every history of arrivals and drains of both workers: an event is marked
      if and only if exactly one drain committed it, and then its committed writes are those of that drain's handler,
      each once; otherwise nothing of any attempt at it is in the database. */
  lemma DispatchedExactlyOnce(hs: seq<Happening>, i: nat)
    requires i < |After(EMPTY, hs).rows|
    ensures var t := After(EMPTY, hs); var row := t.rows[i]; var drains := Committers(EMPTY, hs, row.id);
      && |drains| == (if row.dispatched then 1 else 0)
      && Of(t.effects, row.id) == if row.dispatched then RowWrites(drains[0].worker, row, drains[0].world) else []
  {
    HistoryTold(hs, After(EMPTY, hs).rows[i].id);
  }

  // ---------------------------------------------------------------------
  // Which writes an event gets
  // ---------------------------------------------------------------------

  predicate Has(effects: seq<Effect>, event: nat, statement: string) {
    Effect(event, statement) in effects
  }

  lemma {:induction false} OfHas(effects: seq<Effect>, event: nat, statement: string)
    ensures Has(effects, event, statement) <==> Has(Of(effects, event), event, statement)
    decreases |effects|
  {
    if effects == [] {
    } else {
      var front, last := effects[..|effects| - 1], effects[|effects| - 1];
      assert effects == front + [last];
      OfHas(front, event, statement);
    }
  }

  lemma SectionNamesAre()
    ensures SectionNames(4) == {PAID, CANCELLED, RETURNED, SETTLED}
  {
    assert SectionNames(1) == {PAID};
    assert SectionNames(2) == {PAID, CANCELLED};
    assert SectionNames(3) == {PAID, CANCELLED, RETURNED};
  }

  lemma NamesAreApart()
    ensures READY != CANCELLED && PAID != CANCELLED && PAID != RETURNED && PAID != SETTLED
    ensures CANCELLED != RETURNED && CANCELLED != SETTLED && RETURNED != SETTLED
  {
    assert |READY| == 29 && |PAID| == 17 && |CANCELLED| == 22 && |RETURNED| == 22 && |SETTLED| == 22;
    assert CANCELLED[7] == 'o' && RETURNED[7] == 'r' && SETTLED[7] == 'i';
  }

  lemma OneWrite(event: nat, call: string)
    ensures WritesOf(event, [Write(call)]) == [Effect(event, call)]
  {
    assert [Write(call)][..0] == [];
  }

  lemma ReadThenWrite(event: nat, table: string, call: string)
    ensures WritesOf(event, [Read(table)]) == []
    ensures WritesOf(event, [Read(table), Write(call)]) == [Effect(event, call)]
  {
    assert [Read(table)][..0] == [];
    assert [Read(table), Write(call)][..1] == [Read(table)];
  }

  lemma ThreeWrites(event: nat, a: string, b: string, c: string)
    ensures WritesOf(event, [Write(a), Write(b), Write(c)]) == [Effect(event, a), Effect(event, b), Effect(event, c)]
  {
    OneWrite(event, a);
    assert [Write(a), Write(b)][..1] == [Write(a)];
    assert [Write(a), Write(b), Write(c)][..2] == [Write(a), Write(b)];
  }

  /** What each worker owes an event, by its name and by what the handler's lookup finds. */
  predicate Owed(worker: Worker, event: nat, name: string, found: bool, effects: seq<Effect>) {
    match worker
    case Dispatch =>
      || (name == "orders.order.ready_for_pickup" && effects == [Effect(event, "delivery.dispatch_order")])
      || (name == "orders.order.cancelled" && effects == [Effect(event, "delivery.recall_task")])
    case Loyalty =>
      || (name == "orders.order.paid" && found && effects == [Effect(event, "loyalty.earn_on_paid")])
      || (name == "orders.order.paid" && !found && effects == [])
      || (name == "orders.order.cancelled" &&
          effects == [Effect(event, "loyalty.reverse_points"), Effect(event, "loyalty.restore_redemption"),
                      Effect(event, "loyalty.release_coupon_redemption")])
      || (name == "orders.return.approved" && effects == [Effect(event, "loyalty.reverse_points_partial")])
      || (name == "credit.invoice.settled" && found && effects == [Effect(event, "loyalty.grant_early_pay_reward")])
      || (name == "credit.invoice.settled" && !found && effects == [])
  }

  lemma DispatchOwes(row: Row, world: World)
    requires row.name in NamesOf(Dispatch)
    ensures Owed(Dispatch, row.id, row.name, world(row.id).found, RowWrites(Dispatch, row, world))
  {
    NamesAreApart();
    OneWrite(row.id, "delivery.dispatch_order");
    OneWrite(row.id, "delivery.recall_task");
    hide WritesOf;
  }

  lemma LoyaltyOwes(row: Row, world: World)
    requires row.name in NamesOf(Loyalty)
    ensures Owed(Loyalty, row.id, row.name, world(row.id).found, RowWrites(Loyalty, row, world))
  {
    SectionNamesAre();
    NamesAreApart();
    ReadThenWrite(row.id, "orders.orders", "loyalty.earn_on_paid");
    ReadThenWrite(row.id, "credit.invoices", "loyalty.grant_early_pay_reward");
    OneWrite(row.id, "loyalty.reverse_points_partial");
    ThreeWrites(row.id, "loyalty.reverse_points", "loyalty.restore_redemption", "loyalty.release_coupon_redemption");
    hide WritesOf;
    assert [Read("orders.orders")] + [] == [Read("orders.orders")];
    assert [Read("credit.invoices")] + [] == [Read("credit.invoices")];
    assert [Read("orders.orders")] + [Write("loyalty.earn_on_paid")] ==
      [Read("orders.orders"), Write("loyalty.earn_on_paid")];
    assert [Read("credit.invoices")] + [Write("loyalty.grant_early_pay_reward")] ==
      [Read("credit.invoices"), Write("loyalty.grant_early_pay_reward")];
  }

  /** What the database holds for an event, over every history: nothing before it is marked; then what is owed to an
      event of its name by the worker that took it, given what that drain's lookups found. */
  lemma CommittedEffects(hs: seq<Happening>, i: nat)
    requires i < |After(EMPTY, hs).rows|
    ensures var t := After(EMPTY, hs); var row := t.rows[i];
      var drains, effects := Committers(EMPTY, hs, row.id), Of(t.effects, row.id);
      && (!row.dispatched ==> effects == [])
      && (row.dispatched ==>
            |drains| == 1 && Owed(drains[0].worker, row.id, row.name, drains[0].world(row.id).found, effects))
  {
    var row := After(EMPTY, hs).rows[i];
    HistoryTold(hs, row.id);
    var drains := Committers(EMPTY, hs, row.id);
    hide Of, RowWrites, NamesOf, After, Committers, Owed;
    if row.dispatched {
      if drains[0].worker.Dispatch? {
        DispatchOwes(row, drains[0].world);
      } else {
        LoyaltyOwes(row, drains[0].world);
      }
    }
  }

  lemma OwedNotBoth(worker: Worker, event: nat, name: string, found: bool, effects: seq<Effect>)
    requires Owed(worker, event, name, found, effects)
    ensures !(Has(effects, event, "delivery.recall_task") && Has(effects, event, "loyalty.reverse_points"))
  {
  }

  /** Hence no database ever holds the recall of a task and the reversal of points for one event. */
  lemma NeverRecallAndReversal(hs: seq<Happening>, event: nat)
    ensures var effects := After(EMPTY, hs).effects;
      !(Has(effects, event, "delivery.recall_task") && Has(effects, event, "loyalty.reverse_points"))
  {
    var t := After(EMPTY, hs);
    OfHas(t.effects, event, "delivery.recall_task");
    OfHas(t.effects, event, "loyalty.reverse_points");
    HistoryTold(hs, event);
    hide Of, Owed, RowWrites;
    if i :| 0 <= i < |t.rows| && t.rows[i].id == event {
      CommittedEffects(hs, i);
      var drains := Committers(EMPTY, hs, event);
      if t.rows[i].dispatched {
        OwedNotBoth(drains[0].worker, event, t.rows[i].name, drains[0].world(event).found, Of(t.effects, event));
      }
    }
  }

  /** The events a worker's queries name, spelled out. */
  predicate AsksFor(worker: Worker, name: string) {
    if worker.Dispatch? then name in {"orders.order.ready_for_pickup", "orders.order.cancelled"}
    else name in {"orders.order.paid", "orders.order.cancelled", "orders.return.approved", "credit.invoice.settled"}
  }

  /** A row that the drain selects. */
  predicate Selected(drain: Drain, row: Row) {
    !row.dispatched && AsksFor(drain.worker, row.name) && row.id !in drain.locked
  }

  lemma {:induction false} SectionsHave(rows: seq<Row>, locked: set<nat>, n: nat, row: Row)
    requires n <= 4
    ensures row in Sections(rows, locked, n) <==>
      row in rows && !row.dispatched && row.id !in locked && row.name in SectionNames(n)
  {
    if n == 0 {
    } else {
      SectionsHave(rows, locked, n - 1, row);
      assert row in Sections(rows, locked, n) <==>
        row in Sections(rows, locked, n - 1) || row in Select(rows, {SECTIONS[n - 1]}, locked);
    }
  }

  lemma BatchHas(drain: Drain, rows: seq<Row>, row: Row)
    ensures row in BatchOf(drain.worker, rows, drain.locked) <==> row in rows && Selected(drain, row)
  {
    if drain.worker.Loyalty? {
      SectionsHave(rows, drain.locked, 4, row);
      SectionNamesAre();
    }
  }

  /** Which events a drain commits: those it selects whose payload is good, if the database refuses no handler of any
      row it selects. */
  lemma CommitsIff(rows: seq<Row>, drain: Drain, i: nat)
    requires DistinctEvents(rows) && i < |rows|
    ensures Commits(drain, rows, rows[i].id) <==>
      && Selected(drain, rows[i]) && !drain.world(rows[i].id).badPayload
      && forall row :: row in rows && Selected(drain, row) ==> !SqlFails(drain.worker, row, drain.world(row.id))
  {
    var batch := BatchOf(drain.worker, rows, drain.locked);
    forall row ensures row in batch <==> row in rows && Selected(drain, row) {
      BatchHas(drain, rows, row);
    }
    hide BatchOf, Selected, SqlFails;
    if Commits(drain, rows, rows[i].id) {
      var k :| 0 <= k < |batch| && !drain.world(batch[k].id).badPayload && batch[k].id == rows[i].id;
      assert batch[k] in rows;
      forall row | row in rows && Selected(drain, row) ensures !SqlFails(drain.worker, row, drain.world(row.id)) {
        var j :| 0 <= j < |batch| && batch[j] == row;
      }
    } else if Selected(drain, rows[i]) && !drain.world(rows[i].id).badPayload {
      var j :| 0 <= j < |batch| && batch[j] == rows[i];
      assert rows[i].id in Handled(batch, drain.world);
    }
  }

  /** The loyalty worker's count, when it commits, is the number of events it marks. */
  lemma {:induction false} CountsItsMarks(batch: seq<Row>, world: World)
    requires DistinctEvents(batch)
    ensures GoodRows(batch, world) == |Handled(batch, world)|
    decreases |batch|
  {
    if batch == [] {
      assert Handled(batch, world) == {};
    } else {
      var front, last := batch[..|batch| - 1], batch[|batch| - 1];
      CountsItsMarks(front, world);
      assert batch[..|batch|] == batch && batch[..|batch| - 1] == front;
      HandledStep(batch, world, |batch| - 1);
      assert last.id !in Handled(front, world);
    }
  }

  /** A query's rows come in the table's order, which is that of `occurred_at`: those of the earlier rows first. */
  lemma {:induction false} SelectKeepsOrder(rows: seq<Row>, later: seq<Row>, names: set<string>, locked: set<nat>)
    ensures Select(rows + later, names, locked) == Select(rows, names, locked) + Select(later, names, locked)
    decreases |rows|
  {
    if rows == [] {
      assert rows + later == later;
    } else {
      assert (rows + later)[1..] == rows[1..] + later;
      SelectKeepsOrder(rows[1..], later, names, locked);
    }
  }

  /** A batch's writes are those of its rows, one row after the other. */
  lemma {:induction false} EffectsFollowBatch(worker: Worker, batch: seq<Row>, world: World, i: nat, j: nat)
    returns (k: nat, l: nat)
    requires i <= j < |EffectsOf(worker, batch, world)|
    ensures k <= l < |batch|
    ensures EffectsOf(worker, batch, world)[i].event == batch[k].id
    ensures EffectsOf(worker, batch, world)[j].event == batch[l].id
    decreases |batch|
  {
    var front, last := batch[..|batch| - 1], batch[|batch| - 1];
    var before := EffectsOf(worker, front, world);
    var writes := if world(last.id).badPayload then [] else WritesOf(last.id, Statements(worker, last, world(last.id)));
    assert EffectsOf(worker, batch, world) == before + writes;
    hide EffectsOf, Statements;
    if j < |before| {
      k, l := EffectsFollowBatch(worker, front, world, i, j);
    } else {
      l := |batch| - 1;
      WritesAreOf(last.id, Statements(worker, last, world(last.id)), j - |before|);
      if i < |before| {
        var m;
        k, m := EffectsFollowBatch(worker, front, world, i, i);
      } else {
        k := l;
        WritesAreOf(last.id, Statements(worker, last, world(last.id)), i - |before|);
      }
    }
  }

  // ---------------------------------------------------------------------
  // A row the database always refuses
  // ---------------------------------------------------------------------

  function Arrivals(hs: seq<Happening>): seq<Happening> {
    if hs == [] then []
    else Arrivals(hs[..|hs| - 1]) + if hs[|hs| - 1].Arrives? then [hs[|hs| - 1]] else []
  }

  /** Every drain of the history selects this row, and is refused a statement of its handler. */
  ghost predicate AlwaysRefused(t: Tables, hs: seq<Happening>, row: Row)
    decreases |hs|
  {
    hs == [] ||
    var front, last := hs[..|hs| - 1], hs[|hs| - 1];
    && AlwaysRefused(t, front, row)
    && (last.Drains? ==>
          && row in BatchOf(last.drain.worker, After(t, front).rows, last.drain.locked)
          && SqlFails(last.drain.worker, row, last.drain.world(row.id)))
  }

  /** A row whose handler the database always refuses makes the drains that select it as if they had never been:
      whatever arrives meanwhile, the tables are those of the arrivals alone. */
  lemma {:induction false} PoisonedRowBlocksEverything(t: Tables, hs: seq<Happening>, row: Row)
    requires AlwaysRefused(t, hs, row)
    ensures After(t, hs) == After(t, Arrivals(hs))
    decreases |hs|
  {
    if hs == [] {
    } else {
      var front, last := hs[..|hs| - 1], hs[|hs| - 1];
      PoisonedRowBlocksEverything(t, front, row);
      if last.Arrives? {
        var all := Arrivals(hs);
        assert all[..|all| - 1] == Arrivals(front) && all[|all| - 1] == last;
      } else {
        RefusedDrain(After(t, front), last.drain, row);
        assert Arrivals(hs) == Arrivals(front);
      }
    }
  }

  lemma RefusedDrain(t: Tables, drain: Drain, row: Row)
    requires row in BatchOf(drain.worker, t.rows, drain.locked) && SqlFails(drain.worker, row, drain.world(row.id))
    ensures Happens(t, Drains(drain)) == t
  {
    var batch := BatchOf(drain.worker, t.rows, drain.locked);
    var i :| 0 <= i < |batch| && batch[i] == row;
    assert Poisoned(drain.worker, batch, drain.world);
    assert t.effects + [] == t.effects;
  }
}
