/** The batch drains of the workers: many outbox rows in one transaction, each in its own try/catch
    (workers/src/dispatchWorker.ts, workers/src/loyaltyWorker.ts). */
module BatchDrains {
  import opened Prelude
  import opened OutboxTable

  const READY := "orders.order.ready_for_pickup"
  const CANCELLED := "orders.order.cancelled"
  const PAID := "orders.order.paid"
  const RETURNED := "orders.return.approved"
  const SETTLED := "credit.invoice.settled"

  /** One SQL statement of a handler. */
  datatype Statement = Read(table: string) | Write(call: string)

  /** What a handler meets: a payload that makes it throw before any SQL, what its lookups find, and
      which of its statements, if any, the database refuses (the mark being the last one). */
  datatype Facts = Facts(badPayload: bool, found: bool, failsAt: Option<nat>)

  type World = nat -> Facts

  function DispatchStatements(row: Row): seq<Statement> {
    if row.name == READY then [Write("delivery.dispatch_order")] else [Write("delivery.recall_task")]
  }

  /** `found`: the order is a retail one, or the invoice exists. */
  function LoyaltyStatements(row: Row, facts: Facts): seq<Statement> {
    if row.name == PAID then
      [Read("orders.orders")] + if facts.found then [Write("loyalty.earn_on_paid")] else []
    else if row.name == CANCELLED then
      [Write("loyalty.reverse_points"), Write("loyalty.restore_redemption"), Write("loyalty.release_coupon_redemption")]
    else if row.name == RETURNED then
      [Write("loyalty.reverse_points_partial")]
    else
      [Read("credit.invoices")] + if facts.found then [Write("loyalty.grant_early_pay_reward")] else []
  }

  datatype Worker = Dispatch | Loyalty

  function Statements(worker: Worker, row: Row, facts: Facts): seq<Statement> {
    if worker.Dispatch? then DispatchStatements(row) else LoyaltyStatements(row, facts)
  }

  predicate SqlFails(worker: Worker, row: Row, facts: Facts) {
    !facts.badPayload && facts.failsAt.Some? && facts.failsAt.value <= |Statements(worker, row, facts)|
  }

  function WritesOf(event: nat, statements: seq<Statement>): seq<Effect> {
    if statements == [] then []
    else
      var last := statements[|statements| - 1];
      WritesOf(event, statements[..|statements| - 1]) + if last.Write? then [Effect(event, last.call)] else []
  }

  lemma {:induction false} WritesAreOf(event: nat, statements: seq<Statement>, i: nat)
    requires i < |WritesOf(event, statements)|
    ensures WritesOf(event, statements)[i].event == event
  {
    if i < |WritesOf(event, statements[..|statements| - 1])| {
      WritesAreOf(event, statements[..|statements| - 1], i);
    }
  }

  // ---------------------------------------------------------------------
  // What a batch selects and does
  // ---------------------------------------------------------------------

  /** `where dispatched_at is null and name in (..) order by occurred_at for update skip locked`. */
  function Select(rows: seq<Row>, names: set<string>, locked: set<nat>): (r: seq<Row>)
    ensures forall i :: 0 <= i < |r| ==> !r[i].dispatched && r[i].name in names && r[i].id !in locked && r[i] in rows
    ensures forall row :: row in rows && !row.dispatched && row.name in names && row.id !in locked ==> row in r
  {
    if rows == [] then []
    else
      var row := rows[0];
      var wanted := !row.dispatched && row.name in names && row.id !in locked;
      (if wanted then [row] else []) + Select(rows[1..], names, locked)
  }

  /** Some row of the batch is refused by the database. */
  predicate Poisoned(worker: Worker, batch: seq<Row>, world: World) {
    exists i :: 0 <= i < |batch| && SqlFails(worker, batch[i], world(batch[i].id))
  }

  /** The rows whose handler runs: all but those with a bad payload. */
  function Handled(batch: seq<Row>, world: World): set<nat> {
    set i | 0 <= i < |batch| && !world(batch[i].id).badPayload :: batch[i].id
  }

  function EffectsOf(worker: Worker, batch: seq<Row>, world: World): seq<Effect> {
    if batch == [] then []
    else
      var row := batch[|batch| - 1];
      var facts := world(row.id);
      EffectsOf(worker, batch[..|batch| - 1], world) +
      if facts.badPayload then [] else WritesOf(row.id, Statements(worker, row, facts))
  }

  // ---------------------------------------------------------------------
  // One row
  // ---------------------------------------------------------------------

  lemma WritesStep(event: nat, statements: seq<Statement>, k: nat)
    requires k < |statements|
    ensures WritesOf(event, statements[..k + 1]) ==
      WritesOf(event, statements[..k]) + if statements[k].Write? then [Effect(event, statements[k].call)] else []
  {
    assert statements[..k + 1][..k] == statements[..k];
  }

  predicate Hits(failsAt: Option<nat>, n: nat) {
    failsAt.Some? && failsAt.value < n
  }

  /** A handler's statements one by one, up to the first that throws. */
  method RunStatements(db: Connection, event: nat, statements: seq<Statement>, failsAt: Option<nat>)
    returns (threw: bool)
    requires db.open
    modifies db`aborted, db`pending
    ensures threw <==> (old(db.aborted) && statements != []) || Hits(failsAt, |statements|)
    ensures db.aborted <==> old(db.aborted) || Hits(failsAt, |statements|)
    ensures !threw ==> db.pending == old(db.pending) + WritesOf(event, statements)
    ensures old(db.aborted) ==> db.pending == old(db.pending)
  {
    assert WritesOf(event, statements[..0]) == [];
    hide WritesOf;
    for k := 0 to |statements|
      invariant db.aborted == old(db.aborted) && (k > 0 ==> !db.aborted) && !Hits(failsAt, k)
      invariant db.pending == old(db.pending) + WritesOf(event, statements[..k])
    {
      WritesStep(event, statements, k);
      match statements[k] {
        case Read(table) => threw := db.Execute(event, table, false, failsAt == Some(k));
        case Write(call) => threw := db.Execute(event, call, true, failsAt == Some(k));
      }
      if threw {
        return;
      }
    }
    assert statements[..|statements|] == statements;
    threw := false;
  }

  /** The body of a row's `try`: its statements, then the mark. `threw` is the caught error. */
  method ProcessRow(db: Connection, worker: Worker, row: Row, facts: Facts) returns (threw: bool)
    requires db.open
    modifies db`aborted, db`marks, db`pending
    ensures threw <==> facts.badPayload || old(db.aborted) || SqlFails(worker, row, facts)
    ensures db.aborted <==> old(db.aborted) || SqlFails(worker, row, facts)
    ensures !threw ==>
      && db.marks == old(db.marks) + {row.id}
      && db.pending == old(db.pending) + WritesOf(row.id, Statements(worker, row, facts))
    ensures facts.badPayload || old(db.aborted) ==> db.marks == old(db.marks) && db.pending == old(db.pending)
  {
    if facts.badPayload {
      return true;
    }
    hide Statements, WritesOf;
    var statements := Statements(worker, row, facts);
    threw := RunStatements(db, row.id, statements, facts.failsAt);
    if !threw {
      threw := db.MarkDispatched(row.id, facts.failsAt == Some(|statements|));
    }
  }

  // ---------------------------------------------------------------------
  // A batch
  // ---------------------------------------------------------------------

  /** Rows whose payload lets their handler run. */
  function GoodRows(batch: seq<Row>, world: World): nat {
    if batch == [] then 0
    else GoodRows(batch[..|batch| - 1], world) + if world(batch[|batch| - 1].id).badPayload then 0 else 1
  }

  /** What a batch appends to the transaction's writes. */
  function Appended(before: seq<Effect>, worker: Worker, batch: seq<Row>, world: World): seq<Effect> {
    before + EffectsOf(worker, batch, world)
  }

  lemma PoisonStep(worker: Worker, batch: seq<Row>, world: World, k: nat)
    requires k < |batch|
    ensures Poisoned(worker, batch[..k + 1], world) <==>
      Poisoned(worker, batch[..k], world) || SqlFails(worker, batch[k], world(batch[k].id))
  {
    var was, now := batch[..k], batch[..k + 1];
    assert now[k] == batch[k] && forall i :: 0 <= i < k ==> now[i] == was[i];
    if Poisoned(worker, was, world) {
      var i :| 0 <= i < |was| && SqlFails(worker, was[i], world(was[i].id));
      assert SqlFails(worker, now[i], world(now[i].id));
    }
  }

  lemma HandledStep(batch: seq<Row>, world: World, k: nat)
    requires k < |batch|
    ensures Handled(batch[..k + 1], world) ==
      Handled(batch[..k], world) + if world(batch[k].id).badPayload then {} else {batch[k].id}
    ensures GoodRows(batch[..k + 1], world) ==
      GoodRows(batch[..k], world) + if world(batch[k].id).badPayload then 0 else 1
  {
    var was, now := batch[..k], batch[..k + 1];
    assert now[..k] == was && now[k] == batch[k];
    assert forall i :: 0 <= i < k ==> now[i] == was[i];
    forall id | id in Handled(was, world) ensures id in Handled(now, world) {
      var i :| 0 <= i < |was| && !world(was[i].id).badPayload && was[i].id == id;
      assert now[i].id == id;
    }
  }

  lemma AppendedStep(before: seq<Effect>, worker: Worker, batch: seq<Row>, world: World, k: nat)
    requires k < |batch|
    ensures var facts := world(batch[k].id);
      Appended(before, worker, batch[..k + 1], world) ==
        if facts.badPayload then Appended(before, worker, batch[..k], world)
        else Appended(before, worker, batch[..k], world) + WritesOf(batch[k].id, Statements(worker, batch[k], facts))
  {
    assert batch[..k + 1][..k] == batch[..k];
    var writes := WritesOf(batch[k].id, Statements(worker, batch[k], world(batch[k].id)));
    ConcatAssociative(before, EffectsOf(worker, batch[..k], world), writes);
  }

  lemma NothingInEmpty(marks: set<nat>, before: seq<Effect>, worker: Worker, batch: seq<Row>, world: World)
    requires batch == []
    ensures !Poisoned(worker, batch, world) && marks + Handled(batch, world) == marks
    ensures Appended(before, worker, batch, world) == before && GoodRows(batch, world) == 0
  {
  }

  /** What a transaction holds: whether it is aborted, its marks, its writes, and the rows counted so far. */
  datatype Held = Held(aborted: bool, marks: set<nat>, pending: seq<Effect>, processed: nat)

  /** From `was` to `now` the transaction has been through this batch. */
  predicate Through(was: Held, now: Held, worker: Worker, batch: seq<Row>, world: World) {
    && (now.aborted <==> was.aborted || Poisoned(worker, batch, world))
    && (!now.aborted ==>
          && now.marks == was.marks + Handled(batch, world)
          && now.pending == Appended(was.pending, worker, batch, world)
          && now.processed == was.processed + GoodRows(batch, world))
  }

  lemma ThroughStep(was: Held, mid: Held, now: Held, worker: Worker, batch: seq<Row>, world: World, k: nat)
    requires k < |batch| && Through(was, mid, worker, batch[..k], world)
    requires var row, facts := batch[k], world(batch[k].id);
      && (now.aborted <==> mid.aborted || SqlFails(worker, row, facts))
      && (!now.aborted ==>
            if facts.badPayload then now == mid
            else now == Held(false, mid.marks + {row.id},
                             mid.pending + WritesOf(row.id, Statements(worker, row, facts)), mid.processed + 1))
    ensures Through(was, now, worker, batch[..k + 1], world)
  {
    PoisonStep(worker, batch, world, k);
    HandledStep(batch, world, k);
    AppendedStep(was.pending, worker, batch, world, k);
    hide Poisoned, Handled, Appended, GoodRows, WritesOf, Statements;
  }

  /** The loop over a batch: one try/catch per row, all in one transaction. */
  method ProcessBatch(db: Connection, worker: Worker, batch: seq<Row>, world: World) returns (processed: nat)
    requires db.open
    modifies db`aborted, db`marks, db`pending
    ensures db.aborted <==> old(db.aborted) || Poisoned(worker, batch, world)
    ensures !db.aborted ==>
      && db.marks == old(db.marks) + Handled(batch, world)
      && db.pending == Appended(old(db.pending), worker, batch, world)
      && processed == GoodRows(batch, world)
  {
    processed := 0;
    ghost var was := Held(db.aborted, db.marks, db.pending, 0);
    NothingInEmpty(db.marks, db.pending, worker, batch[..0], world);
    assert Through(was, was, worker, batch[..0], world);
    hide Poisoned, Handled, Appended, GoodRows, WritesOf, Statements, SqlFails;
    for k := 0 to |batch|
      invariant Through(was, Held(db.aborted, db.marks, db.pending, processed), worker, batch[..k], world)
    {
      hide Through;
      ghost var mid := Held(db.aborted, db.marks, db.pending, processed);
      var threw := ProcessRow(db, worker, batch[k], world(batch[k].id));
      if !threw {
        processed := processed + 1;
      }
      ThroughStep(was, mid, Held(db.aborted, db.marks, db.pending, processed), worker, batch, world, k);
    }
    assert batch[..|batch|] == batch;
  }

  // ---------------------------------------------------------------------
  // The two workers
  // ---------------------------------------------------------------------

  const DISPATCH_EVENTS: set<string> := {READY, CANCELLED}

  const SECTIONS: seq<string> := [PAID, CANCELLED, RETURNED, SETTLED]

  /** The rows of the loyalty worker's first `n` queries. */
  function Sections(rows: seq<Row>, locked: set<nat>, n: nat): (r: seq<Row>)
    requires n <= 4
    ensures forall k :: 0 <= k < |r| ==> r[k] in rows
  {
    if n == 0 then [] else Sections(rows, locked, n - 1) + Select(rows, {SECTIONS[n - 1]}, locked)
  }

  function LoyaltyBatch(rows: seq<Row>, locked: set<nat>): seq<Row> {
    Sections(rows, locked, 4)
  }

  /** Everything one drain selects, in the order it is processed. */
  function BatchOf(worker: Worker, rows: seq<Row>, locked: set<nat>): seq<Row> {
    if worker.Dispatch? then Select(rows, DISPATCH_EVENTS, locked) else LoyaltyBatch(rows, locked)
  }

  /** The committed table after a drain: the whole batch or nothing. */
  function RowsAfter(worker: Worker, rows: seq<Row>, world: World, locked: set<nat>): seq<Row> {
    var batch := BatchOf(worker, rows, locked);
    if Poisoned(worker, batch, world) then rows else Marked(rows, Handled(batch, world))
  }

  function NewEffects(worker: Worker, rows: seq<Row>, world: World, locked: set<nat>): seq<Effect> {
    var batch := BatchOf(worker, rows, locked);
    if Poisoned(worker, batch, world) then [] else EffectsOf(worker, batch, world)
  }

  lemma CommitGives(worker: Worker, rows: seq<Row>, effects: seq<Effect>, world: World, locked: set<nat>,
                    batch: seq<Row>)
    requires batch == BatchOf(worker, rows, locked)
    ensures Poisoned(worker, batch, world) ==>
      rows == RowsAfter(worker, rows, world, locked) && effects == effects + NewEffects(worker, rows, world, locked)
    ensures !Poisoned(worker, batch, world) ==>
      && Marked(rows, {} + Handled(batch, world)) == RowsAfter(worker, rows, world, locked)
      && effects + Appended([], worker, batch, world) == effects + NewEffects(worker, rows, world, locked)
  {
    assert {} + Handled(batch, world) == Handled(batch, world);
    assert Appended([], worker, batch, world) == EffectsOf(worker, batch, world);
  }

  /** It reports the whole batch, also when the commit turned into a rollback. */
  method DrainDispatchOutbox(db: Connection, world: World, locked: set<nat>) returns (count: nat)
    requires db.Idle()
    modifies db
    ensures db.Idle()
    ensures db.rows == RowsAfter(Dispatch, old(db.rows), world, locked)
    ensures db.effects == old(db.effects) + NewEffects(Dispatch, old(db.rows), world, locked)
    ensures count == |BatchOf(Dispatch, old(db.rows), locked)|
  {
    db.Begin();
    var batch := Select(db.rows, DISPATCH_EVENTS, locked);
    CommitGives(Dispatch, db.rows, db.effects, world, locked, batch);
    var _ := ProcessBatch(db, Dispatch, batch, world);
    db.Commit();
    return |batch|;
  }

  datatype Drained = Returned(processed: nat) | Failed

  lemma EffectsConcatenate(worker: Worker, a: seq<Row>, b: seq<Row>, world: World)
    ensures EffectsOf(worker, a + b, world) == EffectsOf(worker, a, world) + EffectsOf(worker, b, world)
    ensures GoodRows(a + b, world) == GoodRows(a, world) + GoodRows(b, world)
    decreases |b|
  {
    if b == [] {
      assert a + b == a;
    } else {
      var front, last := b[..|b| - 1], b[|b| - 1];
      assert (a + b)[..|a + b| - 1] == a + front;
      EffectsConcatenate(worker, a, front, world);
      var facts := world(last.id);
      var writes := if facts.badPayload then [] else WritesOf(last.id, Statements(worker, last, facts));
      ConcatAssociative(EffectsOf(worker, a, world), EffectsOf(worker, front, world), writes);
    }
  }

  lemma PoisonConcatenates(worker: Worker, a: seq<Row>, b: seq<Row>, world: World)
    ensures Poisoned(worker, a + b, world) <==> Poisoned(worker, a, world) || Poisoned(worker, b, world)
  {
    var c := a + b;
    if Poisoned(worker, a, world) {
      var i :| 0 <= i < |a| && SqlFails(worker, a[i], world(a[i].id));
      assert SqlFails(worker, c[i], world(c[i].id));
    }
    if Poisoned(worker, b, world) {
      var i :| 0 <= i < |b| && SqlFails(worker, b[i], world(b[i].id));
      assert SqlFails(worker, c[|a| + i], world(c[|a| + i].id));
    }
  }

  lemma HandledConcatenates(a: seq<Row>, b: seq<Row>, world: World)
    ensures Handled(a + b, world) == Handled(a, world) + Handled(b, world)
  {
    var c := a + b;
    forall id | id in Handled(a, world) + Handled(b, world) ensures id in Handled(c, world) {
      if id in Handled(a, world) {
        var i :| 0 <= i < |a| && !world(a[i].id).badPayload && a[i].id == id;
        assert c[i].id == id;
      } else {
        var i :| 0 <= i < |b| && !world(b[i].id).badPayload && b[i].id == id;
        assert c[|a| + i].id == id;
      }
    }
  }

  /** Processing one batch and then another is processing both. */
  lemma BatchesConcatenate(before: seq<Effect>, marks: set<nat>, a: seq<Row>, b: seq<Row>, world: World)
    ensures Poisoned(Loyalty, a + b, world) <==> Poisoned(Loyalty, a, world) || Poisoned(Loyalty, b, world)
    ensures (marks + Handled(a, world)) + Handled(b, world) == marks + Handled(a + b, world)
    ensures Appended(Appended(before, Loyalty, a, world), Loyalty, b, world) == Appended(before, Loyalty, a + b, world)
    ensures GoodRows(a + b, world) == GoodRows(a, world) + GoodRows(b, world)
  {
    PoisonConcatenates(Loyalty, a, b, world);
    HandledConcatenates(a, b, world);
    EffectsConcatenate(Loyalty, a, b, world);
    ConcatAssociative(before, EffectsOf(Loyalty, a, world), EffectsOf(Loyalty, b, world));
  }

  /** One of the loyalty worker's four queries and its loop. The query itself throws once aborted.
      `n` sections were processed before. */
  method LoyaltySection(db: Connection, n: nat, world: World, locked: set<nat>)
    returns (threw: bool, processed: nat)
    requires db.open && n < 4
    requires SectionsDone(db, n, world, locked)
    modifies db`aborted, db`marks, db`pending
    ensures SectionsDone(db, n + 1, world, locked)
    ensures db.aborted <==> Poisoned(Loyalty, Sections(db.rows, locked, n + 1), world)
    ensures threw == old(db.aborted)
    ensures !db.aborted ==>
      GoodRows(Sections(db.rows, locked, n + 1), world) == GoodRows(Sections(db.rows, locked, n), world) + processed
  {
    var batch := Select(db.rows, {SECTIONS[n]}, locked);
    BatchesConcatenate([], {}, Sections(db.rows, locked, n), batch, world);
    threw, processed := db.aborted, 0;
    if !threw {
      processed := ProcessBatch(db, Loyalty, batch, world);
    }
  }

  ghost predicate SectionsDone(db: Connection, n: nat, world: World, locked: set<nat>)
    requires n <= 4
    reads db
  {
    var done := Sections(db.rows, locked, n);
    && (db.aborted <==> Poisoned(Loyalty, done, world))
    && (!db.aborted ==> db.marks == {} + Handled(done, world) && db.pending == Appended([], Loyalty, done, world))
  }

  lemma {:induction false} PoisonSpreads(rows: seq<Row>, world: World, locked: set<nat>, n: nat, m: nat)
    requires n <= m <= 4 && Poisoned(Loyalty, Sections(rows, locked, n), world)
    ensures Poisoned(Loyalty, Sections(rows, locked, m), world)
    decreases m - n
  {
    if n < m {
      PoisonConcatenates(Loyalty, Sections(rows, locked, n), Select(rows, {SECTIONS[n]}, locked), world);
      PoisonSpreads(rows, world, locked, n + 1, m);
    }
  }

  lemma NoSections(rows: seq<Row>, world: World, locked: set<nat>)
    ensures var none := Sections(rows, locked, 0);
      && !Poisoned(Loyalty, none, world) && {} + Handled(none, world) == {}
      && Appended([], Loyalty, none, world) == [] && GoodRows(none, world) == 0
  {
  }

  /** The transaction's callback: four queries, four loops. */
  method LoyaltyWork(db: Connection, world: World, locked: set<nat>) returns (threw: bool, processed: nat)
    requires db.open && !db.aborted && db.marks == {} && db.pending == []
    modifies db`aborted, db`marks, db`pending
    ensures threw <==> Poisoned(Loyalty, Sections(db.rows, locked, 3), world)
    ensures !threw ==> SectionsDone(db, 4, world, locked)
    ensures !threw && !db.aborted ==> processed == GoodRows(LoyaltyBatch(db.rows, locked), world)
  {
    NoSections(db.rows, world, locked);
    assert SectionsDone(db, 0, world, locked);
    hide SectionsDone, Sections, Poisoned, Handled, Appended, GoodRows;
    var paid, cancelled, returned, settled := 0, 0, 0, 0;
    threw, paid := LoyaltySection(db, 0, world, locked);
    threw, cancelled := LoyaltySection(db, 1, world, locked);
    if threw {
      PoisonSpreads(db.rows, world, locked, 1, 3);
    } else {
      threw, returned := LoyaltySection(db, 2, world, locked);
      if threw {
        PoisonSpreads(db.rows, world, locked, 2, 3);
      } else {
        threw, settled := LoyaltySection(db, 3, world, locked);
      }
    }
    processed := paid + cancelled + returned + settled;
  }

  /** Fails if one of the first three queries' batches is poisoned; returns if only the last one is,
      although then, too, nothing is committed. */
  method DrainLoyaltyOutbox(db: Connection, world: World, locked: set<nat>) returns (result: Drained)
    requires db.Idle()
    modifies db
    ensures db.Idle()
    ensures db.rows == RowsAfter(Loyalty, old(db.rows), world, locked)
    ensures db.effects == old(db.effects) + NewEffects(Loyalty, old(db.rows), world, locked)
    ensures result.Failed? <==> Poisoned(Loyalty, Sections(old(db.rows), locked, 3), world)
    ensures result.Returned? && !Poisoned(Loyalty, LoyaltyBatch(old(db.rows), locked), world) ==>
      result.processed == GoodRows(LoyaltyBatch(old(db.rows), locked), world)
  {
    ghost var batch := LoyaltyBatch(db.rows, locked);
    CommitGives(Loyalty, db.rows, db.effects, world, locked, batch);
    assert batch == Sections(db.rows, locked, 4);
    hide Sections, Poisoned, Handled, GoodRows, RowsAfter, NewEffects, Appended, Marked, LoyaltyBatch, BatchOf;
    db.Begin();
    var threw, processed := LoyaltyWork(db, world, locked);
    if threw {
      PoisonSpreads(db.rows, world, locked, 3, 4);
      db.Rollback();
      result := Failed;
    } else {
      assert db.aborted <==> Poisoned(Loyalty, batch, world);
      hide SectionsDone;
      db.Commit();
      result := Returned(processed);
    }
  }
}
