/** The sweeper of unpaid bank transfers (workers/src/bankTransferSweeper.ts, release_stock in migration 0028). */
module StockSweep {
  import opened Prelude

  const DEFAULT_WINDOW_HOURS := 48
  const MS_PER_HOUR := 3_600_000

  datatype Line = Line(pack: string, qty: nat)

  datatype Status = PendingPayment | Confirmed | Cancelled

  /** `settled`: one of its payments is verified or collected. */
  datatype Order = Order(status: Status, bankTransfer: bool, placedAt: int, settled: bool, lines: seq<Line>)

  /** An order's id is its place in `orders`; `reserved` is catalog.inventory, `outbox` the ids of the
      orders.order.cancelled events. */
  datatype Shop = Shop(orders: seq<Order>, reserved: map<string, nat>, outbox: seq<nat>)

  predicate Expired(order: Order, now: int, setting: Option<int>) {
    var windowHours := if setting.Some? then setting.value else DEFAULT_WINDOW_HOURS;
    && order.status == PendingPayment && order.bankTransfer && !order.settled
    && order.placedAt < now - windowHours * MS_PER_HOUR
  }

  /** The query has no `order by`: its answer is any listing of the expired orders. */
  predicate Answers(ids: seq<nat>, orders: seq<Order>, now: int, setting: Option<int>) {
    && (forall i, j :: 0 <= i < j < |ids| ==> ids[i] != ids[j])
    && (forall i :: 0 <= i < |ids| ==> ids[i] < |orders| && Expired(orders[ids[i]], now, setting))
    && (forall id :: 0 <= id < |orders| && Expired(orders[id], now, setting) ==> id in ids)
  }

  function Held(reserved: map<string, nat>, pack: string): nat {
    if pack in reserved then reserved[pack] else 0
  }

  /** `greatest(reserved - qty, 0)`, if there is an inventory row. */
  function Release(reserved: map<string, nat>, line: Line): map<string, nat> {
    if line.pack !in reserved then reserved
    else reserved[line.pack := if reserved[line.pack] < line.qty then 0 else reserved[line.pack] - line.qty]
  }

  function ReleaseLines(reserved: map<string, nat>, lines: seq<Line>): map<string, nat> {
    if lines == [] then reserved else Release(ReleaseLines(reserved, lines[..|lines| - 1]), lines[|lines| - 1])
  }

  function Cancel(s: Shop, id: nat): Shop
    requires id < |s.orders|
  {
    Shop(s.orders[id := s.orders[id].(status := Cancelled)], ReleaseLines(s.reserved, s.orders[id].lines),
         s.outbox + [id])
  }

  predicate InTable(ids: seq<nat>, orders: seq<Order>) {
    forall i :: 0 <= i < |ids| ==> ids[i] < |orders|
  }

  function CancelAll(s: Shop, ids: seq<nat>): (r: Shop)
    requires InTable(ids, s.orders)
    ensures |r.orders| == |s.orders|
    ensures forall id :: 0 <= id < |s.orders| ==>
      r.orders[id] == if id in ids then s.orders[id].(status := Cancelled) else s.orders[id]
    ensures r.outbox == s.outbox + ids
  {
    if ids == [] then s else Cancel(CancelAll(s, ids[..|ids| - 1]), ids[|ids| - 1])
  }

  /** The write statements of a sweep: one a line, then the order's status and its event. */
  function Writes(orders: seq<Order>, ids: seq<nat>): nat
    requires InTable(ids, orders)
  {
    if ids == [] then 0 else Writes(orders, ids[..|ids| - 1]) + |orders[ids[|ids| - 1]].lines| + 2
  }

  lemma {:induction false} WritesGrow(orders: seq<Order>, ids: seq<nat>, k: nat)
    requires InTable(ids, orders) && k <= |ids|
    ensures Writes(orders, ids[..k]) <= Writes(orders, ids)
  {
    if k == |ids| {
      assert ids[..k] == ids;
    } else {
      assert ids[..|ids| - 1][..k] == ids[..k];
      WritesGrow(orders, ids[..|ids| - 1], k);
    }
  }

  lemma SweepStep(s: Shop, ids: seq<nat>, k: nat)
    requires InTable(ids, s.orders) && k < |ids|
    ensures InTable(ids[..k], s.orders) && InTable(ids[..k + 1], s.orders)
    ensures CancelAll(s, ids[..k + 1]) == Cancel(CancelAll(s, ids[..k]), ids[k])
    ensures Writes(s.orders, ids[..k + 1]) == Writes(s.orders, ids[..k]) + |s.orders[ids[k]].lines| + 2
    ensures Writes(s.orders, ids[..k + 1]) <= Writes(s.orders, ids)
    ensures CancelAll(s, ids[..k]).orders[ids[k]].lines == s.orders[ids[k]].lines
  {
    assert ids[..k + 1][..k] == ids[..k];
    WritesGrow(s.orders, ids, k + 1);
  }

  class Store {
    var orders: seq<Order>
    var reserved: map<string, nat>
    var outbox: seq<nat>

    function Contents(): Shop reads this {
      Shop(orders, reserved, outbox)
    }

    constructor (shop: Shop)
      ensures Contents() == shop
    {
      orders, reserved, outbox := shop.orders, shop.reserved, shop.outbox;
    }

    /** An order's lines, released one statement each, `from` statements into the transaction. */
    static method ReleaseStock(stock: map<string, nat>, lines: seq<Line>, from: nat, refusedAt: Option<nat>)
      returns (threw: bool, released: map<string, nat>)
      ensures threw <==> refusedAt.Some? && from <= refusedAt.value < from + |lines|
      ensures !threw ==> released == ReleaseLines(stock, lines)
    {
      released := stock;
      for i := 0 to |lines|
        invariant released == ReleaseLines(stock, lines[..i])
        invariant !(refusedAt.Some? && from <= refusedAt.value < from + i)
      {
        if refusedAt == Some(from + i) {
          return true, stock;
        }
        assert lines[..i + 1][..i] == lines[..i];
        released := Release(released, lines[i]);
      }
      assert lines[..|lines|] == lines;
      threw := false;
    }

    /** The outer loop's body: the lines, the status, the event. */
    static method SweepOrder(txn: Shop, order: nat, from: nat, refusedAt: Option<nat>)
      returns (threw: bool, swept: Shop)
      requires order < |txn.orders|
      ensures threw <==> refusedAt.Some? && from <= refusedAt.value < from + |txn.orders[order].lines| + 2
      ensures !threw ==> swept == Cancel(txn, order)
    {
      var lines := txn.orders[order].lines;
      var released;
      threw, released := ReleaseStock(txn.reserved, lines, from, refusedAt);
      threw := threw || refusedAt == Some(from + |lines|) || refusedAt == Some(from + |lines| + 1);
      swept := Shop(txn.orders[order := txn.orders[order].(status := Cancelled)], released, txn.outbox + [order]);
    }

    /** One transaction; `refusedAt` numbers the write statement, if any, that the database refuses,
        and then the sweep throws and nothing has happened. */
    method SweepExpiredBankTransfers(now: int, setting: Option<int>, expired: seq<nat>, refusedAt: Option<nat>)
      returns (swept: Option<nat>)
      requires Answers(expired, orders, now, setting)
      modifies this
      ensures swept.None? <==> refusedAt.Some? && refusedAt.value < Writes(old(orders), expired)
      ensures swept.None? ==> Contents() == old(Contents())
      ensures swept.Some? ==> swept.value == |expired| && Contents() == CancelAll(old(Contents()), expired)
    {
      assert InTable(expired, orders);
      assert expired[..0] == [] && Contents() == CancelAll(Contents(), []) && Writes(orders, []) == 0;
      hide Answers, CancelAll, Writes, Cancel;
      var txn, statement, threw := Contents(), 0, false;
      for k := 0 to |expired|
        invariant InTable(expired[..k], orders) && Contents() == old(Contents())
        invariant txn == CancelAll(Contents(), expired[..k])
        invariant statement == Writes(orders, expired[..k]) && (refusedAt.Some? ==> statement <= refusedAt.value)
      {
        SweepStep(Contents(), expired, k);
        var lines := txn.orders[expired[k]].lines;
        threw, txn := SweepOrder(txn, expired[k], statement, refusedAt);
        if threw {
          return None;
        }
        statement := statement + |lines| + 2;
      }
      assert expired[..|expired|] == expired;
      orders, reserved, outbox := txn.orders, txn.reserved, txn.outbox;
      return Some(|expired|);
    }
  }

  // ---------------------------------------------------------------------
  // Which orders a sweep cancels
  // ---------------------------------------------------------------------

  const TWO_DAYS_MS := 172_800_000

  /** After a sweep that goes through, an order is cancelled if and only if it was before, or waits for a bank
      transfer with no settled payment and was placed longer ago than the window: the configured number of hours, or
      48 of them. */
  lemma SweepCancelsIff(s: Shop, ids: seq<nat>, now: int, setting: Option<int>, id: nat)
    requires Answers(ids, s.orders, now, setting) && id < |s.orders|
    ensures var window := if setting.None? then TWO_DAYS_MS else 60 * 60 * 1000 * setting.value;
      CancelAll(s, ids).orders[id].status.Cancelled? <==>
        || s.orders[id].status.Cancelled?
        || (s.orders[id].status.PendingPayment? && s.orders[id].bankTransfer && !s.orders[id].settled &&
            now - s.orders[id].placedAt > window)
  {
    assert id in ids <==> Expired(s.orders[id], now, setting);
    hide CancelAll;
  }

  // ---------------------------------------------------------------------
  // Conservation
  // ---------------------------------------------------------------------

  function Qty(lines: seq<Line>, pack: string): nat {
    if lines == [] then 0
    else Qty(lines[..|lines| - 1], pack) + if lines[|lines| - 1].pack == pack then lines[|lines| - 1].qty else 0
  }

  /** What the orders that are not cancelled hold of a pack size. */
  function Demand(orders: seq<Order>, pack: string): nat {
    if orders == [] then 0
    else
      var last := orders[|orders| - 1];
      Demand(orders[..|orders| - 1], pack) + if last.status == Cancelled then 0 else Qty(last.lines, pack)
  }

  predicate Right(s: Shop, pack: string) {
    Held(s.reserved, pack) == Demand(s.orders, pack)
  }

  ghost predicate Conserved(s: Shop) {
    forall pack :: Right(s, pack)
  }

  function Minus(a: nat, b: nat): nat {
    if a < b then 0 else a - b
  }

  /** The lines of an order together take exactly their sum, down to zero. */
  lemma {:induction false} ReleasedAmount(reserved: map<string, nat>, lines: seq<Line>, pack: string)
    ensures Held(ReleaseLines(reserved, lines), pack) == Minus(Held(reserved, pack), Qty(lines, pack))
  {
    if lines == [] {
    } else {
      ReleasedAmount(reserved, lines[..|lines| - 1], pack);
    }
  }

  lemma {:induction false} DemandWithout(orders: seq<Order>, id: nat, pack: string)
    requires id < |orders| && orders[id].status != Cancelled
    ensures Demand(orders, pack) == Demand(orders[id := orders[id].(status := Cancelled)], pack) +
      Qty(orders[id].lines, pack)
  {
    var t := orders[id := orders[id].(status := Cancelled)];
    var last := |orders| - 1;
    if id == last {
      assert t[..last] == orders[..last];
    } else {
      DemandWithout(orders[..last], id, pack);
      assert t[..last] == orders[..last][id := orders[id].(status := Cancelled)];
    }
  }

  lemma CancelConserves(s: Shop, id: nat)
    requires Conserved(s) && id < |s.orders| && s.orders[id].status != Cancelled
    ensures Conserved(Cancel(s, id))
  {
    forall pack ensures Right(Cancel(s, id), pack) {
      assert Right(s, pack);
      ReleasedAmount(s.reserved, s.orders[id].lines, pack);
      DemandWithout(s.orders, id, pack);
    }
  }

  predicate Sweepable(ids: seq<nat>, orders: seq<Order>) {
    && InTable(ids, orders)
    && (forall i, j :: 0 <= i < j < |ids| ==> ids[i] != ids[j])
    && (forall i :: 0 <= i < |ids| ==> orders[ids[i]].status != Cancelled)
  }

  lemma {:induction false} CancelAllConserves(s: Shop, ids: seq<nat>)
    requires Conserved(s) && Sweepable(ids, s.orders)
    ensures Conserved(CancelAll(s, ids))
  {
    if ids == [] {
    } else {
      CancelAllConserves(s, ids[..|ids| - 1]);
      CancelConserves(CancelAll(s, ids[..|ids| - 1]), ids[|ids| - 1]);
    }
  }

  function ReserveLines(reserved: map<string, nat>, lines: seq<Line>): map<string, nat> {
    if lines == [] then reserved
    else
      var r, last := ReserveLines(reserved, lines[..|lines| - 1]), lines[|lines| - 1];
      if last.pack in r then r[last.pack := r[last.pack] + last.qty] else r
  }

  lemma {:induction false} ReservedAmount(reserved: map<string, nat>, lines: seq<Line>, pack: string)
    requires forall i :: 0 <= i < |lines| ==> lines[i].pack in reserved
    ensures Held(ReserveLines(reserved, lines), pack) == Held(reserved, pack) + Qty(lines, pack)
    ensures ReserveLines(reserved, lines).Keys == reserved.Keys
  {
    if lines == [] {
    } else {
      ReservedAmount(reserved, lines[..|lines| - 1], pack);
    }
  }

  /** Exactly the cancelled orders have an event, and each has one. */
  predicate OneEventEach(s: Shop) {
    && (forall i, j :: 0 <= i < j < |s.outbox| ==> s.outbox[i] != s.outbox[j])
    && (forall i :: 0 <= i < |s.outbox| ==> s.outbox[i] < |s.orders|)
    && (forall id :: 0 <= id < |s.orders| ==> (s.orders[id].status == Cancelled <==> id in s.outbox))
  }

  lemma CancelAllOneEventEach(s: Shop, ids: seq<nat>)
    requires OneEventEach(s) && Sweepable(ids, s.orders)
    ensures OneEventEach(CancelAll(s, ids))
  {
    var t := CancelAll(s, ids);
    assert forall i :: 0 <= i < |ids| ==> ids[i] !in s.outbox;
    assert t.outbox == s.outbox + ids;
    forall id | 0 <= id < |t.orders| ensures t.orders[id].status == Cancelled <==> id in t.outbox {
    }
  }

  // ---------------------------------------------------------------------
  // Overlapping sweeps: the query takes no lock, so a second sweep may have read the same orders
  // ---------------------------------------------------------------------

  /** What the selected orders hold of a pack size. */
  function Selected(orders: seq<Order>, ids: seq<nat>, pack: string): nat
    requires InTable(ids, orders)
  {
    if ids == [] then 0 else Selected(orders, ids[..|ids| - 1], pack) + Qty(orders[ids[|ids| - 1]].lines, pack)
  }

  lemma {:induction false} CancelAllReleases(s: Shop, ids: seq<nat>, pack: string)
    requires InTable(ids, s.orders)
    ensures Held(CancelAll(s, ids).reserved, pack) == Minus(Held(s.reserved, pack), Selected(s.orders, ids, pack))
  {
    if ids == [] {
    } else {
      var t := CancelAll(s, ids[..|ids| - 1]);
      CancelAllReleases(s, ids[..|ids| - 1], pack);
      ReleasedAmount(t.reserved, t.orders[ids[|ids| - 1]].lines, pack);
    }
  }

  lemma {:induction false} SelectedSame(a: seq<Order>, b: seq<Order>, ids: seq<nat>, pack: string)
    requires InTable(ids, a) && |a| == |b| && forall id :: 0 <= id < |a| ==> a[id].lines == b[id].lines
    ensures Selected(a, ids, pack) == Selected(b, ids, pack)
  {
    if ids == [] {
    } else {
      SelectedSame(a, b, ids[..|ids| - 1], pack);
    }
  }

  lemma {:induction false} SelectedIsHeld(s: Shop, ids: seq<nat>, pack: string)
    requires Conserved(s) && Sweepable(ids, s.orders)
    ensures Selected(s.orders, ids, pack) + Demand(CancelAll(s, ids).orders, pack) == Held(s.reserved, pack)
  {
    if ids == [] {
      assert Right(s, pack);
    } else {
      var front, last := ids[..|ids| - 1], ids[|ids| - 1];
      var t := CancelAll(s, front);
      SelectedIsHeld(s, front, pack);
      DemandWithout(t.orders, last, pack);
    }
  }

  lemma SecondSweep(s: Shop, ids: seq<nat>, pack: string)
    requires Conserved(s) && Sweepable(ids, s.orders)
    ensures var t := CancelAll(CancelAll(s, ids), ids); var taken := Selected(s.orders, ids, pack);
      && taken <= Held(s.reserved, pack)
      && Held(t.reserved, pack) == Minus(Held(s.reserved, pack) - taken, taken)
      && Demand(t.orders, pack) == Held(s.reserved, pack) - taken
  {
    var once := CancelAll(s, ids);
    assert Right(s, pack);
    CancelAllReleases(s, ids, pack);
    CancelAllReleases(once, ids, pack);
    SelectedSame(s.orders, once.orders, ids, pack);
    SelectedIsHeld(s, ids, pack);
    assert CancelAll(once, ids).orders == once.orders;
  }

  predicate AllOrNothing(s: Shop, ids: seq<nat>, pack: string)
    requires InTable(ids, s.orders)
  {
    Selected(s.orders, ids, pack) == 0 || Selected(s.orders, ids, pack) == Held(s.reserved, pack)
  }

  lemma RightAfterSecond(s: Shop, ids: seq<nat>, pack: string)
    requires Conserved(s) && Sweepable(ids, s.orders)
    ensures Right(CancelAll(CancelAll(s, ids), ids), pack) <==> AllOrNothing(s, ids, pack)
  {
    SecondSweep(s, ids, pack);
    hide CancelAll, Selected, Demand, Held, Sweepable, Conserved;
  }

  /** Two sweeps that read the same expired orders before either wrote keep the stock right if and only
      if the sweep takes all or nothing of what is reserved of each pack size; every order they sweep
      has two events. */
  lemma OverlappingSweepsReleaseTwice(s: Shop, ids: seq<nat>)
    requires Conserved(s) && Sweepable(ids, s.orders)
    ensures var t := CancelAll(CancelAll(s, ids), ids);
      (Conserved(t) <==> forall pack :: AllOrNothing(s, ids, pack)) && t.outbox == s.outbox + ids + ids
  {
    var t := CancelAll(CancelAll(s, ids), ids);
    hide CancelAll, Right, AllOrNothing, Sweepable;
    forall pack ensures Right(t, pack) <==> AllOrNothing(s, ids, pack) {
      RightAfterSecond(s, ids, pack);
    }
  }
}
