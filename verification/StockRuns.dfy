/** Reserved stock over whole histories: orders, cancellations, and sweeps and verifications that overlap. */
module StockRuns {
  import opened Prelude
  import opened StockSweep

  /** A sweep and a verification read without a lock and write later, whatever has happened in between. */
  datatype State = State(
    shop: Shop,
    released: seq<nat>,           // how often each order's lines were released
    sweeps: map<nat, seq<nat>>,   // the orders a running sweep has read
    checks: map<nat, nat>)        // the order a running verification has read

  datatype Step =
    | Stock(pack: string)
    | Place(order: Order)
    | Advance(id: nat, status: Status, settled: bool)
    | CancelElsewhere(id: nat)
    | SweepReads(op: nat, now: int, setting: Option<int>, expired: seq<nat>)
    | SweepWrites(op: nat)
    | SweepFails(op: nat)
    | VerifyReads(op: nat, id: nat)
    | VerifyWrites(op: nat)
    | VerifyFails(op: nat)

  const EMPTY: State := State(Shop([], map[], []), [], map[], map[])

  /** `Advance` is every other guarded change of status; `CancelElsewhere` the customer's, the supplier's and the
      admin's. Neither touches a cancelled order. */
  ghost predicate Enabled(s: State, step: Step) {
    var orders := s.shop.orders;
    match step
    case Stock(pack) => pack !in s.shop.reserved
    case Place(order) =>
      order.status != Cancelled && forall i :: 0 <= i < |order.lines| ==> order.lines[i].pack in s.shop.reserved
    case Advance(id, status, _) => id < |orders| && orders[id].status != Cancelled && status != Cancelled
    case CancelElsewhere(id) => id < |orders| && orders[id].status != Cancelled
    case SweepReads(op, now, setting, expired) => op !in s.sweeps && Answers(expired, orders, now, setting)
    case SweepWrites(op) => op in s.sweeps && InTable(s.sweeps[op], orders)
    case SweepFails(op) => op in s.sweeps
    case VerifyReads(op, id) => op !in s.checks && id < |orders| && orders[id].status == PendingPayment
    case VerifyWrites(op) => op in s.checks && s.checks[op] < |orders|
    case VerifyFails(op) => op in s.checks
  }

  function SetOrder(s: State, id: nat, order: Order): State
    requires id < |s.shop.orders|
  {
    s.(shop := s.shop.(orders := s.shop.orders[id := order]))
  }

  function Bump(released: seq<nat>, ids: seq<nat>): (r: seq<nat>)
    ensures |r| == |released|
    ensures forall i :: 0 <= i < |r| ==> if i in ids then r[i] > released[i] else r[i] == released[i]
  {
    if ids == [] then released
    else
      var front, last := Bump(released, ids[..|ids| - 1]), ids[|ids| - 1];
      if last < |front| then front[last := front[last] + 1] else front
  }

  /** The status and the event, and no release. */
  function CancelsElsewhere(s: State, id: nat): State
    requires id < |s.shop.orders|
  {
    var t := SetOrder(s, id, s.shop.orders[id].(status := Cancelled));
    t.(shop := t.shop.(outbox := s.shop.outbox + [id]))
  }

  function Apply(s: State, step: Step): State
    requires Enabled(s, step)
  {
    var shop := s.shop;
    match step
    case Stock(pack) => s.(shop := shop.(reserved := shop.reserved[pack := 0]))
    case Place(order) =>
      s.(shop := Shop(shop.orders + [order], ReserveLines(shop.reserved, order.lines), shop.outbox),
         released := s.released + [0])
    case Advance(id, status, settled) => SetOrder(s, id, shop.orders[id].(status := status, settled := settled))
    case CancelElsewhere(id) => CancelsElsewhere(s, id)
    case SweepReads(op, _, _, expired) => s.(sweeps := s.sweeps[op := expired])
    case SweepWrites(op) =>
      s.(shop := CancelAll(shop, s.sweeps[op]), released := Bump(s.released, s.sweeps[op]), sweeps := s.sweeps - {op})
    case SweepFails(op) => s.(sweeps := s.sweeps - {op})
    case VerifyReads(op, id) => s.(checks := s.checks[op := id])
    case VerifyWrites(op) =>
      var id := s.checks[op];
      SetOrder(s, id, shop.orders[id].(status := Confirmed, settled := true)).(checks := s.checks - {op})
    case VerifyFails(op) => s.(checks := s.checks - {op})
  }

  // ---------------------------------------------------------------------
  // The accounts
  // ---------------------------------------------------------------------

  predicate Distinct(ids: seq<nat>) {
    forall i, j :: 0 <= i < j < |ids| ==> ids[i] != ids[j]
  }

  predicate WellFormed(s: State) {
    && |s.released| == |s.shop.orders|
    && (forall op :: op in s.sweeps ==>
          InTable(s.sweeps[op], s.shop.orders) && Distinct(s.sweeps[op]))
    && (forall op :: op in s.checks ==> s.checks[op] < |s.shop.orders|)
  }

  /** What the cancelled orders ask for whose lines were never released. */
  function Unreleased(orders: seq<Order>, released: seq<nat>, pack: string): nat
    requires |released| == |orders|
  {
    if orders == [] then 0
    else
      var n := |orders| - 1;
      Unreleased(orders[..n], released[..n], pack) +
      if orders[n].status == Cancelled && released[n] == 0 then Qty(orders[n].lines, pack) else 0
  }

  /** An order's stock should still be reserved: it is not cancelled, or was cancelled without a release. */
  predicate Owes(order: Order, released: nat) {
    order.status != Cancelled || released == 0
  }

  function Share(order: Order, released: nat, pack: string): nat {
    if Owes(order, released) then Qty(order.lines, pack) else 0
  }

  function Owed(orders: seq<Order>, released: seq<nat>, pack: string): nat
    requires |released| == |orders|
  {
    if orders == [] then 0
    else
      var n := |orders| - 1;
      Owed(orders[..n], released[..n], pack) + Share(orders[n], released[n], pack)
  }

  lemma {:induction false} OwedSplits(orders: seq<Order>, released: seq<nat>, pack: string)
    requires |released| == |orders|
    ensures Owed(orders, released, pack) == Demand(orders, pack) + Unreleased(orders, released, pack)
  {
    if orders == [] {
    } else {
      OwedSplits(orders[..|orders| - 1], released[..|orders| - 1], pack);
    }
  }

  /** Reserved is what the orders not cancelled ask for, and the cancelled ones that nobody released. */
  ghost predicate Accounted(s: State)
    requires |s.released| == |s.shop.orders|
  {
    forall pack :: Held(s.shop.reserved, pack) ==
      Demand(s.shop.orders, pack) + Unreleased(s.shop.orders, s.released, pack)
  }

  /** One order changes, its lines do not. */
  lemma {:induction false} OwedUpdate(orders: seq<Order>, released: seq<nat>, id: nat, order: Order, r: nat,
                                      pack: string)
    requires |released| == |orders| && id < |orders| && order.lines == orders[id].lines
    ensures Owed(orders[id := order], released[id := r], pack) + Share(orders[id], released[id], pack) ==
      Owed(orders, released, pack) + Share(order, r, pack)
  {
    var n := |orders| - 1;
    if id == n {
      assert orders[id := order][..n] == orders[..n] && released[id := r][..n] == released[..n];
    } else {
      OwedUpdate(orders[..n], released[..n], id, order, r, pack);
      assert orders[id := order][..n] == orders[..n][id := order];
      assert released[id := r][..n] == released[..n][id := r];
    }
  }

  // ---------------------------------------------------------------------
  // A sweep's writes
  // ---------------------------------------------------------------------

  /** What a sweep takes that is still owed, and what it takes again. */
  function OwedIn(orders: seq<Order>, released: seq<nat>, ids: seq<nat>, pack: string): nat
    requires |released| == |orders| && InTable(ids, orders)
  {
    if ids == [] then 0
    else
      var last := ids[|ids| - 1];
      OwedIn(orders, released, ids[..|ids| - 1], pack) + Share(orders[last], released[last], pack)
  }

  function TakenAgain(orders: seq<Order>, released: seq<nat>, ids: seq<nat>, pack: string): nat
    requires |released| == |orders| && InTable(ids, orders)
  {
    if ids == [] then 0
    else
      var last := ids[|ids| - 1];
      TakenAgain(orders, released, ids[..|ids| - 1], pack) +
      if Owes(orders[last], released[last]) then 0 else Qty(orders[last].lines, pack)
  }

  lemma {:induction false} SelectedSplits(orders: seq<Order>, released: seq<nat>, ids: seq<nat>, pack: string)
    requires |released| == |orders| && InTable(ids, orders)
    ensures Selected(orders, ids, pack) == OwedIn(orders, released, ids, pack) + TakenAgain(orders, released, ids, pack)
  {
    if ids == [] {
    } else {
      SelectedSplits(orders, released, ids[..|ids| - 1], pack);
    }
  }

  lemma DistinctLast(ids: seq<nat>, orders: seq<Order>)
    requires Distinct(ids) && InTable(ids, orders) && ids != []
    ensures var front, last := ids[..|ids| - 1], ids[|ids| - 1];
      Distinct(front) && InTable(front, orders) && last !in front && last < |orders|
  {
  }

  lemma Untouched(s: Shop, released: seq<nat>, ids: seq<nat>, id: nat)
    requires |released| == |s.orders| && InTable(ids, s.orders) && id < |s.orders| && id !in ids
    ensures CancelAll(s, ids).orders[id] == s.orders[id] && Bump(released, ids)[id] == released[id]
  {
  }

  lemma OneSwept(t: Shop, released: seq<nat>, id: nat, pack: string)
    requires |released| == |t.orders| && id < |t.orders|
    ensures Owed(Cancel(t, id).orders, released[id := released[id] + 1], pack) +
      Share(t.orders[id], released[id], pack) == Owed(t.orders, released, pack)
  {
    OwedUpdate(t.orders, released, id, t.orders[id].(status := Cancelled), released[id] + 1, pack);
  }

  lemma {:induction false} OwedAfterSweep(s: Shop, released: seq<nat>, ids: seq<nat>, pack: string)
    requires |released| == |s.orders| && InTable(ids, s.orders) && Distinct(ids)
    ensures Owed(CancelAll(s, ids).orders, Bump(released, ids), pack) + OwedIn(s.orders, released, ids, pack) ==
      Owed(s.orders, released, pack)
  {
    if ids == [] {
    } else {
      var front, last := ids[..|ids| - 1], ids[|ids| - 1];
      DistinctLast(ids, s.orders);
      hide Owed, Share, Distinct, InTable, Cancel;
      OwedAfterSweep(s, released, front, pack);
      Untouched(s, released, front, last);
      OneSwept(CancelAll(s, front), Bump(released, front), last, pack);
    }
  }

  // ---------------------------------------------------------------------
  // Every step, exactly
  // ---------------------------------------------------------------------

  lemma KeepsWellFormed(s: State, step: Step)
    requires WellFormed(s) && Enabled(s, step)
    ensures WellFormed(Apply(s, step))
  {
    hide Distinct, Answers;
    if step.SweepReads? {
      assert Distinct(step.expired) && InTable(step.expired, s.shop.orders) by {
        ReadIsListing(s.shop.orders, step);
      }
    }
  }

  lemma ReadIsListing(orders: seq<Order>, step: Step)
    requires step.SweepReads? && Answers(step.expired, orders, step.now, step.setting)
    ensures Distinct(step.expired) && InTable(step.expired, orders)
  {
  }

  /** Reserved is what is owed. */
  predicate Balanced(s: State, pack: string)
    requires |s.released| == |s.shop.orders|
  {
    Held(s.shop.reserved, pack) == Owed(s.shop.orders, s.released, pack)
  }

  lemma AccountedIff(s: State)
    requires |s.released| == |s.shop.orders|
    ensures Accounted(s) <==> forall pack :: Balanced(s, pack)
  {
    forall pack ensures Balanced(s, pack) <==>
      Held(s.shop.reserved, pack) == Demand(s.shop.orders, pack) + Unreleased(s.shop.orders, s.released, pack)
    {
      OwedSplits(s.shop.orders, s.released, pack);
    }
  }

  /** The step takes nothing of this pack size that was taken before, or what it takes twice is cut off at zero. */
  predicate Harmless(s: State, step: Step, pack: string)
    requires WellFormed(s)
  {
    match step
    case CancelElsewhere(id) => id < |s.released| ==> s.released[id] == 0 || Qty(s.shop.orders[id].lines, pack) == 0
    case SweepWrites(op) =>
      op in s.sweeps ==>
      || TakenAgain(s.shop.orders, s.released, s.sweeps[op], pack) == 0
      || Held(s.shop.reserved, pack) == OwedIn(s.shop.orders, s.released, s.sweeps[op], pack)
    case VerifyWrites(op) =>
      op in s.checks ==>
      var id := s.checks[op];
      Owes(s.shop.orders[id], s.released[id]) || Qty(s.shop.orders[id].lines, pack) == 0
    case _ => true
  }

  lemma ChangeBalances(s: State, id: nat, order: Order, pack: string)
    requires WellFormed(s) && id < |s.released| && order.lines == s.shop.orders[id].lines
    ensures Owed(SetOrder(s, id, order).shop.orders, s.released, pack) +
      Share(s.shop.orders[id], s.released[id], pack) ==
      Owed(s.shop.orders, s.released, pack) + Share(order, s.released[id], pack)
  {
    assert s.released[id := s.released[id]] == s.released;
    OwedUpdate(s.shop.orders, s.released, id, order, s.released[id], pack);
  }

  lemma SweepBalances(s: State, op: nat, pack: string)
    requires WellFormed(s) && op in s.sweeps && Balanced(s, pack)
    ensures var t := Apply(s, SweepWrites(op));
      |t.released| == |t.shop.orders| && (Balanced(t, pack) <==> Harmless(s, SweepWrites(op), pack))
  {
    var ids := s.sweeps[op];
    assert InTable(ids, s.shop.orders) && Distinct(ids);
    hide CancelAll, Bump, Owed, OwedIn, TakenAgain, Selected, Held, InTable, Distinct, WellFormed;
    CancelAllReleases(s.shop, ids, pack);
    SelectedSplits(s.shop.orders, s.released, ids, pack);
    OwedAfterSweep(s.shop, s.released, ids, pack);
  }

  lemma PlaceBalances(s: State, order: Order, pack: string)
    requires WellFormed(s) && Enabled(s, Place(order)) && Balanced(s, pack)
    ensures var t := Apply(s, Place(order)); |t.released| == |t.shop.orders| && Balanced(t, pack)
  {
    ReservedAmount(s.shop.reserved, order.lines, pack);
    assert (s.shop.orders + [order])[..|s.shop.orders|] == s.shop.orders;
    assert (s.released + [0])[..|s.released|] == s.released;
  }

  lemma StepBalancesIff(s: State, step: Step, pack: string)
    requires WellFormed(s) && Enabled(s, step) && Balanced(s, pack)
    ensures |Apply(s, step).released| == |Apply(s, step).shop.orders|
    ensures Balanced(Apply(s, step), pack) <==> Harmless(s, step, pack)
  {
    var orders := s.shop.orders;
    match step {
      case Place(order) => PlaceBalances(s, order, pack);
      case Advance(id, status, settled) =>
        ChangeBalances(s, id, orders[id].(status := status, settled := settled), pack);
      case CancelElsewhere(id) => ChangeBalances(s, id, orders[id].(status := Cancelled), pack);
      case SweepWrites(op) => SweepBalances(s, op, pack);
      case VerifyWrites(op) =>
        var id := s.checks[op];
        ChangeBalances(s, id, orders[id].(status := Confirmed, settled := true), pack);
      case _ =>
    }
    hide Owed, CancelAll, Bump, OwedIn, TakenAgain, ReserveLines, Answers;
  }

  /** From a state whose accounts are right, a step of any kind keeps them right if and only if it takes nothing that
      was taken before. A cancellation by the customer, the supplier or the admin keeps the accounts: its order goes on
      holding its stock. */
  lemma StepKeepsAccountsIff(s: State, step: Step)
    requires WellFormed(s) && Enabled(s, step) && Accounted(s)
    ensures WellFormed(Apply(s, step)) && (Accounted(Apply(s, step)) <==> forall pack :: Harmless(s, step, pack))
  {
    var t := Apply(s, step);
    AccountedIff(s);
    KeepsWellFormed(s, step);
    AccountedIff(t);
    hide Balanced, Harmless, Accounted, Apply, Enabled;
    forall pack ensures Balanced(t, pack) <==> Harmless(s, step, pack) {
      StepBalancesIff(s, step, pack);
    }
  }

  // ---------------------------------------------------------------------
  // Runs
  // ---------------------------------------------------------------------

  ghost predicate ValidRun(s: State, steps: seq<Step>)
    decreases |steps|
  {
    steps == [] || (Enabled(s, steps[0]) && ValidRun(Apply(s, steps[0]), steps[1..]))
  }

  ghost function After(s: State, steps: seq<Step>): State
    requires ValidRun(s, steps)
    decreases |steps|
  {
    if steps == [] then s else After(Apply(s, steps[0]), steps[1..])
  }

  /** The order is written by this step, though it may have changed since it was read. */
  predicate Overwrites(s: State, step: Step, id: nat) {
    || (step.SweepWrites? && step.op in s.sweeps && id in s.sweeps[step.op])
    || (step.VerifyWrites? && step.op in s.checks && s.checks[step.op] == id)
  }

  /** A sweep has taken the order since. */
  predicate MeetsReleased(s: State, step: Step) {
    exists id | 0 <= id < |s.released| :: Overwrites(s, step, id) && s.released[id] > 0
  }

  predicate MeetsCancelled(s: State, step: Step) {
    exists id | 0 <= id < |s.shop.orders| :: Overwrites(s, step, id) && s.shop.orders[id].status == Cancelled
  }

  ghost predicate NeverMeetsReleased(s: State, steps: seq<Step>)
    requires ValidRun(s, steps)
    decreases |steps|
  {
    steps == [] || (!MeetsReleased(s, steps[0]) && NeverMeetsReleased(Apply(s, steps[0]), steps[1..]))
  }

  ghost predicate NeverMeetsCancelled(s: State, steps: seq<Step>)
    requires ValidRun(s, steps)
    decreases |steps|
  {
    steps == [] || (!MeetsCancelled(s, steps[0]) && NeverMeetsCancelled(Apply(s, steps[0]), steps[1..]))
  }

  predicate ReleasedAreCancelled(s: State)
    requires |s.released| == |s.shop.orders|
  {
    forall id :: 0 <= id < |s.released| && s.released[id] > 0 ==> s.shop.orders[id].status == Cancelled
  }

  lemma {:induction false} NothingTakenAgain(orders: seq<Order>, released: seq<nat>, ids: seq<nat>, pack: string)
    requires |released| == |orders| && InTable(ids, orders) && forall i :: 0 <= i < |ids| ==> released[ids[i]] == 0
    ensures TakenAgain(orders, released, ids, pack) == 0
  {
    if ids == [] {
    } else {
      NothingTakenAgain(orders, released, ids[..|ids| - 1], pack);
    }
  }

  lemma FirstTakesAreHarmless(s: State, step: Step, pack: string)
    requires WellFormed(s) && Enabled(s, step) && ReleasedAreCancelled(s) && !MeetsReleased(s, step)
    ensures Harmless(s, step, pack)
  {
    if step.SweepWrites? {
      var ids := s.sweeps[step.op];
      forall i | 0 <= i < |ids| ensures s.released[ids[i]] == 0 {
        assert Overwrites(s, step, ids[i]);
      }
      NothingTakenAgain(s.shop.orders, s.released, ids, pack);
    } else if step.VerifyWrites? {
      assert Overwrites(s, step, s.checks[step.op]);
    }
  }

  lemma KeepsReleasedCancelled(s: State, step: Step)
    requires WellFormed(s) && Enabled(s, step) && ReleasedAreCancelled(s) && !MeetsReleased(s, step)
    ensures |Apply(s, step).released| == |Apply(s, step).shop.orders| && ReleasedAreCancelled(Apply(s, step))
  {
    hide Answers, Owed, Distinct;
    if step.VerifyWrites? {
      assert Overwrites(s, step, s.checks[step.op]);
    }
  }

  lemma {:induction false} AccountsStayRight(s: State, steps: seq<Step>)
    requires WellFormed(s) && Accounted(s) && ReleasedAreCancelled(s)
    requires ValidRun(s, steps) && NeverMeetsReleased(s, steps)
    ensures var t := After(s, steps); WellFormed(t) && Accounted(t)
    decreases |steps|
  {
    if steps == [] {
    } else {
      var t := Apply(s, steps[0]);
      StepKeepsAccountsIff(s, steps[0]);
      forall pack ensures Harmless(s, steps[0], pack) {
        FirstTakesAreHarmless(s, steps[0], pack);
      }
      KeepsReleasedCancelled(s, steps[0]);
      hide Enabled, Apply, MeetsReleased, Accounted, ReleasedAreCancelled, Harmless;
      AccountsStayRight(t, steps[1..]);
    }
  }

  lemma {:induction false} NothingUnreleased(orders: seq<Order>, released: seq<nat>, pack: string)
    requires |released| == |orders|
    ensures Unreleased(orders, released, pack) == 0 <==>
      forall id :: 0 <= id < |orders| && orders[id].status == Cancelled && released[id] == 0 ==>
        Qty(orders[id].lines, pack) == 0
  {
    if orders == [] {
    } else {
      NothingUnreleased(orders[..|orders| - 1], released[..|orders| - 1], pack);
    }
  }

  /** These orders were cancelled, and no sweep released their lines: somebody else cancelled them. */
  ghost predicate AskForNothing(s: State, pack: string)
    requires |s.released| == |s.shop.orders|
  {
    forall id :: 0 <= id < |s.released| && s.shop.orders[id].status == Cancelled && s.released[id] == 0 ==>
      Qty(s.shop.orders[id].lines, pack) == 0
  }

  /** Through any history of orders, payments, deliveries, cancellations, sweeps and verifications, overlapping or
      refused, in which no sweep or verification writes an order that a sweep has taken since it was read: what is
      reserved of each pack size is what the orders not cancelled ask for plus what those ask for that were cancelled
      otherwise than by a sweep. So the stock is right if and only if those asked for nothing. */
  lemma SweepsConserveStock(s: State, steps: seq<Step>)
    requires WellFormed(s) && Accounted(s) && ReleasedAreCancelled(s)
    requires ValidRun(s, steps) && NeverMeetsReleased(s, steps)
    ensures var t := After(s, steps);
      && |t.released| == |t.shop.orders| && Accounted(t)
      && (Conserved(t.shop) <==> forall pack :: AskForNothing(t, pack))
  {
    AccountsStayRight(s, steps);
    var t := After(s, steps);
    forall pack ensures Right(t.shop, pack) <==> AskForNothing(t, pack) {
      NothingUnreleased(t.shop.orders, t.released, pack);
      assert Held(t.shop.reserved, pack) == Demand(t.shop.orders, pack) + Unreleased(t.shop.orders, t.released, pack);
    }
  }

  // ---------------------------------------------------------------------
  // Events
  // ---------------------------------------------------------------------

  lemma KeepsOneEventEach(s: State, step: Step)
    requires WellFormed(s) && Enabled(s, step) && OneEventEach(s.shop) && !MeetsCancelled(s, step)
    ensures OneEventEach(Apply(s, step).shop)
  {
    hide Answers, Distinct;
    if step.SweepWrites? {
      SweptOnce(s, step.op);
      CancelAllOneEventEach(s.shop, s.sweeps[step.op]);
    } else if step.VerifyWrites? {
      assert Overwrites(s, step, s.checks[step.op]);
    }
  }

  lemma SweptOnce(s: State, op: nat)
    requires WellFormed(s) && op in s.sweeps && !MeetsCancelled(s, SweepWrites(op))
    ensures Sweepable(s.sweeps[op], s.shop.orders)
  {
    var ids := s.sweeps[op];
    forall i | 0 <= i < |ids| ensures s.shop.orders[ids[i]].status != Cancelled {
      assert Overwrites(s, SweepWrites(op), ids[i]);
    }
  }

  /** If no sweep or verification writes an order that was cancelled since it was read, by whomever, each cancelled
      order has exactly one event and no other order has one. */
  lemma {:induction false} OneEventPerCancellation(s: State, steps: seq<Step>)
    requires WellFormed(s) && OneEventEach(s.shop) && ValidRun(s, steps) && NeverMeetsCancelled(s, steps)
    ensures OneEventEach(After(s, steps).shop)
    decreases |steps|
  {
    if steps == [] {
    } else {
      KeepsWellFormed(s, steps[0]);
      KeepsOneEventEach(s, steps[0]);
      hide Enabled, Apply, MeetsCancelled, OneEventEach, WellFormed;
      OneEventPerCancellation(Apply(s, steps[0]), steps[1..]);
    }
  }

  // ---------------------------------------------------------------------
  // Runs that show why
  // ---------------------------------------------------------------------

  ghost predicate Reachable(s: State) {
    exists steps :: ValidRun(EMPTY, steps) && After(EMPTY, steps) == s
  }

  lemma {:induction false} RunThenStep(s: State, steps: seq<Step>, step: Step)
    requires ValidRun(s, steps) && Enabled(After(s, steps), step)
    ensures ValidRun(s, steps + [step]) && After(s, steps + [step]) == Apply(After(s, steps), step)
    decreases |steps|
  {
    hide Enabled, Apply;
    var longer := steps + [step];
    if steps == [] {
      assert longer[1..] == [];
    } else {
      assert longer[1..] == steps[1..] + [step];
      RunThenStep(Apply(s, steps[0]), steps[1..], step);
    }
  }

  lemma Go(s: State, step: Step) returns (t: State)
    requires Reachable(s) && Enabled(s, step)
    ensures Reachable(t) && t == Apply(s, step)
  {
    hide Enabled, Apply;
    var steps :| ValidRun(EMPTY, steps) && After(EMPTY, steps) == s;
    RunThenStep(EMPTY, steps, step);
    t := Apply(s, step);
  }

  /** A bank-transfer order for `qty` of one pack size. */
  function Transfer(status: Status, pack: string, qty: nat): Order {
    Order(status, true, 0, status.Confirmed?, [Line(pack, qty)])
  }

  function OneOrder(status: Status, pack: string, qty: nat, reserved: nat, outbox: seq<nat>, released: nat): State {
    State(Shop([Transfer(status, pack, qty)], map[pack := reserved], outbox), [released], map[], map[])
  }

  lemma OneLine(pack: string, qty: nat)
    ensures Qty([Line(pack, qty)], pack) == qty
    ensures ReserveLines(map[pack := 0], [Line(pack, qty)]) == map[pack := qty]
    ensures ReleaseLines(map[pack := qty], [Line(pack, qty)]) == map[pack := 0]
  {
    assert [Line(pack, qty)][..0] == [];
  }

  lemma OrderPlaced(pack: string, qty: nat) returns (s: State)
    ensures Reachable(s) && s == OneOrder(PendingPayment, pack, qty, qty, [], 0)
  {
    assert ValidRun(EMPTY, []) && After(EMPTY, []) == EMPTY;
    var s1 := Go(EMPTY, Stock(pack));
    OneLine(pack, qty);
    s := Go(s1, Place(Transfer(PendingPayment, pack, qty)));
  }

  /** The customer cancels, and the stock stays reserved for nobody. */
  lemma CancelledOrderKeepsItsStock(pack: string, qty: nat) returns (s: State)
    ensures Reachable(s) && s == OneOrder(Cancelled, pack, qty, qty, [0], 0)
    ensures Held(s.shop.reserved, pack) == qty && Demand(s.shop.orders, pack) == 0
  {
    var s1 := OrderPlaced(pack, qty);
    s := Go(s1, CancelElsewhere(0));
    assert s.shop.orders[..0] == [];
  }

  lemma SweptOne(s: Shop, pack: string, qty: nat)
    requires s == Shop([Transfer(PendingPayment, pack, qty)], map[pack := qty], [])
    ensures CancelAll(s, [0]) == Shop([Order(Cancelled, true, 0, false, [Line(pack, qty)])], map[pack := 0], [0])
    ensures Bump([0], [0]) == [1]
  {
    OneLine(pack, qty);
    assert [0][..0] == [];
    assert CancelAll(s, [0]) == Cancel(CancelAll(s, []), 0);
  }

  lemma BothRead(pack: string, qty: nat) returns (s: State)
    ensures Reachable(s) && s == OneOrder(PendingPayment, pack, qty, qty, [], 0).(
      sweeps := map[0 := [0]], checks := map[0 := 0])
  {
    var s1 := OrderPlaced(pack, qty);
    var now := 1 + DEFAULT_WINDOW_HOURS * MS_PER_HOUR;
    assert Answers([0], s1.shop.orders, now, None);
    var s2 := Go(s1, SweepReads(0, now, None, [0]));
    s := Go(s2, VerifyReads(0, 0));
  }

  lemma SweepThenVerify(s: State, pack: string, qty: nat) returns (t: State)
    requires Reachable(s) && s == OneOrder(PendingPayment, pack, qty, qty, [], 0).(
      sweeps := map[0 := [0]], checks := map[0 := 0])
    ensures Reachable(t) && t == OneOrder(Confirmed, pack, qty, 0, [0], 1)
  {
    SweptOne(s.shop, pack, qty);
    hide CancelAll, Bump;
    var s1 := Go(s, SweepWrites(0));
    t := Go(s1, VerifyWrites(0));
    assert t.sweeps == map[] && t.checks == map[] && t.shop.orders == [Transfer(Confirmed, pack, qty)];
  }

  /** A payment is verified while a sweep is under way that has read the order before: the order ends confirmed, and
      the stock reserved for it is released. */
  lemma VerifiedOrderLosesItsStock(pack: string, qty: nat) returns (s: State)
    ensures Reachable(s) && s == OneOrder(Confirmed, pack, qty, 0, [0], 1)
    ensures Held(s.shop.reserved, pack) == 0 && Demand(s.shop.orders, pack) == qty
  {
    var s1 := BothRead(pack, qty);
    s := SweepThenVerify(s1, pack, qty);
    OneLine(pack, qty);
    hide Reachable;
    assert s.shop.orders[..0] == [];
  }
}
