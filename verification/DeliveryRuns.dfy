/** Whole runs of requests to the driver functions: codes, proofs, cash, log, notices (db/migrations/0049 to 0074). */
module DeliveryRuns {
  import opened Prelude
  import opened TaskServer

  // ---------------------------------------------------------------------
  // The code
  // ---------------------------------------------------------------------

  /** The request draws a new code for the task: it moves the task to `arrived`, or is granted a fresh one. */
  predicate Mints(t: Tables, r: Request, task: string) {
    || (r.Transition? && r.task == task && r.to.Arrived? && Serve(t, r).tables != t)
    || (r.RegenerateOtp? && r.task == task && Serve(t, r).answer.Ok?)
  }

  /** The code drawn last for the task, `code` being the one it starts with. */
  function LastCode(code: Option<string>, t: Tables, rs: seq<Request>, task: string): Option<string>
    decreases |rs|
  {
    if rs == [] then code
    else LastCode(if Mints(t, rs[0], task) then Some(rs[0].minted) else code, Serve(t, rs[0]).tables, rs[1..], task)
  }

  /** What no request changes about a task, and what only drawing a code does. */
  lemma CodeStep(t: Tables, r: Request, task: string)
    requires task in t.tasks
    ensures task in Serve(t, r).tables.tasks
    ensures var was, now := t.tasks[task], Serve(t, r).tables.tasks[task];
      && now.order == was.order && now.pickup == was.pickup && now.cod == was.cod
      && now.otp == if Mints(t, r, task) then Some(r.minted) else was.otp
  {
    hide Used;
    if r.Transition? || r.CapturePod? || r.FailTask? {
    } else {
    }
  }

  lemma {:induction false} CodeIsLast(t: Tables, rs: seq<Request>, task: string)
    requires task in t.tasks
    ensures task in Run(t, rs).tasks
    ensures var was, now := t.tasks[task], Run(t, rs).tasks[task];
      && now.order == was.order && now.pickup == was.pickup && now.cod == was.cod
      && now.otp == LastCode(was.otp, t, rs, task)
    decreases |rs|
  {
    hide Serve, Mints;
    if rs == [] {
    } else {
      CodeStep(t, rs[0], task);
      CodeIsLast(Serve(t, rs[0]).tables, rs[1..], task);
    }
  }

  // ---------------------------------------------------------------------
  // The proof
  // ---------------------------------------------------------------------

  /** A hand-over at a pickup point is to the supplier; at a door it needs the task's code, if it has one. */
  predicate Handed(pickup: bool, code: Option<string>, otp: Option<string>, collector: Collector) {
    if pickup then collector.Supplier? else otp.Some? && (code.None? || otp == code)
  }

  /** A request that stands: from the driver whose task it is, arrived, with a photo, under an id not used on the task
      yet, for a task without a proof, and in a transaction of which nothing else raises. */
  predicate Stands(t: Tables, r: Request, task: string) {
    && r.CapturePod? && r.task == task && task in t.tasks && task !in t.pods
    && t.tasks[task].driver == Some(r.driver) && t.tasks[task].status.Arrived?
    && r.photo.Some? && !Used(t.events, task, r.action) && !r.restRaises
  }

  predicate GetsProof(t: Tables, r: Request, task: string) {
    Stands(t, r, task) && Handed(t.tasks[task].pickup, t.tasks[task].otp, r.otp, r.collector)
  }

  /** One request: a task gets a proof if and only if the request stands and the goods are handed over rightly; the
      proof says what the request said. Nothing else about proofs changes. */
  lemma ProofStep(t: Tables, r: Request, task: string)
    ensures var u := Serve(t, r).tables;
      && (task in u.pods <==> task in t.pods || GetsProof(t, r, task))
      && (task in t.pods ==> u.pods[task] == t.pods[task])
      && (GetsProof(t, r, task) ==>
            && u.pods[task] == Pod(r.photo.value, !t.tasks[task].pickup, r.collector)
            && u.tasks[task].status.Delivered? && Serve(t, r).answer == Ok(Delivered)
            && u.events == t.events + [Event(task, Arrived, Delivered, r.driver, r.action)]
            && u.outbox == t.outbox + [if t.tasks[task].pickup then ReadyForCollection(task) else TaskDelivered(task)])
  {
    hide Used;
  }

  /** Request number `i` of the run gives the task its proof: it stands by then, and bears the code drawn last. */
  predicate Proves(t: Tables, rs: seq<Request>, i: nat, task: string)
    requires i < |rs| && task in t.tasks
  {
    && Stands(Run(t, rs[..i]), rs[i], task)
    && Handed(t.tasks[task].pickup, LastCode(t.tasks[task].otp, t, rs[..i], task), rs[i].otp, rs[i].collector)
  }

  lemma {:induction false} RunConcat(t: Tables, a: seq<Request>, b: seq<Request>)
    ensures Run(t, a + b) == Run(Run(t, a), b)
    decreases |a|
  {
    hide Serve;
    if a == [] {
      assert a + b == b;
    } else {
      assert (a + b)[1..] == a[1..] + b;
      RunConcat(Serve(t, a[0]).tables, a[1..], b);
    }
  }

  lemma RunOne(t: Tables, r: Request)
    ensures Run(t, [r]) == Serve(t, r).tables
  {
    hide Serve;
    assert [r][1..] == [];
  }

  lemma RunLast(t: Tables, rs: seq<Request>)
    requires rs != []
    ensures Run(t, rs) == Serve(Run(t, rs[..|rs| - 1]), rs[|rs| - 1]).tables
  {
    hide Serve, Run;
    assert rs == rs[..|rs| - 1] + [rs[|rs| - 1]];
    RunConcat(t, rs[..|rs| - 1], [rs[|rs| - 1]]);
    RunOne(Run(t, rs[..|rs| - 1]), rs[|rs| - 1]);
  }

  lemma ProvesIsGets(t: Tables, rs: seq<Request>, i: nat, task: string)
    requires i < |rs| && task in t.tasks
    ensures Proves(t, rs, i, task) <==> GetsProof(Run(t, rs[..i]), rs[i], task)
  {
    CodeIsLast(t, rs[..i], task);
    hide Run, LastCode, Handed, Used;
  }

  lemma ProvesEarlier(t: Tables, rs: seq<Request>, i: nat, task: string)
    requires i < |rs| - 1 && task in t.tasks
    ensures Proves(t, rs[..|rs| - 1], i, task) == Proves(t, rs, i, task)
  {
    assert rs[..|rs| - 1][..i] == rs[..i];
  }

  lemma LastProof(t: Tables, rs: seq<Request>, task: string)
    requires task in t.tasks && rs != []
    ensures var n := |rs| - 1; var was, now := Run(t, rs[..n]), Run(t, rs);
      && (task in now.pods <==> task in was.pods || Proves(t, rs, n, task))
      && (task in was.pods ==> now.pods[task] == was.pods[task] && !Proves(t, rs, n, task))
      && (Proves(t, rs, n, task) ==>
            now.pods[task] == Pod(rs[n].photo.value, !t.tasks[task].pickup, rs[n].collector))
  {
    var n, front := |rs| - 1, rs[..|rs| - 1];
    RunLast(t, rs);
    CodeIsLast(t, front, task);
    ProvesIsGets(t, rs, n, task);
    ProofStep(Run(t, front), rs[n], task);
    hide Run, Serve, Proves, Handed, Used;
  }

  /** Over every run from tables without proofs: a task has a proof of delivery if and only if some request gave it one,
      and a task that is no pickup and has a code gets it only from a request that bears the code drawn last for it. The
      proof says what that request said. */
  lemma {:induction false} ProofIff(t: Tables, rs: seq<Request>, task: string)
    requires task in t.tasks && t.pods == map[]
    ensures task in Run(t, rs).pods <==> exists i :: 0 <= i < |rs| && Proves(t, rs, i, task)
    ensures forall i :: 0 <= i < |rs| && Proves(t, rs, i, task) ==>
      Run(t, rs).pods[task] == Pod(rs[i].photo.value, !t.tasks[task].pickup, rs[i].collector)
    decreases |rs|
  {
    if rs == [] {
    } else {
      hide Run, Proves;
      var n, front := |rs| - 1, rs[..|rs| - 1];
      ProofIff(t, front, task);
      LastProof(t, rs, task);
      forall i | 0 <= i < n ensures Proves(t, front, i, task) == Proves(t, rs, i, task) && front[i] == rs[i] {
        ProvesEarlier(t, rs, i, task);
      }
    }
  }

  /** After any run, a proof is refused for its code exactly when all that is looked at before the code is in order, and
      the code is missing or is not the one drawn last. */
  lemma WrongCodeIff(t: Tables, rs: seq<Request>, r: Request)
    requires r.CapturePod? && r.task in t.tasks
    ensures r.task in Run(t, rs).tasks
    ensures var u, code := Run(t, rs), LastCode(t.tasks[r.task].otp, t, rs, r.task);
      Serve(u, r).answer == Refused(OtpMismatch) <==>
        && u.tasks[r.task].driver == Some(r.driver) && !(r.action.Some? && r.task in u.pods)
        && u.tasks[r.task].status.Arrived? && r.photo.Some?
        && !t.tasks[r.task].pickup && (r.otp.None? || (code.Some? && r.otp != code))
  {
    CodeIsLast(t, rs, r.task);
    hide Run, LastCode, Used;
  }

  // ---------------------------------------------------------------------
  // New codes
  // ---------------------------------------------------------------------

  /** How often the run has granted the task a new code. */
  function Granted(t: Tables, rs: seq<Request>, task: string): nat
    decreases |rs|
  {
    if rs == [] then 0
    else
      (if rs[0].RegenerateOtp? && rs[0].task == task && Serve(t, rs[0]).answer.Ok? then 1 else 0) +
      Granted(Serve(t, rs[0]).tables, rs[1..], task)
  }

  lemma GrantStep(t: Tables, r: Request, task: string)
    requires task in t.tasks
    ensures task in Serve(t, r).tables.tasks
    ensures Serve(t, r).tables.tasks[task].regenerated == t.tasks[task].regenerated +
      if r.RegenerateOtp? && r.task == task && Serve(t, r).answer.Ok? then 1 else 0
  {
    hide Used;
    if r.Transition? || r.CapturePod? || r.FailTask? {
    } else {
    }
  }

  lemma {:induction false} GrantsCounted(t: Tables, rs: seq<Request>, task: string)
    requires task in t.tasks
    ensures task in Run(t, rs).tasks
    ensures Run(t, rs).tasks[task].regenerated == t.tasks[task].regenerated + Granted(t, rs, task)
    decreases |rs|
  {
    hide Serve;
    if rs == [] {
    } else {
      GrantStep(t, rs[0], task);
      GrantsCounted(Serve(t, rs[0]).tables, rs[1..], task);
    }
  }

  /** A driver at the door gets a new code for the task if and only if three were not granted yet. */
  lemma ThreeNewCodes(t: Tables, rs: seq<Request>, r: Request)
    requires r.RegenerateOtp? && r.task in t.tasks && t.tasks[r.task].regenerated == 0
    ensures r.task in Run(t, rs).tasks
    ensures var u := Run(t, rs);
      Serve(u, r).answer.Ok? <==>
        && u.tasks[r.task].driver == Some(r.driver) && u.tasks[r.task].status.Arrived?
        && Granted(t, rs, r.task) < 3
  {
    GrantsCounted(t, rs, r.task);
    hide Run, Granted;
  }

  /** Whose a task is: it changes hands only when the office gives it to another driver, its driver declines it in
      time, or its order is recalled before the task is done. */
  lemma DriverStep(t: Tables, r: Request, task: string)
    requires task in t.tasks
    ensures task in Serve(t, r).tables.tasks
    ensures Serve(t, r).tables.tasks[task].driver ==
      if r.Reassign? && r.task == task then Some(r.assignee)
      else if r.Decline? && Serve(t, r).answer.Ok? && r.task == task then r.next
      else if r.Recall? && r.order == t.tasks[task].order && Rank(t.tasks[task].status) <= 5 then None
      else t.tasks[task].driver
  {
    hide Used;
    if r.Transition? || r.CapturePod? || r.FailTask? {
    } else {
    }
  }

  // ---------------------------------------------------------------------
  // The log
  // ---------------------------------------------------------------------

  /** A task's way, and how far along each status is; a failed task is nowhere on it. */
  const WAY: seq<Status> := [Accepted, AtPickup, PickedUp, EnRoute, Arrived, Delivered]

  function Rank(status: Status): nat {
    match status
    case Assigned => 0
    case Accepted => 1
    case AtPickup => 2
    case PickedUp => 3
    case EnRoute => 4
    case Arrived => 5
    case Delivered => 6
    case Confirmed => 7
    case Failed => 9
  }

  /** The request moves its task: a report the next step of the way from the pickup to the door, a proof the last one,
      an acceptance the first one; it fails from the pickup, the road or the door; it is declined before it is
      accepted. */
  predicate Moves(t: Tables, r: Request, to: Status) {
    && !r.Reassign? && !r.Recall? && !r.RegenerateOtp?
    && r.task in t.tasks && t.tasks[r.task].driver == Some(r.driver) && !Used(t.events, r.task, ActionOf(r))
    && var rank := Rank(t.tasks[r.task].status);
      match r
      case Transition(_, _, wanted, _, _) => to == wanted && 2 <= Rank(to) <= 5 && Rank(to) == rank + 1
      case CapturePod(_, _, _, _, _, _, _, _) => to.Delivered? && GetsProof(t, r, r.task)
      case FailTask(_, _, _) => to.Failed? && (rank == 2 || rank == 4 || rank == 5)
      case Accept(_, _) => to.Accepted? && rank == 0
      case Decline(_, _, _) => to.Assigned? && rank == 0
      case _ => false
  }

  /** What is announced when a task moves; a decline is not. `failures` counts this one. */
  function Announced(e: Event, pickup: bool, failures: nat): seq<Notice> {
    match e.to
    case Assigned => []
    case Delivered => [if pickup then ReadyForCollection(e.task) else TaskDelivered(e.task)]
    case Failed => [TaskFailed(e.task, failures)]
    case _ => [StatusChanged(e.task, e.from, e.to)]
  }

  /** The statuses a task was moved to, in order. */
  function Tos(events: seq<Event>, task: string): seq<Status> {
    if events == [] then []
    else
      var last := events[|events| - 1];
      Tos(events[..|events| - 1], task) + if last.task == task then [last.to] else []
  }

  lemma {:induction false} FailuresAreTos(events: seq<Event>, task: string)
    ensures Failures(events, task) == multiset(Tos(events, task))[Failed]
  {
    if events == [] {
    } else {
      FailuresAreTos(events[..|events| - 1], task);
    }
  }

  /** A request that moves a task writes one event and its notice, is answered with the new status, and touches no other
      task. */
  lemma MoveStep(t: Tables, r: Request, to: Status)
    requires Moves(t, r, to)
    ensures var u := Serve(t, r).tables; var e := Event(r.task, t.tasks[r.task].status, to, r.driver, ActionOf(r));
      && u.events == t.events + [e] && Serve(t, r).answer == Ok(to)
      && u.outbox == t.outbox + Announced(e, t.tasks[r.task].pickup, Failures(u.events, r.task))
      && r.task in u.tasks && u.tasks[r.task].status == to && u.tasks.Keys == t.tasks.Keys
      && forall x :: x in t.tasks && x != r.task ==> u.tasks[x] == t.tasks[x]
  {
    hide Used, Failures;
    match r
    case Accept(_, _) =>
    case Decline(_, _, _) =>
    case _ =>
  }

  /** Any other request writes no event and announces nothing, and changes a status only to hand a task to another
      driver. */
  lemma StayStep(t: Tables, r: Request)
    requires forall to :: !Moves(t, r, to)
    ensures var u := Serve(t, r).tables;
      && u.events == t.events && u.outbox == t.outbox && u.cash == t.cash && u.pods == t.pods
      && u.tasks.Keys == t.tasks.Keys
      && forall x :: x in t.tasks ==>
           u.tasks[x].status == if r.Reassign? && r.task == x then Assigned else t.tasks[x].status
  {
    assert !Moves(t, r, Accepted) && !Moves(t, r, Assigned) && !Moves(t, r, Failed) && !Moves(t, r, Delivered);
    assert r.Transition? ==> !Moves(t, r, r.to);
    hide Used, Failures;
    match r
    case Accept(_, _) =>
    case Decline(_, _, _) =>
    case _ =>
  }

  /** The last events of the task led it down the way to where it is. */
  predicate OnItsWay(tos: seq<Status>, status: Status) {
    Rank(status) <= 6 ==> |tos| >= Rank(status) && tos[|tos| - Rank(status)..] == WAY[..Rank(status)]
  }

  ghost predicate AllOnTheirWay(t: Tables) {
    forall task :: task in t.tasks ==> OnItsWay(Tos(t.events, task), t.tasks[task].status)
  }

  lemma TosOfMore(events: seq<Event>, e: Event, task: string)
    ensures Tos(events + [e], task) == Tos(events, task) + if e.task == task then [e.to] else []
  {
    assert (events + [e])[..|events|] == events;
  }

  lemma NextOnItsWay(tos: seq<Status>, from: Status, to: Status)
    requires OnItsWay(tos, from) && (Rank(to) == Rank(from) + 1 || Rank(to) == 0 || Rank(to) > 6)
    ensures OnItsWay(tos + [to], to)
  {
    if 1 <= Rank(to) <= 6 {
      var k := Rank(to);
      assert (tos + [to])[|tos| + 1 - k..] == tos[|tos| - (k - 1)..] + [to];
      assert WAY[..k] == WAY[..k - 1] + [to];
    }
  }

  lemma OneMovedOn(t: Tables, u: Tables, e: Event)
    requires AllOnTheirWay(t) && e.task in t.tasks && u.events == t.events + [e] && u.tasks.Keys == t.tasks.Keys
    requires OnItsWay(Tos(t.events, e.task) + [e.to], e.to) && u.tasks[e.task].status == e.to
    requires forall x :: x in t.tasks && x != e.task ==> u.tasks[x] == t.tasks[x]
    ensures AllOnTheirWay(u)
  {
    forall task | task in u.tasks ensures OnItsWay(Tos(u.events, task), u.tasks[task].status) {
      TosOfMore(t.events, e, task);
      hide OnItsWay, Tos;
      assert task in t.tasks && Tos(t.events, task) + [] == Tos(t.events, task);
    }
  }

  lemma RanksOfMove(t: Tables, r: Request, to: Status)
    requires Moves(t, r, to)
    ensures Rank(to) == Rank(t.tasks[r.task].status) + 1 || Rank(to) == 0 || Rank(to) > 6
  {
    hide Used;
  }

  lemma MoveKeepsWay(t: Tables, r: Request, to: Status)
    requires AllOnTheirWay(t) && Moves(t, r, to)
    ensures AllOnTheirWay(Serve(t, r).tables)
  {
    MoveStep(t, r, to);
    RanksOfMove(t, r, to);
    var from := t.tasks[r.task].status;
    assert OnItsWay(Tos(t.events, r.task), from);
    hide Serve, OnItsWay, Tos, Moves, AllOnTheirWay;
    NextOnItsWay(Tos(t.events, r.task), from, to);
    OneMovedOn(t, Serve(t, r).tables, Event(r.task, from, to, r.driver, ActionOf(r)));
  }

  lemma StepKeepsWay(t: Tables, r: Request)
    requires AllOnTheirWay(t)
    ensures AllOnTheirWay(Serve(t, r).tables)
  {
    hide Serve, Moves, Tos;
    if to :| Moves(t, r, to) {
      hide AllOnTheirWay;
      MoveKeepsWay(t, r, to);
    } else {
      StayStep(t, r);
    }
  }

  /** No event was written, and every task waits for its driver. */
  ghost predicate Fresh(t: Tables) {
    t.events == [] && forall task :: task in t.tasks ==> t.tasks[task].status.Assigned?
  }

  lemma {:induction false} RunKeepsWay(t: Tables, rs: seq<Request>)
    requires AllOnTheirWay(t)
    ensures AllOnTheirWay(Run(t, rs))
    decreases |rs|
  {
    hide Serve, AllOnTheirWay;
    if rs == [] {
    } else {
      StepKeepsWay(t, rs[0]);
      RunKeepsWay(Serve(t, rs[0]).tables, rs[1..]);
    }
  }

  /** What each event of the log says: its task had gone the whole way to the new status, from the acceptance on. */
  ghost predicate LogOnItsWay(t: Tables) {
    forall i :: 0 <= i < |t.events| ==> OnItsWay(Tos(t.events[..i + 1], t.events[i].task), t.events[i].to)
  }

  lemma StepKeepsLogWay(t: Tables, r: Request)
    requires AllOnTheirWay(t) && LogOnItsWay(t)
    ensures LogOnItsWay(Serve(t, r).tables)
  {
    hide Serve, OnItsWay, Tos;
    if to :| Moves(t, r, to) {
      MoveKeepsWay(t, r, to);
      MoveStep(t, r, to);
      var u := Serve(t, r).tables;
      assert r.task in u.tasks && u.events[|t.events|].task == r.task && u.events[|t.events|].to == to;
      assert OnItsWay(Tos(u.events, r.task), u.tasks[r.task].status);
      hide Moves;
      forall i | 0 <= i < |u.events| ensures OnItsWay(Tos(u.events[..i + 1], u.events[i].task), u.events[i].to) {
        if i < |t.events| {
          assert u.events[..i + 1] == t.events[..i + 1] && u.events[i] == t.events[i];
        } else {
          assert u.events[..i + 1] == u.events;
        }
      }
    } else {
      StayStep(t, r);
      hide Moves;
    }
  }

  lemma {:induction false} RunKeepsLogWay(t: Tables, rs: seq<Request>)
    requires AllOnTheirWay(t) && LogOnItsWay(t)
    ensures LogOnItsWay(Run(t, rs))
    decreases |rs|
  {
    hide Serve, AllOnTheirWay, LogOnItsWay;
    if rs == [] {
    } else {
      StepKeepsWay(t, rs[0]);
      StepKeepsLogWay(t, rs[0]);
      RunKeepsLogWay(Serve(t, rs[0]).tables, rs[1..]);
    }
  }

  /** Every delivery has the whole way behind it: whatever was sent, declined, failed or reassigned before, the last
      six moves of a task that was delivered are acceptance, pickup point, pickup, road, door and delivery, in this
      order. */
  lemma DeliveredAllTheWay(t: Tables, rs: seq<Request>, i: nat)
    requires Fresh(t) && i < |Run(t, rs).events| && Run(t, rs).events[i].to.Delivered?
    ensures var events := Run(t, rs).events; var tos := Tos(events[..i + 1], events[i].task);
      |tos| >= 6 && tos[|tos| - 6..] == [Accepted, AtPickup, PickedUp, EnRoute, Arrived, Delivered]
  {
    hide Run, Tos, AllOnTheirWay;
    FreshIsOnItsWay(t);
    RunKeepsLogWay(t, rs);
    WholeWay(Tos(Run(t, rs).events[..i + 1], Run(t, rs).events[i].task));
    hide OnItsWay;
  }

  lemma FreshIsOnItsWay(t: Tables)
    requires Fresh(t)
    ensures AllOnTheirWay(t) && LogOnItsWay(t)
  {
    hide Tos;
  }

  lemma WholeWay(tos: seq<Status>)
    ensures OnItsWay(tos, Delivered) <==>
      |tos| >= 6 && tos[|tos| - 6..] == [Accepted, AtPickup, PickedUp, EnRoute, Arrived, Delivered]
  {
    assert WAY[..6] == WAY;
  }

  // ---------------------------------------------------------------------
  // Notices and cash
  // ---------------------------------------------------------------------

  /** One notice for each event but the declines, in order, each failure with its number. */
  function Notices(tasks: map<string, Task>, events: seq<Event>): seq<Notice> {
    if events == [] then []
    else
      var last := events[|events| - 1];
      Notices(tasks, events[..|events| - 1]) +
      Announced(last, last.task in tasks && tasks[last.task].pickup, multiset(Tos(events, last.task))[Failed])
  }

  lemma NoticesOfMore(tasks: map<string, Task>, events: seq<Event>, e: Event)
    requires e.task in tasks
    ensures Notices(tasks, events + [e]) ==
      Notices(tasks, events) + Announced(e, tasks[e.task].pickup, multiset(Tos(events + [e], e.task))[Failed])
  {
    assert (events + [e])[..|events|] == events;
  }

  predicate SamePickups(tasks: map<string, Task>, more: map<string, Task>) {
    tasks.Keys == more.Keys && forall task :: task in tasks ==> more[task].pickup == tasks[task].pickup
  }

  lemma PickupsStay(before: map<string, Task>, t: Tables, r: Request)
    requires SamePickups(before, t.tasks) && Serve(t, r).tables.tasks.Keys == t.tasks.Keys
    ensures SamePickups(before, Serve(t, r).tables.tasks)
  {
    forall task | task in t.tasks ensures Serve(t, r).tables.tasks[task].pickup == t.tasks[task].pickup {
      CodeStep(t, r, task);
    }
    hide Serve;
  }

  lemma NoticeOfMove(before: map<string, Task>, t: Tables, r: Request, to: Status)
    requires SamePickups(before, t.tasks) && t.outbox == Notices(before, t.events) && Moves(t, r, to)
    ensures Serve(t, r).tables.outbox == Notices(before, Serve(t, r).tables.events)
    ensures Serve(t, r).tables.tasks.Keys == t.tasks.Keys
  {
    var e := Event(r.task, t.tasks[r.task].status, to, r.driver, ActionOf(r));
    MoveStep(t, r, to);
    NoticesOfMore(before, t.events, e);
    FailuresAreTos(t.events + [e], r.task);
    assert r.task in before && before[r.task].pickup == t.tasks[r.task].pickup;
    hide *;
  }

  lemma NoticeStep(before: map<string, Task>, t: Tables, r: Request)
    requires SamePickups(before, t.tasks) && t.outbox == Notices(before, t.events)
    ensures var u := Serve(t, r).tables; SamePickups(before, u.tasks) && u.outbox == Notices(before, u.events)
  {
    hide *;
    if to :| Moves(t, r, to) {
      NoticeOfMove(before, t, r, to);
    } else {
      StayStep(t, r);
    }
    PickupsStay(before, t, r);
  }

  /** The outbox is the log announced: from empty tables of events and notices, every event but a decline has exactly
      one notice, in order, and a task's failures are numbered from one. */
  lemma {:induction false} OutboxTellsTheLog(before: map<string, Task>, t: Tables, rs: seq<Request>)
    requires SamePickups(before, t.tasks) && t.outbox == Notices(before, t.events)
    ensures Run(t, rs).outbox == Notices(before, Run(t, rs).events)
    decreases |rs|
  {
    hide Serve, Notices, SamePickups;
    if rs == [] {
    } else {
      NoticeStep(before, t, rs[0]);
      OutboxTellsTheLog(before, Serve(t, rs[0]).tables, rs[1..]);
    }
  }

  /** The cash the run's proofs bring in. */
  function Collected(t: Tables, rs: seq<Request>): seq<Cash>
    decreases |rs|
  {
    if rs == [] then []
    else
      var n, r := |rs| - 1, rs[|rs| - 1];
      Collected(t, rs[..n]) +
      if r.CapturePod? && r.task in t.tasks && Proves(t, rs, n, r.task) && r.amount.Some? && t.tasks[r.task].cod
      then [Cash(r.driver, t.tasks[r.task].order, r.amount.value)] else []
  }

  lemma CashStep(t: Tables, r: Request)
    ensures Serve(t, r).tables.cash == t.cash +
      if r.CapturePod? && GetsProof(t, r, r.task) && r.amount.Some? && t.tasks[r.task].cod
      then [Cash(r.driver, t.tasks[r.task].order, r.amount.value)] else []
    ensures Serve(t, r).tables.tasks.Keys == t.tasks.Keys
  {
    hide Used;
    assert t.cash + [] == t.cash;
    if r.Transition? || r.CapturePod? || r.FailTask? {
    } else {
    }
  }

  lemma {:induction false} NoNewTasks(t: Tables, rs: seq<Request>)
    ensures Run(t, rs).tasks.Keys == t.tasks.Keys
    decreases |rs|
  {
    hide Serve;
    if rs == [] {
    } else {
      CashStep(t, rs[0]);
      NoNewTasks(Serve(t, rs[0]).tables, rs[1..]);
    }
  }

  /** Cash is recorded once for each request that gives a proof, names an amount and is for a task to be paid on
      delivery: that amount, by that driver, for the task's order. */
  lemma {:induction false} CashOnlyWithProof(t: Tables, rs: seq<Request>)
    ensures Run(t, rs).cash == t.cash + Collected(t, rs)
    decreases |rs|
  {
    if rs == [] {
    } else {
      var n, r, front := |rs| - 1, rs[|rs| - 1], rs[..|rs| - 1];
      CashOnlyWithProof(t, front);
      RunLast(t, rs);
      NoNewTasks(t, front);
      CashStep(Run(t, front), r);
      hide Run, Serve;
      if r.CapturePod? && r.task in t.tasks {
        ProvesIsGets(t, rs, n, r.task);
        CodeIsLast(t, front, r.task);
        hide Proves, GetsProof;
      }
    }
  }
}
