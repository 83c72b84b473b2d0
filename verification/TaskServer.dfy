/** The SQL functions that queued actions end in, and what a repeated action does (db/migrations/0049 and 0074). */
module TaskServer {
  import opened Prelude

  datatype Status = Assigned | Accepted | AtPickup | PickedUp | EnRoute | Arrived | Delivered | Confirmed | Failed

  datatype Task = Task(
    order: string, pickup: bool, cod: bool, driver: Option<string>, status: Status, otp: Option<string>,
    regenerated: nat)

  const MAX_NEW_CODES: nat := 3

  datatype Event = Event(task: string, from: Status, to: Status, actor: string, action: Option<string>)

  datatype Collector = Customer | Supplier

  datatype Pod = Pod(photo: string, otpVerified: bool, collector: Collector)

  datatype Notice =
    | StatusChanged(task: string, from: Status, to: Status)
    | TaskDelivered(task: string)
    | ReadyForCollection(task: string)
    | TaskFailed(task: string, retries: nat)

  datatype Cash = Cash(driver: string, order: string, amount: int)

  datatype Tables = Tables(
    tasks: map<string, Task>, events: seq<Event>, pods: map<string, Pod>, cash: seq<Cash>, outbox: seq<Notice>)

  datatype Refusal = NotFound | TaskNotAssigned | Conflict | PodIncomplete | OtpMismatch | UniqueViolation | Raised

  datatype Answer = Ok(status: Status) | Refused(why: Refusal)

  // ---------------------------------------------------------------------
  // The tables
  // ---------------------------------------------------------------------

  /** `task_events` has a row of this task with this client action id. */
  predicate Used(events: seq<Event>, task: string, action: Option<string>) {
    action.Some? && exists i :: 0 <= i < |events| && events[i].task == task && events[i].action == action
  }

  predicate IsEdge(from: Status, to: Status) {
    || (from.Accepted? && to.AtPickup?) || (from.AtPickup? && to.PickedUp?)
    || (from.PickedUp? && to.EnRoute?) || (from.EnRoute? && to.Arrived?)
  }

  function Failures(events: seq<Event>, task: string): nat {
    if events == [] then 0
    else Failures(events[..|events| - 1], task) +
         if events[|events| - 1].task == task && events[|events| - 1].to.Failed? then 1 else 0
  }

  /** Every driver function starts by locking the task and checking whose it is. */
  function Locked(t: Tables, task: string, driver: string): Option<Refusal> {
    if task !in t.tasks then Some(NotFound)
    else if t.tasks[task].driver != Some(driver) then Some(TaskNotAssigned)
    else None
  }

  function Move(t: Tables, task: string, to: Status, driver: string, action: Option<string>): Tables
    requires task in t.tasks
  {
    t.(tasks := t.tasks[task := t.tasks[task].(status := to)],
       events := t.events + [Event(task, t.tasks[task].status, to, driver, action)])
  }

  // ---------------------------------------------------------------------
  // Requests
  // ---------------------------------------------------------------------

  /** `minted` is the new code; `restRaises`: a later statement of the transaction raises (the stock movements,
      the order's mirror, a check on the cash amount). */
  datatype Request =
    | Transition(task: string, driver: string, to: Status, action: Option<string>, minted: string)
    | CapturePod(task: string, driver: string, photo: Option<string>, otp: Option<string>, collector: Collector,
                 amount: Option<int>, action: Option<string>, restRaises: bool)
    | FailTask(task: string, driver: string, action: Option<string>)
    | Accept(task: string, driver: string)
    | Decline(task: string, driver: string, next: Option<string>)
    | RegenerateOtp(task: string, driver: string, minted: string)
    | Reassign(task: string, assignee: string)
    | Recall(order: string)

  datatype Served = Served(tables: Tables, answer: Answer)

  function Transitioned(t: Tables, task: string, driver: string, to: Status, action: Option<string>,
                        minted: string): Served {
    var refusal := Locked(t, task, driver);
    if refusal.Some? then Served(t, Refused(refusal.value))
    else if Used(t.events, task, action) then Served(t, Ok(t.tasks[task].status))
    else if !IsEdge(t.tasks[task].status, to) then Served(t, Refused(Conflict))
    else
      var u := Move(t, task, to, driver, action);
      Served(u.(tasks := if to.Arrived? then u.tasks[task := u.tasks[task].(otp := Some(minted))] else u.tasks,
                outbox := t.outbox + [StatusChanged(task, t.tasks[task].status, to)]), Ok(to))
  }

  /** What stands in the way of a proof of delivery. */
  function PodRefusal(t: Tables, task: string, photo: Option<string>, otp: Option<string>, collector: Collector,
                      action: Option<string>, restRaises: bool): Option<Refusal>
    requires task in t.tasks
  {
    var row := t.tasks[task];
    if !row.status.Arrived? then Some(Conflict)
    else if photo.None? then Some(PodIncomplete)
    else if !row.pickup && (otp.None? || (row.otp.Some? && otp != row.otp)) then Some(OtpMismatch)
    else if row.pickup && !collector.Supplier? then Some(PodIncomplete)
    else if task in t.pods || Used(t.events, task, action) then Some(UniqueViolation)
    else if restRaises then Some(Raised)
    else None
  }

  function Captured(t: Tables, task: string, driver: string, photo: Option<string>, otp: Option<string>,
                    collector: Collector, amount: Option<int>, action: Option<string>, restRaises: bool): Served
  {
    var refusal := Locked(t, task, driver);
    if refusal.Some? then Served(t, Refused(refusal.value))
    else if action.Some? && task in t.pods then Served(t, Ok(Delivered))
    else
      var barrier := PodRefusal(t, task, photo, otp, collector, action, restRaises);
      if barrier.Some? then Served(t, Refused(barrier.value))
      else
        var row := t.tasks[task];
        Served(Move(t, task, Delivered, driver, action).(
                 pods := t.pods[task := Pod(photo.value, !row.pickup, collector)],
                 cash := if amount.Some? && row.cod then t.cash + [Cash(driver, row.order, amount.value)] else t.cash,
                 outbox := t.outbox + [if row.pickup then ReadyForCollection(task) else TaskDelivered(task)]),
               Ok(Delivered))
  }

  function FailedTask(t: Tables, task: string, driver: string, action: Option<string>): Served {
    var refusal := Locked(t, task, driver);
    if refusal.Some? then Served(t, Refused(refusal.value))
    else if Used(t.events, task, action) then Served(t, Ok(t.tasks[task].status))
    else if t.tasks[task].status !in {AtPickup, EnRoute, Arrived} then Served(t, Refused(Conflict))
    else
      var u := Move(t, task, Failed, driver, action);
      Served(u.(outbox := t.outbox + [TaskFailed(task, Failures(u.events, task))]), Ok(Failed))
  }

  /** What else happens to a task: accepting, declining, a new code, and the two ways the office takes it back. */
  function Elsewhere(t: Tables, r: Request): Served
    requires !r.Transition? && !r.CapturePod? && !r.FailTask?
  {
    match r
    case Accept(task, driver) =>
      var refusal := Locked(t, task, driver);
      if refusal.Some? then Served(t, Refused(refusal.value))
      else if t.tasks[task].status.Accepted? then Served(t, Ok(Accepted))
      else if !t.tasks[task].status.Assigned? then Served(t, Refused(Conflict))
      else
        Served(Move(t, task, Accepted, driver, None).(outbox := t.outbox + [StatusChanged(task, Assigned, Accepted)]),
               Ok(Accepted))
    case Decline(task, driver, next) =>
      var refusal := Locked(t, task, driver);
      if refusal.Some? then Served(t, Refused(refusal.value))
      else if !t.tasks[task].status.Assigned? then Served(t, Refused(Conflict))
      else
        var u := Move(t, task, Assigned, driver, None);
        Served(u.(tasks := t.tasks[task := t.tasks[task].(driver := next)]), Ok(Assigned))
    case RegenerateOtp(task, driver, minted) =>
      var refusal := Locked(t, task, driver);
      if refusal.Some? then Served(t, Refused(refusal.value))
      else if !t.tasks[task].status.Arrived? || t.tasks[task].regenerated >= MAX_NEW_CODES
      then Served(t, Refused(Conflict))
      else
        var row := t.tasks[task];
        var fresher := row.(otp := Some(minted), regenerated := row.regenerated + 1);
        Served(t.(tasks := t.tasks[task := fresher]), Ok(Arrived))
    case Reassign(task, assignee) =>
      if task !in t.tasks then Served(t, Refused(NotFound))
      else Served(t.(tasks := t.tasks[task := t.tasks[task].(driver := Some(assignee), status := Assigned)]),
        Ok(Assigned))
    case Recall(order) =>
      Served(t.(tasks := map id | id in t.tasks ::
                  if t.tasks[id].order == order && t.tasks[id].status !in {Delivered, Confirmed, Failed}
                  then t.tasks[id].(driver := None) else t.tasks[id]), Ok(Assigned))
  }

  function Serve(t: Tables, r: Request): Served {
    match r
    case Transition(task, driver, to, action, minted) => Transitioned(t, task, driver, to, action, minted)
    case CapturePod(task, driver, photo, otp, collector, amount, action, restRaises) =>
      Captured(t, task, driver, photo, otp, collector, amount, action, restRaises)
    case FailTask(task, driver, action) => FailedTask(t, task, driver, action)
    case _ => Elsewhere(t, r)
  }

  function Run(t: Tables, rs: seq<Request>): Tables
    decreases |rs|
  {
    if rs == [] then t else Run(Serve(t, rs[0]).tables, rs[1..])
  }

  // ---------------------------------------------------------------------
  // The driver functions, statement by statement
  // ---------------------------------------------------------------------

  class Delivery {
    var tasks: map<string, Task>
    var events: seq<Event>
    var pods: map<string, Pod>
    var cash: seq<Cash>
    var outbox: seq<Notice>

    function Contents(): Tables reads this {
      Tables(tasks, events, pods, cash, outbox)
    }

    method UpdateStatus(task: string, to: Status, driver: string, action: Option<string>)
      requires task in tasks
      modifies this`tasks, this`events
      ensures Contents() == Move(old(Contents()), task, to, driver, action)
    {
      events := events + [Event(task, tasks[task].status, to, driver, action)];
      tasks := tasks[task := tasks[task].(status := to)];
    }

    /** `transition_task`. */
    method TransitionTask(task: string, driver: string, to: Status, action: Option<string>, minted: string)
      returns (answer: Answer)
      modifies this
      ensures Served(Contents(), answer) == Transitioned(old(Contents()), task, driver, to, action, minted)
    {
      if task !in tasks {
        return Refused(NotFound);
      }
      if tasks[task].driver != Some(driver) {
        return Refused(TaskNotAssigned);
      }
      if Used(events, task, action) {
        return Ok(tasks[task].status);
      }
      var from := tasks[task].status;
      if to !in {AtPickup, PickedUp, EnRoute, Arrived} || !IsEdge(from, to) {
        return Refused(Conflict);
      }
      UpdateStatus(task, to, driver, action);
      if to.Arrived? {
        tasks := tasks[task := tasks[task].(otp := Some(minted))];
      }
      outbox := outbox + [StatusChanged(task, from, to)];
      return Ok(to);
    }

    /** `capture_pod`. A statement that raises rolls back the whole call. */
    method CapturePod(task: string, driver: string, photo: Option<string>, otp: Option<string>, collector: Collector,
                      amount: Option<int>, action: Option<string>, restRaises: bool)
      returns (answer: Answer)
      modifies this
      ensures Served(Contents(), answer) ==
              Captured(old(Contents()), task, driver, photo, otp, collector, amount, action, restRaises)
    {
      if task !in tasks {
        return Refused(NotFound);
      }
      var row := tasks[task];
      if row.driver != Some(driver) {
        return Refused(TaskNotAssigned);
      }
      if action.Some? && task in pods {
        return Ok(Delivered);
      }
      if !row.status.Arrived? {
        return Refused(Conflict);
      }
      if photo.None? {
        return Refused(PodIncomplete);
      }
      if !row.pickup {
        if otp.None? || (row.otp.Some? && otp != row.otp) {
          return Refused(OtpMismatch);
        }
      } else if !collector.Supplier? {
        return Refused(PodIncomplete);
      }
      if task in pods || Used(events, task, action) {
        return Refused(UniqueViolation);
      }
      if restRaises {
        return Refused(Raised);
      }
      pods := pods[task := Pod(photo.value, !row.pickup, collector)];
      UpdateStatus(task, Delivered, driver, action);
      outbox := outbox + [if row.pickup then ReadyForCollection(task) else TaskDelivered(task)];
      if amount.Some? && row.cod {
        cash := cash + [Cash(driver, row.order, amount.value)];
      }
      return Ok(Delivered);
    }

    /** `fail_task`. */
    method FailTask(task: string, driver: string, action: Option<string>) returns (answer: Answer)
      modifies this
      ensures Served(Contents(), answer) == FailedTask(old(Contents()), task, driver, action)
    {
      if task !in tasks {
        return Refused(NotFound);
      }
      if tasks[task].driver != Some(driver) {
        return Refused(TaskNotAssigned);
      }
      if Used(events, task, action) {
        return Ok(tasks[task].status);
      }
      if tasks[task].status !in {AtPickup, EnRoute, Arrived} {
        return Refused(Conflict);
      }
      UpdateStatus(task, Failed, driver, action);
      outbox := outbox + [TaskFailed(task, Failures(events, task))];
      return Ok(Failed);
    }
  }

  // ---------------------------------------------------------------------
  // What every run keeps
  // ---------------------------------------------------------------------

  /** The unique index on (task_id, client_action_id). */
  ghost predicate IdsOnce(events: seq<Event>) {
    forall i, j :: 0 <= i < j < |events| && events[i].task == events[j].task && events[i].action.Some? ==>
      events[i].action != events[j].action
  }

  function Deliveries(events: seq<Event>, task: string): nat {
    if events == [] then 0
    else Deliveries(events[..|events| - 1], task) +
         if events[|events| - 1].task == task && events[|events| - 1].to.Delivered? then 1 else 0
  }

  ghost predicate Inv(t: Tables) {
    && IdsOnce(t.events)
    && (forall task :: Deliveries(t.events, task) == if task in t.pods then 1 else 0)
  }

  /** The log and the proofs only grow, and no task goes away. */
  ghost predicate Grows(t: Tables, u: Tables) {
    t.events <= u.events && t.pods.Keys <= u.pods.Keys && t.tasks.Keys <= u.tasks.Keys
  }

  lemma MoveKeeps(t: Tables, task: string, to: Status, driver: string, action: Option<string>)
    requires task in t.tasks && IdsOnce(t.events) && !Used(t.events, task, action)
    ensures var u := Move(t, task, to, driver, action);
      && IdsOnce(u.events) && Grows(t, u)
      && forall x :: Deliveries(u.events, x) == Deliveries(t.events, x) + if x == task && to.Delivered? then 1 else 0
  {
    var u := Move(t, task, to, driver, action);
    assert u.events[..|u.events| - 1] == t.events;
  }

  lemma TransitionKeeps(t: Tables, r: Request)
    requires Inv(t) && r.Transition?
    ensures Inv(Serve(t, r).tables) && Grows(t, Serve(t, r).tables)
  {
    if Serve(t, r).tables.events != t.events {
      MoveKeeps(t, r.task, r.to, r.driver, r.action);
    }
  }

  lemma CaptureKeeps(t: Tables, r: Request)
    requires Inv(t) && r.CapturePod?
    ensures Inv(Serve(t, r).tables) && Grows(t, Serve(t, r).tables)
  {
    if Serve(t, r).tables.events != t.events {
      MoveKeeps(t, r.task, Delivered, r.driver, r.action);
    }
  }

  lemma FailKeeps(t: Tables, r: Request)
    requires Inv(t) && r.FailTask?
    ensures Inv(Serve(t, r).tables) && Grows(t, Serve(t, r).tables)
  {
    if Serve(t, r).tables.events != t.events {
      MoveKeeps(t, r.task, Failed, r.driver, r.action);
    }
  }

  lemma ElsewhereKeeps(t: Tables, r: Request)
    requires Inv(t) && !r.Transition? && !r.CapturePod? && !r.FailTask?
    ensures Inv(Serve(t, r).tables) && Grows(t, Serve(t, r).tables)
  {
    if Serve(t, r).tables.events != t.events {
      MoveKeeps(t, r.task, if r.Accept? then Accepted else Assigned, r.driver, None);
    }
  }

  lemma ServeKeeps(t: Tables, r: Request)
    requires Inv(t)
    ensures Inv(Serve(t, r).tables) && Grows(t, Serve(t, r).tables)
  {
    hide Inv, Grows, Serve;
    match r {
      case Transition(_, _, _, _, _) => TransitionKeeps(t, r);
      case CapturePod(_, _, _, _, _, _, _, _) => CaptureKeeps(t, r);
      case FailTask(_, _, _) => FailKeeps(t, r);
      case _ => ElsewhereKeeps(t, r);
    }
  }

  /** After any requests: no client action id has two events on a task, and a task was delivered exactly once if it
      has a proof of delivery and never otherwise. */
  lemma {:induction false} RunKeeps(t: Tables, rs: seq<Request>)
    requires Inv(t)
    ensures Inv(Run(t, rs)) && Grows(t, Run(t, rs))
    decreases |rs|
  {
    if rs == [] {
    } else {
      ServeKeeps(t, rs[0]);
      RunKeeps(Serve(t, rs[0]).tables, rs[1..]);
    }
  }

  // ---------------------------------------------------------------------
  // A repeated action
  // ---------------------------------------------------------------------

  function ActionOf(r: Request): Option<string> {
    match r
    case Transition(_, _, _, action, _) => action
    case CapturePod(_, _, _, _, _, _, action, _) => action
    case FailTask(_, _, action) => action
    case _ => None
  }

  /** The same request at another time: a new code would be drawn. */
  function WithMinted(r: Request, minted: string): Request {
    match r
    case Transition(task, driver, to, action, _) => Transition(task, driver, to, action, minted)
    case _ => r
  }

  lemma UsedGrows(events: seq<Event>, more: seq<Event>, task: string, action: Option<string>)
    requires events <= more && Used(events, task, action)
    ensures Used(more, task, action)
  {
    var i :| 0 <= i < |events| && events[i].task == task && events[i].action == action;
    assert more[i] == events[i];
  }

  lemma AnsweredIsUsed(t: Tables, r: Request)
    requires ActionOf(r).Some? && Serve(t, r).answer.Ok?
    ensures var u := Serve(t, r).tables;
      r.task in u.tasks && if r.CapturePod? then r.task in u.pods else Used(u.events, r.task, ActionOf(r))
  {
    var u := Serve(t, r).tables;
    if u.events != t.events {
      assert u.events[|t.events|].action == ActionOf(r);
    }
  }

  /** An action that was answered once is settled: whatever happens to the tables afterwards, sending it again
      changes nothing. It is answered well if the task is still the driver's, and refused otherwise. */
  lemma RetryChangesNothing(t: Tables, r: Request, later: seq<Request>, minted: string)
    requires Inv(t) && ActionOf(r).Some? && Serve(t, r).answer.Ok?
    ensures var u := Run(Serve(t, r).tables, later);
      && r.task in u.tasks && Serve(u, WithMinted(r, minted)).tables == u
      && Serve(u, WithMinted(r, minted)).answer.Ok? == (u.tasks[r.task].driver == Some(r.driver))
      && (Serve(u, WithMinted(r, minted)).answer.Refused? ==>
          Serve(u, WithMinted(r, minted)).answer == Refused(TaskNotAssigned))
  {
    var s := Serve(t, r).tables;
    var u := Run(s, later);
    ServeKeeps(t, r);
    RunKeeps(s, later);
    AnsweredIsUsed(t, r);
    if !r.CapturePod? {
      UsedGrows(s.events, u.events, r.task, ActionOf(r));
    }
  }

  /** Nothing captures a second proof of delivery, cash or notice, whatever its id, whoever sends it and whatever the
      office did to the task in between. */
  lemma SecondPodChangesNothing(t: Tables, r: Request, later: seq<Request>)
    requires Inv(t) && r.CapturePod? && r.task in t.pods
    ensures Serve(Run(t, later), r).tables == Run(t, later)
  {
    RunKeeps(t, later);
  }

  // ---------------------------------------------------------------------
  // Ids that are used again
  // ---------------------------------------------------------------------

  /** Some request of the run had this id on this task, and took effect. */
  predicate TookEffect(t: Tables, rs: seq<Request>, task: string, action: Option<string>)
    decreases |rs|
  {
    rs != [] &&
    (|| (ActionOf(rs[0]) == action && action.Some? && rs[0].task == task && Serve(t, rs[0]).tables != t)
     || TookEffect(Serve(t, rs[0]).tables, rs[1..], task, action))
  }

  /** Only an action that takes effect adds an event with an id. */
  lemma EffectIsUsed(t: Tables, r: Request, task: string, action: Option<string>)
    ensures Used(Serve(t, r).tables.events, task, action) <==>
      Used(t.events, task, action) ||
      (ActionOf(r) == action && action.Some? && r.task == task && Serve(t, r).tables != t)
  {
    var u := Serve(t, r).tables;
    EventsOf(t, r);
    if Used(t.events, task, action) {
      UsedGrows(t.events, u.events, task, action);
    } else if u.events != t.events && u.events[|t.events|].task == task && u.events[|t.events|].action == action {
      assert action.Some? ==> Used(u.events, task, action);
    }
  }

  lemma EventsOf(t: Tables, r: Request)
    ensures var u := Serve(t, r).tables;
      u.events == t.events ||
      (!r.Recall? && exists e: Event :: u.events == t.events + [e] && e.task == r.task && e.action == ActionOf(r))
    ensures ActionOf(r).Some? ==> (Serve(t, r).tables == t <==> Serve(t, r).tables.events == t.events)
  {
    var u := Serve(t, r).tables;
    if u.events != t.events {
      assert u.events == t.events + [u.events[|t.events|]];
    }
  }

  lemma {:induction false} UsedAfter(t: Tables, rs: seq<Request>, task: string, action: Option<string>)
    ensures Used(Run(t, rs).events, task, action) <==> Used(t.events, task, action) || TookEffect(t, rs, task, action)
    decreases |rs|
  {
    hide Used, Serve, ActionOf;
    if rs == [] {
    } else {
      EffectIsUsed(t, rs[0], task, action);
      UsedAfter(Serve(t, rs[0]).tables, rs[1..], task, action);
    }
  }

  /** A transition or failure is answered well and changes nothing if and only if the task is the driver's and an
      earlier request with its id took effect there, whatever that one was. */
  lemma SwallowedIff(t: Tables, rs: seq<Request>, r: Request)
    requires t.events == [] && ActionOf(r).Some? && !r.CapturePod?
    ensures var u := Run(t, rs);
      Serve(u, r).answer.Ok? && Serve(u, r).tables == u <==>
      r.task in u.tasks && u.tasks[r.task].driver == Some(r.driver) && TookEffect(t, rs, r.task, ActionOf(r))
  {
    var u := Run(t, rs);
    UsedAfter(t, rs, r.task, ActionOf(r));
    EventsOf(u, r);
  }

  predicate AtStart(t: Tables, task: string) {
    task in t.tasks && t.tasks[task].status in {Assigned, Accepted}
  }

  /** Every pickup reported for the task carries an id the task has an event of. */
  ghost predicate OnlyUsedIds(t: Tables, task: string, rs: seq<Request>) {
    forall i :: 0 <= i < |rs| && rs[i].Transition? && rs[i].task == task && rs[i].to.AtPickup? ==>
      Used(t.events, task, rs[i].action)
  }

  lemma StaysAtStart(t: Tables, task: string, r: Request)
    requires AtStart(t, task)
    requires r.Transition? && r.task == task && r.to.AtPickup? ==> Used(t.events, task, r.action)
    ensures AtStart(Serve(t, r).tables, task)
  {
  }

  /** A task that is back at its start does not leave it again as long as its drivers report the pickup under ids
      that were used on it. The app's ids are the task's and the status's names, the same for every driver. */
  lemma {:induction false} StrandedTask(t: Tables, task: string, rs: seq<Request>)
    requires Inv(t) && AtStart(t, task) && OnlyUsedIds(t, task, rs)
    ensures AtStart(Run(t, rs), task)
    decreases |rs|
  {
    if rs == [] {
    } else {
      var u := Serve(t, rs[0]).tables;
      StaysAtStart(t, task, rs[0]);
      ServeKeeps(t, rs[0]);
      forall i | 0 <= i < |rs| - 1 && rs[1..][i].Transition? && rs[1..][i].task == task && rs[1..][i].to.AtPickup?
        ensures Used(u.events, task, rs[1..][i].action)
      {
        assert rs[1..][i] == rs[i + 1];
        UsedGrows(t.events, u.events, task, rs[i + 1].action);
      }
      StrandedTask(u, task, rs[1..]);
    }
  }

  lemma ReportIsUsed(t: Tables, task: string, driver: string, id: string, minted: string)
    requires task in t.tasks && t.tasks[task].driver == Some(driver) && t.tasks[task].status.Accepted?
    ensures var u := Serve(t, Transition(task, driver, AtPickup, Some(id), minted)).tables;
      task in u.tasks && Used(u.events, task, Some(id))
  {
    AnsweredIsUsed(t, Transition(task, driver, AtPickup, Some(id), minted));
  }

  lemma ReassignedAndAccepted(t: Tables, task: string, next: string)
    requires task in t.tasks
    ensures var u := Serve(Serve(t, Reassign(task, next)).tables, Accept(task, next)).tables;
      && task in u.tasks && u.tasks[task].driver == Some(next) && u.tasks[task].status.Accepted?
      && t.events <= u.events
  {
  }

  lemma RunOfThree(t: Tables, a: Request, b: Request, c: Request)
    ensures Run(t, [a, b, c]) == Serve(Serve(Serve(t, a).tables, b).tables, c).tables
  {
    hide Serve;
    assert [a, b, c][1..] == [b, c] && [b, c][1..] == [c] && [c][1..] == [];
    assert Run(t, [a, b, c]) == Run(Serve(t, a).tables, [b, c]);
    assert Run(Serve(t, a).tables, [b, c]) == Run(Serve(Serve(t, a).tables, b).tables, [c]);
  }

  /** How a task gets there, from any tables: its driver reports the pickup, the office reassigns it, the next driver
      accepts it, and the report of the pickup, under the same id, is answered "accepted" and moves nothing. */
  lemma ReassignedTaskIsStuck(t: Tables, task: string, driver: string, next: string, id: string, minted: string)
    requires Inv(t) && task in t.tasks && t.tasks[task].driver == Some(driver) && t.tasks[task].status.Accepted?
    ensures
      var before := [Transition(task, driver, AtPickup, Some(id), minted), Reassign(task, next), Accept(task, next)];
      var report := Transition(task, next, AtPickup, Some(id), minted);
      var u := Run(t, before);
      Inv(u) && AtStart(u, task) && OnlyUsedIds(u, task, [report]) && Serve(u, report) == Served(u, Ok(Accepted))
  {
    var first := Transition(task, driver, AtPickup, Some(id), minted);
    var moved := Serve(t, first).tables;
    ReportIsUsed(t, task, driver, id, minted);
    ReassignedAndAccepted(moved, task, next);
    RunOfThree(t, first, Reassign(task, next), Accept(task, next));
    var u := Run(t, [first, Reassign(task, next), Accept(task, next)]);
    UsedGrows(moved.events, u.events, task, Some(id));
    RunKeeps(t, [first, Reassign(task, next), Accept(task, next)]);
    hide Run, Used, Inv;
  }
}
