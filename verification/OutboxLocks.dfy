/** All drainers of core.outbox at once: transactions interleaved at their statements, crashing at any point. */
module OutboxLocks {
  import opened Prelude
  import opened OutboxTable
  import opened BatchDrains

  datatype Drainer = Realtime | DispatchWorker | LoyaltyWorker

  datatype Entry = Entry(name: string, dispatched: bool)

  /** An open transaction. `section` counts its queries, `queue` and `current` are the rows still to do, `todo` what the
      current row's handler still has to write. */
  datatype Txn = Txn(
    drainer: Drainer, section: nat, locked: set<nat>, queue: seq<nat>, current: Option<nat>, todo: seq<Effect>,
    effects: seq<Effect>, marks: set<nat>, aborted: bool)

  datatype Committed = Committed(effect: Effect, txn: nat, drainer: Drainer)

  datatype State = State(
    rows: map<nat, Entry>,
    txns: map<nat, Txn>,
    begun: set<nat>,
    log: seq<Committed>,             // committed effects
    markers: map<nat, nat>,          // event -> transaction whose mark was committed
    drainerOf: map<nat, Drainer>)    // transaction -> drainer

  function Initial(): State {
    State(map[], map[], {}, [], map[], map[])
  }

  /** The names a drainer's query number `section` asks for; the dispatcher's has no name filter. */
  predicate Wants(drainer: Drainer, section: nat, name: string) {
    match drainer
    case Realtime => section == 0
    case DispatchWorker => section == 0 && name in DISPATCH_EVENTS
    case LoyaltyWorker => section < 4 && name == SECTIONS[section]
  }

  /** All that a drainer's handler writes for an event of this name. The dispatcher's own writes are its consumers'
      records; what their handlers do is not part of its transaction. */
  ghost predicate Handler(drainer: Drainer, event: nat, name: string, writes: seq<Effect>) {
    match drainer
    case Realtime => forall i :: 0 <= i < |writes| ==> writes[i] == Effect(event, "core.processed_events")
    case DispatchWorker => writes == WritesOf(event, DispatchStatements(Row(event, name, false)))
    case LoyaltyWorker => exists found ::
      writes == WritesOf(event, LoyaltyStatements(Row(event, name, false), Facts(false, found, None)))
  }

  predicate Locked(s: State, event: nat) {
    exists t <- s.txns :: event in s.txns[t].locked
  }

  /** What `for update skip locked` may return: undispatched, wanted and unlocked. */
  predicate Free(s: State, drainer: Drainer, section: nat, event: nat) {
    event in s.rows && !s.rows[event].dispatched && Wants(drainer, section, s.rows[event].name) && !Locked(s, event)
  }

  datatype Step =
    | Insert(event: nat, name: string)
    | Begin(txn: nat, drainer: Drainer)
    | SelectRows(txn: nat, batch: seq<nat>)
    | Take(txn: nat, todo: seq<Effect>)
    | Execute(txn: nat)
    | SqlError(txn: nat)
    | JsError(txn: nat)
    | Mark(txn: nat)
    | Commit(txn: nat)
    | Crash(txn: nat)

  predicate IsOpen(s: State, t: nat) {
    t in s.txns
  }

  predicate AtRow(s: State, t: nat) {
    t in s.txns && s.txns[t].current.Some?
  }

  predicate Wrote(x: Txn, event: nat) {
    exists i | 0 <= i < |x.effects| :: x.effects[i].event == event
  }

  ghost predicate Enabled(s: State, step: Step) {
    match step
    case Insert(e, _) => e !in s.rows
    case Begin(t, _) => t !in s.begun
    case SelectRows(t, batch) =>
      && IsOpen(s, t) && s.txns[t].queue == [] && s.txns[t].current.None? && !s.txns[t].aborted
      && (forall i :: 0 <= i < |batch| ==> Free(s, s.txns[t].drainer, s.txns[t].section, batch[i]))
      && (forall i, j :: 0 <= i < j < |batch| ==> batch[i] != batch[j])
      && (if s.txns[t].drainer.Realtime?
          then |batch| <= 1 &&
               (batch == [] ==> forall e :: e in s.rows ==> !Free(s, s.txns[t].drainer, s.txns[t].section, e))
          else forall e :: e in s.rows && Free(s, s.txns[t].drainer, s.txns[t].section, e) ==> e in batch)
    case Take(t, todo) =>
      && IsOpen(s, t) && s.txns[t].current.None? && s.txns[t].queue != [] && s.txns[t].queue[0] in s.rows
      && Handler(s.txns[t].drainer, s.txns[t].queue[0], s.rows[s.txns[t].queue[0]].name, todo)
    case Execute(t) => AtRow(s, t) && !s.txns[t].aborted && s.txns[t].todo != []
    case SqlError(t) => AtRow(s, t)
    case JsError(t) => AtRow(s, t) && !s.txns[t].drainer.Realtime? && !Wrote(s.txns[t], s.txns[t].current.value)
    case Mark(t) => AtRow(s, t) && !s.txns[t].aborted && s.txns[t].todo == []
    case Commit(t) => IsOpen(s, t) && s.txns[t].current.None? && s.txns[t].queue == []
    case Crash(t) => IsOpen(s, t)
  }

  function SetTxn(s: State, t: nat, x: Txn): State {
    s.(txns := s.txns[t := x])
  }

  function EndTxn(s: State, t: nat): State {
    s.(txns := s.txns - {t})
  }

  function Wrap(effects: seq<Effect>, t: nat, drainer: Drainer): seq<Committed> {
    seq(|effects|, i requires 0 <= i < |effects| => Committed(effects[i], t, drainer))
  }

  /** A commit publishes effects and marks together and releases the locks; an aborted one only releases. */
  function Commits(s: State, t: nat): State
    requires t in s.txns
  {
    var x := s.txns[t];
    if x.aborted then EndTxn(s, t)
    else
      EndTxn(s, t).(
        rows := map e | e in s.rows :: if e in x.marks then s.rows[e].(dispatched := true) else s.rows[e],
        log := s.log + Wrap(x.effects, t, x.drainer),
        markers := s.markers + map e | e in x.marks :: t)
  }

  function Apply(s: State, step: Step): State
    requires Enabled(s, step)
  {
    match step
    case Insert(e, name) => s.(rows := s.rows[e := Entry(name, false)])
    case Begin(t, drainer) =>
      SetTxn(s, t, Txn(drainer, 0, {}, [], None, [], [], {}, false))
        .(begun := s.begun + {t}, drainerOf := s.drainerOf[t := drainer])
    case SelectRows(t, batch) =>
      var x := s.txns[t];
      SetTxn(s, t, x.(section := x.section + 1, queue := batch, locked := x.locked + set e | e in batch))
    case Take(t, todo) =>
      var x := s.txns[t];
      SetTxn(s, t, x.(current := Some(x.queue[0]), queue := x.queue[1..], todo := todo))
    case Execute(t) =>
      var x := s.txns[t];
      SetTxn(s, t, x.(effects := x.effects + [x.todo[0]], todo := x.todo[1..]))
    case SqlError(t) => SetTxn(s, t, s.txns[t].(aborted := true, current := None, todo := []))
    case JsError(t) => SetTxn(s, t, s.txns[t].(current := None, todo := []))
    case Mark(t) =>
      var x := s.txns[t];
      SetTxn(s, t, x.(marks := x.marks + {x.current.value}, current := None))
    case Commit(t) => Commits(s, t)
    case Crash(t) => EndTxn(s, t)
  }

  // ---------------------------------------------------------------------
  // The invariant
  // ---------------------------------------------------------------------

  /** What a transaction works on it has locked, and nothing it wrote is without its mark. */
  ghost predicate TxnOk(s: State, x: Txn) {
    && (forall e :: e in x.locked ==> e in s.rows && !s.rows[e].dispatched)
    && (forall i :: 0 <= i < |x.queue| ==> x.queue[i] in x.locked)
    && (x.current.Some? ==> x.current.value in x.locked)
    && (forall i :: 0 <= i < |x.todo| ==> x.current == Some(x.todo[i].event))
    && x.marks <= x.locked
    && (!x.aborted ==> forall i :: 0 <= i < |x.effects| ==>
          x.effects[i].event in x.marks || x.current == Some(x.effects[i].event))
  }

  ghost predicate TxnsOk(s: State) {
    && (forall t :: t in s.txns ==>
          TxnOk(s, s.txns[t]) && t in s.begun && t in s.drainerOf && s.drainerOf[t] == s.txns[t].drainer)
    && (forall t, u, e :: t in s.txns && u in s.txns && e in s.txns[t].locked && e in s.txns[u].locked ==> t == u)
  }

  /** Every committed effect belongs to the transaction that marked its event. */
  ghost predicate LogOk(s: State) {
    && (forall i :: 0 <= i < |s.log| ==>
          s.log[i].effect.event in s.markers && s.markers[s.log[i].effect.event] == s.log[i].txn)
    && (forall i :: 0 <= i < |s.log| ==> s.log[i].txn in s.drainerOf && s.drainerOf[s.log[i].txn] == s.log[i].drainer)
    && (forall e :: e in s.markers <==> e in s.rows && s.rows[e].dispatched)
    && (forall e :: e in s.markers ==> s.markers[e] in s.begun)
    && s.drainerOf.Keys == s.begun
  }

  ghost predicate Inv(s: State) {
    TxnsOk(s) && LogOk(s)
  }

  lemma KeepsSelect(s: State, t: nat, batch: seq<nat>)
    requires Inv(s) && Enabled(s, SelectRows(t, batch))
    ensures Inv(Apply(s, SelectRows(t, batch)))
  {
    var x := s.txns[t];
    var s1 := Apply(s, SelectRows(t, batch));
    forall e, w | e in batch && w in s.txns ensures e !in s.txns[w].locked {
      assert Free(s, x.drainer, x.section, e);
    }
    assert TxnOk(s, x);
    assert TxnOk(s1, s1.txns[t]);
    forall u | u in s1.txns && u != t ensures TxnOk(s1, s1.txns[u]) {
      assert TxnOk(s, s.txns[u]);
    }
  }

  lemma KeepsLocal(s: State, t: nat, x: Txn)
    requires Inv(s) && t in s.txns && x.locked == s.txns[t].locked && x.drainer == s.txns[t].drainer
    requires TxnOk(s, x)
    ensures Inv(SetTxn(s, t, x))
  {
    var v := SetTxn(s, t, x);
    LogSame(s, v);
    hide LogOk;
    forall u | u in v.txns
      ensures TxnOk(v, v.txns[u]) && u in v.begun && u in v.drainerOf && v.drainerOf[u] == v.txns[u].drainer
    {
      SameRowsOk(s, v, v.txns[u]);
    }
    hide TxnOk;
  }

  lemma LogSame(s: State, t: State)
    requires LogOk(s) && t == s.(txns := t.txns)
    ensures LogOk(t)
  {
  }

  lemma SameRowsOk(s: State, t: State, x: Txn)
    requires t.rows == s.rows
    ensures TxnOk(t, x) == TxnOk(s, x)
  {
  }

  lemma KeepsEnd(s: State, t: nat)
    requires Inv(s)
    ensures Inv(EndTxn(s, t))
  {
  }

  lemma KeepsCommit(s: State, t: nat)
    requires Inv(s) && Enabled(s, Commit(t))
    ensures Inv(Apply(s, Commit(t)))
  {
    var x := s.txns[t];
    if x.aborted {
      KeepsEnd(s, t);
    } else {
      var s1 := Commits(s, t);
      assert TxnOk(s, x);
      forall u | u in s1.txns ensures TxnOk(s1, s1.txns[u]) {
        assert TxnOk(s, s.txns[u]);
      }
      forall i | 0 <= i < |s1.log|
        ensures s1.log[i].effect.event in s1.markers && s1.markers[s1.log[i].effect.event] == s1.log[i].txn
        ensures s1.log[i].txn in s1.drainerOf && s1.drainerOf[s1.log[i].txn] == s1.log[i].drainer
      {
        if i < |s.log| {
          assert s1.log[i] == s.log[i];
          assert s.log[i].effect.event !in x.marks;
        } else {
          assert s1.log[i] == Committed(x.effects[i - |s.log|], t, x.drainer);
        }
      }
    }
  }

  lemma KeepsInsert(s: State, event: nat, name: string)
    requires Inv(s) && event !in s.rows
    ensures Inv(Apply(s, Insert(event, name)))
  {
    forall u | u in s.txns ensures TxnOk(Apply(s, Insert(event, name)), s.txns[u]) {
      assert TxnOk(s, s.txns[u]);
    }
  }

  lemma KeepsBegin(s: State, t: nat, drainer: Drainer)
    requires Inv(s) && t !in s.begun
    ensures Inv(Apply(s, Begin(t, drainer)))
  {
    var v := Apply(s, Begin(t, drainer));
    assert t !in s.txns && t !in s.drainerOf;
    forall u | u in v.txns
      ensures TxnOk(v, v.txns[u]) && u in v.begun && u in v.drainerOf && v.drainerOf[u] == v.txns[u].drainer
    {
      if u != t { SameRowsOk(s, v, v.txns[u]); }
    }
    hide TxnOk;
  }

  lemma StepKeepsInv(s: State, step: Step)
    requires Inv(s) && Enabled(s, step)
    ensures Inv(Apply(s, step))
  {
    hide Inv;
    match step
    case Insert(e, name) => KeepsInsert(s, e, name);
    case Begin(t, drainer) => KeepsBegin(s, t, drainer);
    case SelectRows(t, batch) => KeepsSelect(s, t, batch);
    case Commit(t) => KeepsCommit(s, t);
    case Crash(t) => KeepsEnd(s, t);
    case _ => KeepsRowStep(s, step);
  }

  lemma HandlerIsOf(drainer: Drainer, event: nat, name: string, writes: seq<Effect>)
    requires Handler(drainer, event, name, writes)
    ensures forall i :: 0 <= i < |writes| ==> writes[i].event == event
  {
    forall i | 0 <= i < |writes| ensures writes[i].event == event {
      if drainer.DispatchWorker? {
        WritesAreOf(event, DispatchStatements(Row(event, name, false)), i);
      } else if drainer.LoyaltyWorker? {
        var found :| writes == WritesOf(event, LoyaltyStatements(Row(event, name, false), Facts(false, found, None)));
        WritesAreOf(event, LoyaltyStatements(Row(event, name, false), Facts(false, found, None)), i);
      }
    }
  }

  lemma KeepsRowStep(s: State, step: Step)
    requires Inv(s) && Enabled(s, step)
    requires step.Take? || step.Execute? || step.SqlError? || step.JsError? || step.Mark?
    ensures Inv(Apply(s, step))
  {
    var t := step.txn;
    var x, y := s.txns[t], Apply(s, step).txns[t];
    assert TxnOk(s, x);
    if step.Take? {
      HandlerIsOf(x.drainer, x.queue[0], s.rows[x.queue[0]].name, step.todo);
    }
    hide Handler;
    assert TxnOk(s, y);
    KeepsLocal(s, t, y);
  }

  // ---------------------------------------------------------------------
  // Runs
  // ---------------------------------------------------------------------

  ghost predicate ValidRun(s: State, steps: seq<Step>)
    decreases |steps|
  {
    steps == [] || (Enabled(s, steps[0]) && ValidRun(Apply(s, steps[0]), steps[1..]))
  }

  ghost function After(s: State, steps: seq<Step>): State
    requires ValidRun(s, steps)
    decreases |steps|
  {
    if steps == [] then s else After(Apply(s, steps[0]), steps[1..])
  }

  lemma {:induction false} RunKeepsInv(s: State, steps: seq<Step>)
    requires Inv(s) && ValidRun(s, steps)
    ensures Inv(After(s, steps))
    decreases |steps|
  {
    if steps == [] {
    } else {
      StepKeepsInv(s, steps[0]);
      RunKeepsInv(Apply(s, steps[0]), steps[1..]);
    }
  }

  /** At most one transaction of one drainer ever commits effects for an event, and the event is
      marked by that same transaction. */
  lemma OneHandlerPerEvent(steps: seq<Step>, i: nat, j: nat)
    requires ValidRun(Initial(), steps)
    requires i < |After(Initial(), steps).log| && j < |After(Initial(), steps).log|
    requires After(Initial(), steps).log[i].effect.event == After(Initial(), steps).log[j].effect.event
    ensures var s := After(Initial(), steps);
      && s.log[i].txn == s.log[j].txn && s.log[i].drainer == s.log[j].drainer
      && s.log[i].effect.event in s.rows && s.rows[s.log[i].effect.event].dispatched
      && s.log[i].effect.event in s.markers && s.markers[s.log[i].effect.event] == s.log[i].txn
  {
    RunKeepsInv(Initial(), steps);
  }

  lemma StepKeepsMarker(s: State, step: Step, event: nat)
    requires Inv(s) && Enabled(s, step) && event in s.markers
    ensures event in Apply(s, step).markers && Apply(s, step).markers[event] == s.markers[event]
    ensures s.markers[event] in Apply(s, step).drainerOf
    ensures Apply(s, step).drainerOf[s.markers[event]] == s.drainerOf[s.markers[event]]
  {
    if step.Commit? {
      assert TxnOk(s, s.txns[step.txn]);
    }
  }

  /** Once a drainer has marked an event, no other drainer's effect for it is ever committed: a cancelled event
      that the dispatch worker took reverses no points, in any continuation. */
  lemma {:induction false} TakenEventIsGone(s: State, steps: seq<Step>, event: nat, i: nat)
    requires Inv(s) && ValidRun(s, steps) && event in s.markers
    requires i < |After(s, steps).log| && After(s, steps).log[i].effect.event == event
    ensures After(s, steps).log[i].drainer == s.drainerOf[s.markers[event]]
    decreases |steps|
  {
    if steps == [] {
    } else {
      StepKeepsInv(s, steps[0]);
      StepKeepsMarker(s, steps[0], event);
      TakenEventIsGone(Apply(s, steps[0]), steps[1..], event, i);
    }
  }
}
