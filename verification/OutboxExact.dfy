/** However the drainers interleave and crash, the database holds exactly what is owed to each event by its drainer. */
module OutboxExact {
  import opened Prelude
  import opened OutboxTable
  import opened BatchDrains
  import opened OutboxLocks
  import H = OutboxHistory

  // ---------------------------------------------------------------------
  // The invariant
  // ---------------------------------------------------------------------

  /** A drainer asks for events of this name. */
  predicate Asks(drainer: Drainer, name: string) {
    match drainer
    case Realtime => true
    case DispatchWorker => name in H.NamesOf(Dispatch)
    case LoyaltyWorker => name in H.NamesOf(Loyalty)
  }

  /** What a transaction has written for an event: all of its handler's if it is marked, the handler's first part if the
      event is at hand, and nothing otherwise. */
  ghost predicate EventExact(rows: map<nat, Entry>, x: Txn, e: nat) {
    var written := H.Of(x.effects, e);
    if e in x.marks then e in rows && Handler(x.drainer, e, rows[e].name, written)
    else if x.current == Some(e) then e in rows && Handler(x.drainer, e, rows[e].name, written + x.todo)
    else written == []
  }

  /** No row is worked on twice in a transaction. */
  predicate OnceEach(x: Txn) {
    && (forall i :: 0 <= i < |x.queue| ==> x.queue[i] !in x.marks && x.current != Some(x.queue[i]))
    && (forall i, j :: 0 <= i < j < |x.queue| ==> x.queue[i] != x.queue[j])
    && (x.current.Some? ==> x.current.value !in x.marks)
  }

  ghost predicate TxnExact(rows: map<nat, Entry>, x: Txn) {
    && OnceEach(x)
    && (forall e :: e in x.locked ==> e in rows && Asks(x.drainer, rows[e].name))
    && (x.aborted || forall e: nat :: EventExact(rows, x, e))
  }

  function Effects(log: seq<Committed>): (r: seq<Effect>)
    ensures |r| == |log| && forall i :: 0 <= i < |r| ==> r[i] == log[i].effect
  {
    seq(|log|, i requires 0 <= i < |log| => log[i].effect)
  }

  /** What the database holds for an event: all of its drainer's handler if it is marked, and nothing otherwise. */
  ghost predicate LogExact(s: State, e: nat) {
    var written := H.Of(Effects(s.log), e);
    if e in s.markers
    then
      && e in s.rows && s.markers[e] in s.drainerOf && Asks(s.drainerOf[s.markers[e]], s.rows[e].name)
      && Handler(s.drainerOf[s.markers[e]], e, s.rows[e].name, written)
    else written == []
  }

  ghost predicate Exact(s: State) {
    && (forall t :: t in s.txns ==> TxnExact(s.rows, s.txns[t]))
    && (forall e: nat :: LogExact(s, e))
  }

  // ---------------------------------------------------------------------
  // One transaction's steps
  // ---------------------------------------------------------------------

  lemma OfMore(effects: seq<Effect>, x: Effect, e: nat)
    ensures H.Of(effects + [x], e) == H.Of(effects, e) + if x.event == e then [x] else []
  {
    assert (effects + [x])[..|effects|] == effects;
  }

  lemma {:induction false} OfNone(effects: seq<Effect>, e: nat)
    requires forall i :: 0 <= i < |effects| ==> effects[i].event != e
    ensures H.Of(effects, e) == []
  {
    if effects == [] {
    } else {
      OfNone(effects[..|effects| - 1], e);
    }
  }

  lemma WantedIsAsked(drainer: Drainer, section: nat, name: string)
    requires Wants(drainer, section, name)
    ensures Asks(drainer, name)
  {
    H.SectionNamesAre();
  }

  lemma SelectExact(s: State, t: nat, batch: seq<nat>)
    requires Inv(s) && Exact(s) && Enabled(s, SelectRows(t, batch))
    ensures TxnExact(s.rows, Apply(s, SelectRows(t, batch)).txns[t])
  {
    var x, y := s.txns[t], Apply(s, SelectRows(t, batch)).txns[t];
    assert TxnExact(s.rows, x) && TxnOk(s, x);
    forall e | e in batch ensures e !in x.locked && e in s.rows && Asks(x.drainer, s.rows[e].name) {
      assert Free(s, x.drainer, x.section, e);
      WantedIsAsked(x.drainer, x.section, s.rows[e].name);
    }
    hide Handler, H.Of, Asks, Free;
    forall e: nat | !x.aborted ensures EventExact(s.rows, y, e) {
      assert EventExact(s.rows, x, e);
    }
  }

  lemma TakeExact(s: State, t: nat, todo: seq<Effect>)
    requires t in s.txns && TxnExact(s.rows, s.txns[t]) && Enabled(s, Take(t, todo))
    ensures TxnExact(s.rows, Apply(s, Take(t, todo)).txns[t])
  {
    var x, y := s.txns[t], Apply(s, Take(t, todo)).txns[t];
    hide Handler, H.Of, Asks;
    forall e: nat | !x.aborted ensures EventExact(s.rows, y, e) {
      assert EventExact(s.rows, x, e);
      assert [] + todo == todo;
    }
  }

  lemma ExecuteExact(s: State, t: nat)
    requires t in s.txns && TxnExact(s.rows, s.txns[t]) && TxnOk(s, s.txns[t]) && Enabled(s, Execute(t))
    ensures TxnExact(s.rows, Apply(s, Execute(t)).txns[t])
  {
    var x, y := s.txns[t], Apply(s, Execute(t)).txns[t];
    var first := x.todo[0];
    assert x.current == Some(first.event);
    hide Handler, H.Of, Asks;
    forall e: nat ensures EventExact(s.rows, y, e) {
      assert EventExact(s.rows, x, e);
      OfMore(x.effects, first, e);
      assert (H.Of(x.effects, e) + [first]) + x.todo[1..] == H.Of(x.effects, e) + x.todo;
      assert H.Of(x.effects, e) + [] == H.Of(x.effects, e);
    }
  }

  lemma MarkExact(s: State, t: nat)
    requires t in s.txns && TxnExact(s.rows, s.txns[t]) && Enabled(s, Mark(t))
    ensures TxnExact(s.rows, Apply(s, Mark(t)).txns[t])
  {
    var x, y := s.txns[t], Apply(s, Mark(t)).txns[t];
    hide Handler, H.Of, Asks;
    forall e: nat ensures EventExact(s.rows, y, e) {
      assert EventExact(s.rows, x, e);
      assert H.Of(x.effects, e) + x.todo == H.Of(x.effects, e);
    }
  }

  lemma ErrorExact(s: State, t: nat, step: Step)
    requires t in s.txns && TxnExact(s.rows, s.txns[t])
    requires Enabled(s, step) && (step == SqlError(t) || step == JsError(t))
    ensures TxnExact(s.rows, Apply(s, step).txns[t])
  {
    var x, y := s.txns[t], Apply(s, step).txns[t];
    if step.JsError? {
      OfNone(x.effects, x.current.value);
    }
    hide Handler, H.Of, Asks, Wrote;
    forall e: nat | !y.aborted ensures EventExact(s.rows, y, e) {
      assert EventExact(s.rows, x, e);
    }
  }

  // ---------------------------------------------------------------------
  // All steps
  // ---------------------------------------------------------------------

  /** Events keep their names, marked or not. */
  predicate SameNames(rows: map<nat, Entry>, more: map<nat, Entry>) {
    forall e :: e in rows ==> e in more && more[e].name == rows[e].name
  }

  lemma TxnStays(rows: map<nat, Entry>, more: map<nat, Entry>, x: Txn)
    requires TxnExact(rows, x) && SameNames(rows, more)
    ensures TxnExact(more, x)
  {
    hide Handler, H.Of, Asks;
    forall e: nat | !x.aborted ensures EventExact(more, x, e) {
      assert EventExact(rows, x, e);
    }
  }

  lemma LogStays(s: State, t: State, e: nat)
    requires LogExact(s, e) && SameNames(s.rows, t.rows) && t.log == s.log && t.markers == s.markers
    requires forall u :: u in s.drainerOf && u in s.begun ==> u in t.drainerOf && t.drainerOf[u] == s.drainerOf[u]
    requires e in s.markers ==> s.markers[e] in s.begun
    ensures LogExact(t, e)
  {
    hide Handler, H.Of, Asks, Effects;
  }

  lemma EffectsOfCommit(s: State, t: nat, e: nat)
    requires t in s.txns && !s.txns[t].aborted
    ensures H.Of(Effects(Commits(s, t).log), e) == H.Of(Effects(s.log), e) + H.Of(s.txns[t].effects, e)
  {
    assert Effects(Commits(s, t).log) == Effects(s.log) + s.txns[t].effects;
    H.OfConcat(Effects(s.log), s.txns[t].effects, e);
  }

  lemma CommitMarks(s: State, t: nat, e: nat)
    requires Inv(s) && t in s.txns && !s.txns[t].aborted
    ensures var x, u := s.txns[t], Commits(s, t);
      && (e in x.marks ==>
            && e in x.locked && e !in s.markers && e in u.rows && e in s.rows && u.rows[e].name == s.rows[e].name
            && e in u.markers && u.markers[e] == t && t in u.drainerOf && u.drainerOf[t] == x.drainer)
      && (e !in x.marks ==> (e in u.markers <==> e in s.markers))
      && (e !in x.marks && e in s.markers ==>
            && u.markers[e] == s.markers[e] && u.drainerOf == s.drainerOf && e in s.rows && e in u.rows
            && u.rows[e].name == s.rows[e].name)
  {
    assert TxnOk(s, s.txns[t]);
  }

  lemma CommitLogs(s: State, t: nat, e: nat)
    requires Inv(s) && t in s.txns && s.txns[t].current.None? && !s.txns[t].aborted
    requires TxnExact(s.rows, s.txns[t]) && LogExact(s, e)
    ensures LogExact(Commits(s, t), e)
  {
    var x, u := s.txns[t], Commits(s, t);
    EffectsOfCommit(s, t, e);
    CommitMarks(s, t, e);
    assert EventExact(s.rows, x, e);
    hide Handler, H.Of, Asks, Effects, Inv, Commits;
    if e in x.marks {
      assert [] + H.Of(x.effects, e) == H.Of(x.effects, e);
    } else {
      assert H.Of(Effects(s.log), e) + [] == H.Of(Effects(s.log), e);
    }
  }

  lemma CommitExact(s: State, t: nat)
    requires Inv(s) && Exact(s) && Enabled(s, Commit(t))
    ensures Exact(Apply(s, Commit(t)))
  {
    var v := Apply(s, Commit(t));
    hide Handler, H.Of, Asks, Effects, TxnExact;
    forall u | u in v.txns ensures TxnExact(v.rows, v.txns[u]) {
      TxnStays(s.rows, v.rows, s.txns[u]);
    }
    forall e: nat ensures LogExact(v, e) {
      if s.txns[t].aborted {
        assert LogExact(s, e);
        LogStays(s, v, e);
      } else {
        assert LogExact(s, e);
        assert TxnExact(s.rows, s.txns[t]);
        CommitLogs(s, t, e);
      }
    }
  }

  /** A step within one transaction. */
  lemma OneTxnExact(s: State, t: nat, x: Txn)
    requires Exact(s) && TxnExact(s.rows, x)
    ensures Exact(SetTxn(s, t, x))
  {
    hide TxnExact, Handler, H.Of, Asks, Effects;
    forall e: nat ensures LogExact(SetTxn(s, t, x), e) {
      assert LogExact(s, e);
    }
  }

  lemma InsertExact(s: State, event: nat, name: string)
    requires Inv(s) && Exact(s) && event !in s.rows
    ensures Exact(Apply(s, Insert(event, name)))
  {
    var v := Apply(s, Insert(event, name));
    hide Handler, H.Of, Asks, Effects, TxnExact;
    forall u | u in v.txns ensures TxnExact(v.rows, v.txns[u]) {
      TxnStays(s.rows, v.rows, s.txns[u]);
    }
    forall e: nat ensures LogExact(v, e) {
      assert LogExact(s, e);
      LogStays(s, v, e);
    }
  }

  lemma BeginExact(s: State, t: nat, drainer: Drainer)
    requires Inv(s) && Exact(s) && t !in s.begun
    ensures Exact(Apply(s, Begin(t, drainer)))
  {
    var v := Apply(s, Begin(t, drainer));
    var fresher := v.txns[t];
    forall e: nat ensures EventExact(v.rows, fresher, e) {
    }
    assert TxnExact(v.rows, fresher);
    hide Handler, H.Of, Asks, Effects, TxnExact;
    forall e: nat ensures LogExact(v, e) {
      assert LogExact(s, e);
      LogStays(s, v, e);
    }
  }

  lemma CrashExact(s: State, t: nat)
    requires Exact(s)
    ensures Exact(EndTxn(s, t))
  {
    hide TxnExact, Handler, H.Of, Asks, Effects;
    forall e: nat ensures LogExact(EndTxn(s, t), e) {
      assert LogExact(s, e);
    }
  }

  lemma StepKeepsExact(s: State, step: Step)
    requires Inv(s) && Exact(s) && Enabled(s, step)
    ensures Exact(Apply(s, step))
  {
    match step {
      case Insert(e, name) => InsertExact(s, e, name);
      case Begin(t, drainer) => BeginExact(s, t, drainer);
      case Commit(t) => CommitExact(s, t);
      case Crash(t) => CrashExact(s, t);
      case _ =>
        assert TxnExact(s.rows, s.txns[step.txn]) && TxnOk(s, s.txns[step.txn]);
        RowStepExact(s, step);
        OneTxnExact(s, step.txn, Apply(s, step).txns[step.txn]);
    }
    hide Exact, Inv, Enabled, Commits, EndTxn;
  }

  lemma RowStepExact(s: State, step: Step)
    requires Inv(s) && Exact(s) && Enabled(s, step)
    requires !step.Insert? && !step.Begin? && !step.Commit? && !step.Crash?
    requires TxnExact(s.rows, s.txns[step.txn]) && TxnOk(s, s.txns[step.txn])
    ensures step.txn in Apply(s, step).txns && TxnExact(s.rows, Apply(s, step).txns[step.txn])
  {
    hide TxnExact, TxnOk, Inv, Exact;
    match step
    case SelectRows(t, batch) => SelectExact(s, t, batch);
    case Take(t, todo) => TakeExact(s, t, todo);
    case Execute(t) => ExecuteExact(s, t);
    case Mark(t) => MarkExact(s, t);
    case SqlError(t) => ErrorExact(s, t, step);
    case JsError(t) => ErrorExact(s, t, step);
  }

  lemma {:induction false} RunKeepsExact(s: State, steps: seq<Step>)
    requires Inv(s) && Exact(s) && ValidRun(s, steps)
    ensures Exact(After(s, steps)) && Inv(After(s, steps))
    decreases |steps|
  {
    hide Inv, Exact, Enabled, Apply;
    if steps == [] {
    } else {
      StepKeepsInv(s, steps[0]);
      StepKeepsExact(s, steps[0]);
      RunKeepsExact(Apply(s, steps[0]), steps[1..]);
    }
  }

  // ---------------------------------------------------------------------
  // Results
  // ---------------------------------------------------------------------

  /** What is owed to an event by the drainer that took it. */
  ghost predicate OwedBy(drainer: Drainer, event: nat, name: string, effects: seq<Effect>) {
    match drainer
    case Realtime => forall i :: 0 <= i < |effects| ==> effects[i] == Effect(event, "core.processed_events")
    case DispatchWorker => H.Owed(Dispatch, event, name, true, effects)
    case LoyaltyWorker => exists found :: H.Owed(Loyalty, event, name, found, effects)
  }

  lemma HandlerOwes(drainer: Drainer, event: nat, name: string, effects: seq<Effect>)
    requires Handler(drainer, event, name, effects) && Asks(drainer, name)
    ensures OwedBy(drainer, event, name, effects)
  {
    var row := Row(event, name, false);
    if drainer.DispatchWorker? {
      H.DispatchOwes(row, _ => Facts(false, true, None));
    } else if drainer.LoyaltyWorker? {
      var found :| effects == WritesOf(event, LoyaltyStatements(row, Facts(false, found, None)));
      H.LoyaltyOwes(row, _ => Facts(false, found, None));
    }
  }

  /** However drainers of all three kinds interleave and crash: the database holds nothing for an event that is not
      marked, and for a marked one exactly what is owed to it by the drainer that marked it, each write once and in
      order. */
  lemma EventsAreHandledExactly(steps: seq<Step>, e: nat)
    requires ValidRun(Initial(), steps) && e in After(Initial(), steps).rows
    ensures var s := After(Initial(), steps); var effects := H.Of(Effects(s.log), e);
      && (!s.rows[e].dispatched ==> effects == [])
      && (s.rows[e].dispatched ==>
            && e in s.markers && s.markers[e] in s.drainerOf
            && OwedBy(s.drainerOf[s.markers[e]], e, s.rows[e].name, effects))
  {
    var s := After(Initial(), steps);
    RunKeepsExact(Initial(), steps);
    assert LogExact(s, e);
    hide Handler, Asks, OwedBy, Effects;
    if e in s.markers {
      HandlerOwes(s.drainerOf[s.markers[e]], e, s.rows[e].name, H.Of(Effects(s.log), e));
    }
  }

  /** One cancelled event: in no run does the database ever hold both the recall of its task and the reversal of its
      points. (An order that two overlapping sweeps cancelled has two such events.) */
  lemma RecallAndReversalExclude(steps: seq<Step>, event: nat)
    requires ValidRun(Initial(), steps)
    ensures var effects := Effects(After(Initial(), steps).log);
      !(Effect(event, "delivery.recall_task") in effects && Effect(event, "loyalty.reverse_points") in effects)
  {
    var s := After(Initial(), steps);
    RunKeepsExact(Initial(), steps);
    assert LogExact(s, event);
    H.OfHas(Effects(s.log), event, "delivery.recall_task");
    H.OfHas(Effects(s.log), event, "loyalty.reverse_points");
    if event in s.markers {
      var drainer := s.drainerOf[s.markers[event]];
      HandlerOwes(drainer, event, s.rows[event].name, H.Of(Effects(s.log), event));
      NotBoth(drainer, event, s.rows[event].name, H.Of(Effects(s.log), event));
    }
  }

  lemma NotBoth(drainer: Drainer, event: nat, name: string, effects: seq<Effect>)
    requires OwedBy(drainer, event, name, effects)
    ensures !(H.Has(effects, event, "delivery.recall_task") && H.Has(effects, event, "loyalty.reverse_points"))
  {
    match drainer
    case Realtime => assert |"core.processed_events"| == 21 && |"delivery.recall_task"| == 20;
    case DispatchWorker => H.OwedNotBoth(Dispatch, event, name, true, effects);
    case LoyaltyWorker =>
      var found :| H.Owed(Loyalty, event, name, found, effects);
      H.OwedNotBoth(Loyalty, event, name, found, effects);
  }
}
