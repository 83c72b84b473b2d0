/** The order in which a database's actions reach the server, across any number of flushes, sign-ins and
    sign-outs: in a flush's snapshot, whatever entered the database before an action is settled or stands in front of
    it, and in the server's log it was given up, displaced or applied before. */
module QueueOrder {
  import opened Prelude
  import opened ActionQueue
  import opened QueueProtocol
  import opened QueueSafety

  ghost predicate Earlier(queue: seq<QueuedAction>, j: nat, item: QueuedAction) {
    exists i :: 0 <= i < j && i < |queue| && Item(queue[i]) == item
  }

  /** `e` entered database `key` before `item` did, and the database in the order of its stamps. */
  predicate Precedes(f: Facts, key: string, e: Entry, item: QueuedAction) {
    && key !in f.late && e in f.entered && e.key == key && Entry(key, item) in f.entered
    && e.item.queuedAt < item.queuedAt
  }

  ghost predicate QueueOrdered(f: Facts, key: string, queue: seq<QueuedAction>) {
    forall j, e | 0 <= j < |queue| && Precedes(f, key, e, Item(queue[j])) :: Settled(f, e) || Earlier(queue, j, e.item)
  }

  ghost predicate AppliedBefore(f: Facts, j: nat, id: string) {
    exists i :: 0 <= i < j && i < |f.applied| && f.applied[i].item.id == id
  }

  /** An action is first applied after every one queued before it, except those given up or displaced by then. */
  ghost predicate EntryOrdered(f: Facts, j: nat)
    requires j < |f.applied|
  {
    var a := f.applied[j];
    forall e | Precedes(f, a.key, e, a.item) ::
      e.item in a.givenUp || e in a.displaced || AppliedBefore(f, j, e.item.id)
  }

  ghost predicate LogOrdered(f: Facts) {
    forall j | 0 <= j < |f.applied| && f.applied[j].kind.Replay? :: EntryOrdered(f, j) && IsItem(f, f.applied[j].item)
  }

  ghost predicate OpOrdered(f: Facts, op: Op) {
    op.kind.Replay? ==> QueueOrdered(f, op.key, op.queue)
  }

  ghost predicate OrderInv(s: State) {
    (forall o :: o in s.ops ==> OpOrdered(s.f, s.ops[o])) && LogOrdered(s.f)
  }

  lemma SettledGrows(f: Facts, g: Facts, e: Entry)
    requires Grows(f, g) && Settled(f, e)
    ensures Settled(g, e)
  {
  }

  lemma QueueGrows(f: Facts, g: Facts, key: string, queue: seq<QueuedAction>)
    requires Grows(f, g) && g.entered == f.entered && QueueOrdered(f, key, queue)
    ensures QueueOrdered(g, key, queue)
  {
    hide Settled;
    forall j, e | 0 <= j < |queue| && Precedes(g, key, e, Item(queue[j]))
      ensures Settled(g, e) || Earlier(queue, j, e.item)
    {
      assert Precedes(f, key, e, Item(queue[j]));
      if Settled(f, e) {
        SettledGrows(f, g, e);
      }
    }
  }

  lemma LogGrows(f: Facts, g: Facts)
    requires g.applied == f.applied && g.entered == f.entered && f.late <= g.late && LogOrdered(f)
    ensures LogOrdered(g)
  {
    forall j | 0 <= j < |g.applied| && g.applied[j].kind.Replay?
      ensures EntryOrdered(g, j) && IsItem(g, g.applied[j].item)
    {
      var a := f.applied[j];
      assert EntryOrdered(f, j) && IsItem(f, a.item);
      forall e | Precedes(g, a.key, e, a.item)
        ensures e.item in a.givenUp || e in a.displaced || AppliedBefore(g, j, e.item.id)
      {
        assert Precedes(f, a.key, e, a.item);
        if AppliedBefore(f, j, e.item.id) {
          var i :| 0 <= i < j && i < |f.applied| && f.applied[i].item.id == e.item.id;
          assert g.applied[i].item.id == e.item.id;
        }
      }
    }
  }

  /** A snapshot holds every unsettled action of its database. */
  lemma SnapshotOrdered(s: State, op: Op, snapshot: seq<QueuedAction>)
    requires Inv(s) && IsReplayOrder(snapshot, Db(s.dbs, op.key))
    ensures QueueOrdered(s.f, op.key, snapshot)
  {
    var rows := Db(s.dbs, op.key);
    forall j, e | 0 <= j < |snapshot| && Precedes(s.f, op.key, e, Item(snapshot[j]))
      ensures Settled(s.f, e) || Earlier(snapshot, j, e.item)
    {
      if !Settled(s.f, e) {
        assert Stored(s.dbs, e);
        assert Holds(snapshot, e.item.id);
        var i :| 0 <= i < |snapshot| && snapshot[i].id == e.item.id;
        BeforeAsymmetric(snapshot[i], snapshot[j]);
        assert i < j && Item(snapshot[i]) == e.item;
      }
    }
  }

  /** The flush's own current action: whatever entered its database before is settled. */
  lemma EldersSettled(f: Facts, op: Op, e: Entry)
    requires ReplayOk(f, op) && QueueOrdered(f, op.key, op.queue) && Engaged(op)
    requires Precedes(f, op.key, e, Item(Current(op)))
    ensures Settled(f, e)
  {
    hide Done;
    if Earlier(op.queue, op.index, e.item) {
      var i :| 0 <= i < op.index && i < |op.queue| && Item(op.queue[i]) == e.item;
      assert Done(f, Item(op.queue[i]));
    }
  }

  lemma OldEntry(f: Facts, g: Facts, a: Application, j: nat)
    requires g.applied == f.applied + [a] && g.entered == f.entered && g.late == f.late && j < |f.applied|
    requires EntryOrdered(f, j)
    ensures EntryOrdered(g, j)
  {
    var b := f.applied[j];
    forall e | Precedes(g, b.key, e, b.item)
      ensures e.item in b.givenUp || e in b.displaced || AppliedBefore(g, j, e.item.id)
    {
      assert Precedes(f, b.key, e, b.item);
      if AppliedBefore(f, j, e.item.id) {
        var i :| 0 <= i < j && i < |f.applied| && f.applied[i].item.id == e.item.id;
        assert g.applied[i].item.id == e.item.id;
      }
    }
  }

  lemma NewEntry(f: Facts, g: Facts, op: Op)
    requires ServerOk(f) && ReplayOk(f, op) && QueueOrdered(f, op.key, op.queue) && Engaged(op)
    requires g.entered == f.entered && g.late == f.late
    requires g.applied == f.applied + [Application(Item(Current(op)), Replay, op.key, GivenUp(f), Displaced(f))]
    ensures EntryOrdered(g, |f.applied|)
  {
    var j := |f.applied|;
    var a := g.applied[j];
    forall e | Precedes(g, a.key, e, a.item)
      ensures e.item in a.givenUp || e in a.displaced || AppliedBefore(g, j, e.item.id)
    {
      assert Precedes(f, op.key, e, Item(Current(op)));
      EldersSettled(f, op, e);
      if e.item in f.accepted {
        assert AppliedTo(f, e.item.id);
        var i :| 0 <= i < |f.applied| && f.applied[i].item.id == e.item.id;
        assert g.applied[i].item.id == e.item.id;
      }
    }
  }

  lemma DecidesOrdered(op: Op, f: Facts, verdict: Verdict)
    requires ServerOk(f) && OpOk(f, op) && OpOrdered(f, op) && Engaged(op) && LogOrdered(f)
    ensures LogOrdered(Decides(op, f, verdict))
  {
    var g := Decides(op, f, verdict);
    if g.applied == f.applied {
      LogGrows(f, g);
    } else {
      forall j | 0 <= j < |g.applied| && g.applied[j].kind.Replay?
        ensures EntryOrdered(g, j) && IsItem(g, g.applied[j].item)
      {
        if j < |f.applied| {
          assert EntryOrdered(f, j) && IsItem(f, f.applied[j].item);
          OldEntry(f, g, g.applied[|f.applied|], j);
          var e :| e in f.entered && e.item == f.applied[j].item;
          assert e in g.entered;
        } else {
          NewEntry(f, g, op);
          assert RowOk(f, Current(op));
          var e :| e in f.entered && e.item == Item(Current(op));
          assert e in g.entered;
        }
      }
    }
  }

  /** All outcomes but a new snapshot keep a flush's queue; only a decision adds to the log. */
  lemma OutcomeFrame(s: State, step: Step)
    requires Acts(step) && Enabled(s, step)
    ensures var out := OutcomeOf(s, step); var op := s.ops[step.op];
      && (out.next.Some? ==> out.next.value.kind == op.kind && out.next.value.key == op.key)
      && (out.next.Some? && op.kind.Replay? && !step.ReadStore? ==> out.next.value.queue == op.queue)
      && (!step.ServerDecides? ==> out.f.applied == s.f.applied)
  {
  }

  lemma ActOrdered(s: State, step: Step)
    requires Inv(s) && OrderInv(s) && Acts(step) && Enabled(s, step)
    ensures OrderInv(Act(s, step.op, OutcomeOf(s, step)))
  {
    var out := OutcomeOf(s, step);
    var op, t := s.ops[step.op], Act(s, step.op, out);
    OutcomeKeeps(s, step);
    OutcomeFrame(s, step);
    assert OpOk(s.f, op) && OpOrdered(s.f, op);
    if step.ReadStore? {
      SnapshotOrdered(s, op, step.snapshot);
      NewQueue(s.f, op, step.snapshot, step.online);
    }
    if step.ServerDecides? {
      DecidesOrdered(op, s.f, step.verdict);
    } else {
      LogGrows(s.f, t.f);
    }
    hide OutcomeOf, QueueOrdered, LogOrdered;
    forall p | p in t.ops ensures OpOrdered(t.f, t.ops[p]) {
      if t.ops[p].kind.Replay? && !(p == step.op && step.ReadStore?) {
        assert OpOrdered(s.f, s.ops[p]);
        QueueGrows(s.f, t.f, t.ops[p].key, t.ops[p].queue);
      }
    }
  }

  lemma NewQueue(f: Facts, op: Op, snapshot: seq<QueuedAction>, online: bool)
    requires QueueOrdered(f, op.key, snapshot)
    ensures var out := Opens(op, snapshot, online, f);
      out.f == f && (out.next.Some? ==> OpOrdered(f, out.next.value))
  {
  }

  /** A new entry is younger than all before it, or its database is late. */
  lemma EntersOrdered(f: Facts, g: Facts, key: string, row: QueuedAction)
    requires g.entered == f.entered + {Entry(key, Item(row))} && g.applied == f.applied
    requires g.late == f.late + if IsLate(f, key, row) then {key} else {}
    ensures forall k, e, item | IsItem(f, item) && Precedes(g, k, e, item) :: Precedes(f, k, e, item)
  {
    forall k, e, item | IsItem(f, item) && Precedes(g, k, e, item) ensures Precedes(f, k, e, item) {
      if k == key {
        assert !IsLate(f, key, row);
        var x :| x in f.entered && x.item == item;
        assert Entry(key, item) in f.entered;
      }
    }
  }

  lemma LogAfterEntry(f: Facts, g: Facts)
    requires LogOrdered(f) && g.applied == f.applied && f.entered <= g.entered
    requires forall k, e, item | IsItem(f, item) && Precedes(g, k, e, item) :: Precedes(f, k, e, item)
    ensures LogOrdered(g)
  {
    forall j | 0 <= j < |g.applied| && g.applied[j].kind.Replay?
      ensures EntryOrdered(g, j) && IsItem(g, g.applied[j].item)
    {
      var a := f.applied[j];
      assert EntryOrdered(f, j) && IsItem(f, a.item);
      var x :| x in f.entered && x.item == a.item;
      assert x in g.entered;
      forall e | Precedes(g, a.key, e, a.item)
        ensures e.item in a.givenUp || e in a.displaced || AppliedBefore(g, j, e.item.id)
      {
        assert Precedes(f, a.key, e, a.item);
        if AppliedBefore(f, j, e.item.id) {
          var i :| 0 <= i < j && i < |f.applied| && f.applied[i].item.id == e.item.id;
          assert g.applied[i].item.id == e.item.id;
        }
      }
    }
  }

  lemma QueueAfterEntry(f: Facts, g: Facts, op: Op)
    requires OpOk(f, op) && OpOrdered(f, op) && Grows(f, g)
    requires forall k, e, item | IsItem(f, item) && Precedes(g, k, e, item) :: Precedes(f, k, e, item)
    ensures OpOrdered(g, op)
  {
    if op.kind.Replay? {
      forall j, e | 0 <= j < |op.queue| && Precedes(g, op.key, e, Item(op.queue[j]))
        ensures Settled(g, e) || Earlier(op.queue, j, e.item)
      {
        assert RowOk(f, op.queue[j]);
        assert Precedes(f, op.key, e, Item(op.queue[j]));
        if Settled(f, e) {
          SettledGrows(f, g, e);
        }
      }
    }
  }

  /** A store changes, one operation moves on with its queue, and no item enters. */
  lemma StoreOrdered(s: State, t: State)
    requires OrderInv(s) && Grows(s.f, t.f) && t.f.entered == s.f.entered && t.f.applied == s.f.applied
    requires forall p :: p in t.ops ==>
      p in s.ops && t.ops[p].kind == s.ops[p].kind && t.ops[p].key == s.ops[p].key && t.ops[p].queue == s.ops[p].queue
    ensures OrderInv(t)
  {
    LogGrows(s.f, t.f);
    hide QueueOrdered, Grows, LogOrdered;
    forall p | p in t.ops ensures OpOrdered(t.f, t.ops[p]) {
      assert OpOrdered(s.f, s.ops[p]);
      if s.ops[p].kind.Replay? {
        QueueGrows(s.f, t.f, s.ops[p].key, s.ops[p].queue);
      }
    }
  }

  lemma EnterOrdered(s: State, o: nat, row: QueuedAction)
    requires Inv(s) && OrderInv(s) && o in s.ops && s.ops[o].phase.Landing?
    ensures OrderInv(Enters(s, o, row))
  {
    var t := Enters(s, o, row);
    EntersOrdered(s.f, t.f, s.ops[o].phase.to, row);
    LogAfterEntry(s.f, t.f);
    forall p | p in t.ops ensures OpOrdered(t.f, t.ops[p]) {
      QueueAfterEntry(s.f, t.f, s.ops[p]);
    }
  }

  lemma LandOrdered(s: State, o: nat)
    requires Inv(s) && OrderInv(s) && Enabled(s, Lands(o))
    ensures OrderInv(Land(s, o))
  {
    hide OrderInv, Inv;
    var op := s.ops[o];
    if op.phase.row.None? {
      StoreOrdered(s, Removes(s, o));
    } else if op.kind.Replay? {
      StoreOrdered(s, PutsBack(s, o, op.phase.row.value));
    } else {
      EnterOrdered(s, o, op.phase.row.value);
    }
  }

  lemma BeginsOrdered(s: State, t: State, o: nat)
    requires OrderInv(s) && t.ops.Keys == s.ops.Keys + {o} && forall p :: p in s.ops && p != o ==> t.ops[p] == s.ops[p]
    requires t.ops[o].kind.Replay? ==> t.ops[o].queue == []
    requires Grows(s.f, t.f) && t.f.entered == s.f.entered && t.f.applied == s.f.applied
    ensures OrderInv(t)
  {
    LogGrows(s.f, t.f);
    forall p | p in t.ops ensures OpOrdered(t.f, t.ops[p]) {
      if p != o && s.ops[p].kind.Replay? {
        QueueGrows(s.f, t.f, s.ops[p].key, s.ops[p].queue);
      }
    }
  }

  lemma StepKeepsOrder(s: State, step: Step)
    requires Inv(s) && OrderInv(s) && Enabled(s, step)
    ensures OrderInv(Apply(s, step))
  {
    match step {
      case SignIn(driver) =>
      case SignOut =>
      case StartSend(o, a) => BeginsOrdered(s, BeginsSend(s, o, a), o);
      case StartFlush(o) => BeginsOrdered(s, BeginsFlush(s, o), o);
      case Lands(o) => LandOrdered(s, o);
      case _ => ActOrdered(s, step);
    }
  }
}
