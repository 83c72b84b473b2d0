/** Drivers are kept apart as long as nobody signs in while a send or flush is running:
    every stored row, every action a flush or send works on and every request that left belongs to the driver
    whose database, snapshot or token it is in. A token may be cleared at any time, also by a 401. */
module QueueIsolation {
  import opened Prelude
  import opened MediaSubstitution
  import opened ActionQueue
  import opened QueueProtocol
  import opened QueueSafety

  /** The driver of this database submitted the action, and it entered the store there. */
  predicate Owned(f: Facts, key: string, a: QueuedAction) {
    Author(Content(a), Some(key)) in f.authored && Entry(key, Item(a)) in f.entered
  }

  ghost predicate IsoOp(f: Facts, token: Option<string>, op: Op) {
    && (token.Some? ==> op.owner == token)
    && op.key == Key(op.owner)
    && (op.phase.Landing? ==> op.phase.to == op.key || op.phase.to == ANONYMOUS)
    && (op.kind.Live? ==> forall i :: 0 <= i < |op.queue| ==> Author(Content(op.queue[i]), op.owner) in f.authored)
    && (op.kind.Replay? && op.key != ANONYMOUS ==> forall i :: 0 <= i < |op.queue| ==> Owned(f, op.key, op.queue[i]))
  }

  ghost predicate IsoDbs(dbs: Databases, f: Facts) {
    forall key, id :: StoredIn(dbs, key, id) && key != ANONYMOUS ==> Owned(f, key, dbs[key][id])
  }

  /** Every request went out under the token of the driver who submitted its action. */
  predicate IsoContacts(f: Facts) {
    forall i :: 0 <= i < |f.contacts| && Key(Some(f.contacts[i].bearer)) != ANONYMOUS ==>
      Author(f.contacts[i].content, Some(f.contacts[i].bearer)) in f.authored
  }

  /** Flushes deliver from the database an action entered. */
  predicate IsoLog(f: Facts) {
    forall i :: 0 <= i < |f.applied| && f.applied[i].kind.Replay? && f.applied[i].key != ANONYMOUS ==>
      Entry(f.applied[i].key, f.applied[i].item) in f.entered
  }

  ghost predicate IsoFacts(f: Facts) {
    IsoContacts(f) && IsoLog(f)
  }

  ghost predicate IsoInv(s: State) {
    s.quiet ==> (forall o :: o in s.ops ==> IsoOp(s.f, s.token, s.ops[o])) && IsoDbs(s.dbs, s.f) && IsoFacts(s.f)
  }

  lemma IsoGrows(f: Facts, g: Facts, token: Option<string>, later: Option<string>, op: Op)
    requires Grows(f, g) && IsoOp(f, token, op) && (later == token || later.None?)
    ensures IsoOp(g, later, op)
  {
  }

  lemma IsoLogGrows(f: Facts, g: Facts)
    requires Grows(f, g) && g.applied == f.applied && IsoLog(f)
    ensures IsoLog(g)
  {
  }

  lemma IsoContactsGrow(f: Facts, g: Facts)
    requires Grows(f, g) && g.contacts == f.contacts && IsoContacts(f)
    ensures IsoContacts(g)
  {
  }

  /** Who contacts the server is who submitted the action. */
  lemma SenderIsOwner(f: Facts, token: Option<string>, op: Op)
    requires IsoOp(f, token, op) && Engaged(op) && token.Some? && Key(token) != ANONYMOUS
    ensures Author(Content(Current(op)), token) in f.authored
  {
    if op.kind.Replay? {
      assert Owned(f, op.key, op.queue[op.index]);
    }
  }

  lemma IsoTouches(f: Facts, token: Option<string>, op: Op)
    requires IsoOp(f, token, op) && Engaged(op) && token.Some? && IsoFacts(f)
    ensures IsoFacts(Touch(f, Current(op), token))
  {
    var g := Touch(f, Current(op), token);
    if Key(token) != ANONYMOUS {
      SenderIsOwner(f, token, op);
    }
    forall i | 0 <= i < |g.contacts| && Key(Some(g.contacts[i].bearer)) != ANONYMOUS
      ensures Author(g.contacts[i].content, Some(g.contacts[i].bearer)) in g.authored
    {
      if i < |f.contacts| {
        assert g.contacts[i] == f.contacts[i];
      }
    }
  }

  lemma IsoDecides(f: Facts, token: Option<string>, op: Op, verdict: Verdict)
    requires IsoOp(f, token, op) && Engaged(op) && IsoFacts(f)
    ensures IsoFacts(Decides(op, f, verdict))
  {
    var g := Decides(op, f, verdict);
    assert op.kind.Replay? && op.key != ANONYMOUS ==> Owned(f, op.key, op.queue[op.index]);
  }

  /** What an outcome keeps of an operation's place: its owner, and a landing in its own database or the fallback. */
  predicate SamePlace(op: Op, next: Op, token: Option<string>, cleared: bool) {
    && next.kind == op.kind && next.owner == op.owner && next.key == op.key
    && (next.phase.Landing? ==> next.phase == op.phase || next.phase.to == Key(if cleared then None else token))
  }

  lemma OutcomePlace(s: State, step: Step)
    requires Acts(step) && Enabled(s, step)
    ensures var out, op := OutcomeOf(s, step), s.ops[step.op];
      && (out.next.Some? ==> SamePlace(op, out.next.value, s.token, out.cleared))
      && (out.next.Some? && op.kind.Replay? && !step.ReadStore? ==> out.next.value.queue == op.queue)
  {
  }

  /** Only a contact adds to the requests, only a decision to the log. */
  lemma OutcomeLogs(s: State, step: Step)
    requires Acts(step) && Enabled(s, step)
    ensures (!step.ServerDecides? ==> OutcomeOf(s, step).f.applied == s.f.applied)
    ensures (!step.UploadStarts? && !step.SendStarts? ==> OutcomeOf(s, step).f.contacts == s.f.contacts)
  {
  }

  /** A live send's action stays authored, also with its photo's id in the body. */
  lemma LiveAuthored(s: State, step: Step)
    requires Inv(s) && Acts(step) && Enabled(s, step) && s.ops[step.op].kind.Live?
    requires IsoOp(s.f, s.token, s.ops[step.op]) && OutcomeOf(s, step).next.Some?
    ensures var out := OutcomeOf(s, step);
      forall i :: 0 <= i < |out.next.value.queue| ==>
        Author(Content(out.next.value.queue[i]), out.next.value.owner) in out.f.authored
  {
    OutcomeKeeps(s, step);
    assert OpOk(s.f, s.ops[step.op]);
  }

  lemma SnapshotOwned(s: State, op: Op, snapshot: seq<QueuedAction>)
    requires IsoDbs(s.dbs, s.f) && IsReplayOrder(snapshot, Db(s.dbs, op.key)) && op.key != ANONYMOUS
    ensures forall i :: 0 <= i < |snapshot| ==> Owned(s.f, op.key, snapshot[i])
  {
    forall i | 0 <= i < |snapshot| ensures Owned(s.f, op.key, snapshot[i]) {
      assert StoredIn(s.dbs, op.key, snapshot[i].id);
    }
  }

  lemma IsoOutcome(s: State, step: Step)
    requires Inv(s) && Acts(step) && Enabled(s, step) && IsoDbs(s.dbs, s.f) && IsoOp(s.f, s.token, s.ops[step.op])
    requires OutcomeOf(s, step).next.Some?
    ensures var out := OutcomeOf(s, step); IsoOp(out.f, if out.cleared then None else s.token, out.next.value)
  {
    var op, out := s.ops[step.op], OutcomeOf(s, step);
    OutcomeKeeps(s, step);
    OutcomePlace(s, step);
    if op.kind.Live? {
      LiveAuthored(s, step);
    } else if op.key != ANONYMOUS {
      if step.ReadStore? {
        SnapshotOwned(s, op, step.snapshot);
      } else {
        IsoGrows(s.f, out.f, s.token, s.token, op);
      }
    }
  }

  lemma IsoOutcomeFacts(s: State, step: Step)
    requires Inv(s) && Acts(step) && Enabled(s, step) && IsoFacts(s.f) && IsoOp(s.f, s.token, s.ops[step.op])
    ensures IsoFacts(OutcomeOf(s, step).f)
  {
    var op, out := s.ops[step.op], OutcomeOf(s, step);
    OutcomeKeeps(s, step);
    OutcomeLogs(s, step);
    if step.UploadStarts? || step.SendStarts? {
      IsoTouches(s.f, s.token, op);
    } else if step.ServerDecides? {
      IsoDecides(s.f, s.token, op, step.verdict);
    } else {
      IsoLogGrows(s.f, out.f);
      IsoContactsGrow(s.f, out.f);
    }
  }

  lemma IsoDbsGrow(dbs: Databases, f: Facts, g: Facts)
    requires Grows(f, g) && IsoDbs(dbs, f)
    ensures IsoDbs(dbs, g)
  {
  }

  lemma IsoAct(s: State, step: Step)
    requires Inv(s) && Acts(step) && Enabled(s, step) && s.quiet && IsoInv(s)
    ensures IsoInv(Act(s, step.op, OutcomeOf(s, step)))
  {
    var out := OutcomeOf(s, step);
    var t := Act(s, step.op, out);
    OutcomeKeeps(s, step);
    IsoOutcomeFacts(s, step);
    IsoDbsGrow(s.dbs, s.f, t.f);
    if out.next.Some? {
      IsoOutcome(s, step);
    }
    hide OutcomeOf, IsoFacts, IsoDbs, IsoOp;
    forall p | p in t.ops ensures IsoOp(t.f, t.token, t.ops[p]) {
      if p != step.op {
        IsoGrows(s.f, t.f, s.token, t.token, s.ops[p]);
      }
    }
  }

  lemma IsoDelete(dbs: Databases, f: Facts, key: string, id: string)
    requires IsoDbs(dbs, f)
    ensures IsoDbs(Delete(dbs, key, id), f)
  {
    var less := Delete(dbs, key, id);
    forall k, x | StoredIn(less, k, x) && k != ANONYMOUS ensures Owned(f, k, less[k][x]) {
      assert StoredIn(dbs, k, x);
    }
  }

  lemma IsoPut(dbs: Databases, f: Facts, key: string, row: QueuedAction)
    requires IsoDbs(dbs, f) && (key != ANONYMOUS ==> Owned(f, key, row))
    ensures IsoDbs(Put(dbs, key, row), f)
  {
    var more := Put(dbs, key, row);
    forall k, x | StoredIn(more, k, x) && k != ANONYMOUS ensures Owned(f, k, more[k][x]) {
      if k != key || x != row.id {
        assert StoredIn(dbs, k, x);
      }
    }
  }

  /** A row lands where its action is owned. */
  lemma LandingIsOwned(s: State, o: nat)
    requires Inv(s) && Enabled(s, Lands(o)) && IsoOp(s.f, s.token, s.ops[o]) && s.ops[o].phase.row.Some?
    requires s.ops[o].phase.to != ANONYMOUS
    ensures Owned(Land(s, o).f, s.ops[o].phase.to, s.ops[o].phase.row.value)
  {
    var op := s.ops[o];
    assert OpOk(s.f, op);
    if op.kind.Replay? {
      assert Owned(s.f, op.key, op.queue[op.index]);
    }
  }

  lemma LandGrows(s: State, o: nat)
    requires Enabled(s, Lands(o))
    ensures Grows(s.f, Land(s, o).f)
  {
    hide Victim;
    var f, g := s.f, Land(s, o).f;
    assert g.failures == f.failures && f.superseded <= g.superseded && f.mistaken <= g.mistaken;
  }

  lemma LandKeeps(s: State, o: nat)
    requires Enabled(s, Lands(o))
    ensures Land(s, o).f.applied == s.f.applied && Land(s, o).f.contacts == s.f.contacts
    ensures Land(s, o).token == s.token && Land(s, o).quiet == s.quiet
  {
  }

  /** A flush going on to its next action. */
  predicate MovedOn(was: Op, now: Op) {
    was.phase.Landing? && now == was.(index := was.index + 1, phase := Ready)
  }

  lemma LandOps(s: State, o: nat)
    requires Enabled(s, Lands(o))
    ensures var t := Land(s, o);
      forall p :: p in t.ops ==> p in s.ops && (t.ops[p] == s.ops[p] || MovedOn(s.ops[p], t.ops[p]))
  {
  }

  lemma IsoLand(s: State, o: nat)
    requires Inv(s) && Enabled(s, Lands(o)) && s.quiet && IsoInv(s)
    ensures IsoInv(Land(s, o))
  {
    var op, t := s.ops[o], Land(s, o);
    LandGrows(s, o);
    LandKeeps(s, o);
    LandOps(s, o);
    IsoLogGrows(s.f, t.f);
    IsoContactsGrow(s.f, t.f);
    IsoDbsGrow(s.dbs, s.f, t.f);
    assert IsoOp(s.f, s.token, op);
    if op.phase.row.None? {
      IsoDelete(s.dbs, t.f, op.phase.to, Item(Current(op)).id);
    } else {
      if op.phase.to != ANONYMOUS {
        LandingIsOwned(s, o);
      }
      IsoPut(s.dbs, t.f, op.phase.to, op.phase.row.value);
    }
    forall p | p in t.ops ensures IsoOp(t.f, t.token, t.ops[p]) {
      IsoGrows(s.f, t.f, s.token, t.token, s.ops[p]);
    }
  }

  lemma IsoBegins(s: State, t: State, o: nat)
    requires IsoInv(s) && s.quiet && t.dbs == s.dbs && t.token == s.token && Grows(s.f, t.f)
    requires t.f.applied == s.f.applied && t.f.contacts == s.f.contacts
    requires t.ops.Keys == s.ops.Keys + {o} && (forall p :: p in s.ops && p != o ==> t.ops[p] == s.ops[p])
    requires IsoOp(t.f, t.token, t.ops[o])
    ensures IsoInv(t)
  {
    IsoDbsGrow(s.dbs, s.f, t.f);
    IsoLogGrows(s.f, t.f);
    IsoContactsGrow(s.f, t.f);
    forall p | p in t.ops ensures IsoOp(t.f, t.token, t.ops[p]) {
      if p != o {
        IsoGrows(s.f, t.f, s.token, t.token, s.ops[p]);
      }
    }
  }

  lemma IsoSignsOut(s: State, t: State)
    requires IsoInv(s) && s.quiet && t.ops == s.ops && t.dbs == s.dbs && t.f == s.f && t.token.None?
    ensures IsoInv(t)
  {
    forall p | p in t.ops ensures IsoOp(t.f, t.token, t.ops[p]) {
      IsoGrows(s.f, t.f, s.token, t.token, s.ops[p]);
    }
  }

  lemma QuietBefore(s: State, step: Step)
    requires Enabled(s, step) && Apply(s, step).quiet
    ensures s.quiet
  {
  }

  lemma StepKeepsIso(s: State, step: Step)
    requires Inv(s) && Enabled(s, step) && IsoInv(s)
    ensures IsoInv(Apply(s, step))
  {
    if Apply(s, step).quiet {
      QuietBefore(s, step);
      match step {
        case SignIn(driver) => assert Signs(s, driver).ops == map[];
        case SignOut => IsoSignsOut(s, SignsOut(s));
        case StartSend(o, a) => IsoBegins(s, BeginsSend(s, o, a), o);
        case StartFlush(o) => IsoBegins(s, BeginsFlush(s, o), o);
        case Lands(o) => IsoLand(s, o);
        case _ => IsoAct(s, step);
      }
    }
  }
}
