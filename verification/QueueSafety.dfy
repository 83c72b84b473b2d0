/** What every run of the interleaved queue keeps: nothing is lost and nothing is charged twice. Each submission that
    was put in a database is still there or settled, each copy of it in a snapshot or on its way to a store is charged
    no more often than it really failed, and the server's log tells what it accepted. */
module QueueSafety {
  import opened Prelude
  import opened MediaSubstitution
  import opened ActionQueue
  import opened QueueProtocol

  // ---------------------------------------------------------------------
  // The invariant
  // ---------------------------------------------------------------------

  /** A live send put this item in some database. */
  ghost predicate IsItem(f: Facts, item: QueuedAction) {
    exists e | e in f.entered :: e.item == item
  }

  /** A copy of a queued action, wherever it is held. */
  ghost predicate RowOk(f: Facts, a: QueuedAction) {
    IsItem(f, Item(a)) && a.attempts <= FailuresOf(f, Item(a)) && a.attempts < MAX_ATTEMPTS
  }

  predicate StoredIn(dbs: Databases, key: string, id: string) {
    key in dbs && id in dbs[key]
  }

  ghost predicate DbsOk(dbs: Databases, f: Facts) {
    forall key, id :: StoredIn(dbs, key, id) ==> dbs[key][id].id == id && RowOk(f, dbs[key][id])
  }

  ghost predicate NothingLost(dbs: Databases, f: Facts) {
    forall e :: e in f.entered ==> Settled(f, e) || Stored(dbs, e)
  }

  /** Where an operation stands with its current action. */
  ghost predicate PhaseOk(f: Facts, a: QueuedAction, phase: Phase) {
    match phase
    case Opening => false
    case InFlight(Some(Accept)) => Item(a) in f.accepted
    case InFlight(Some(Reject)) => Item(a) in f.rejected
    case Landing(_, None) => Done(f, Item(a))
    case Landing(_, Some(row)) => Item(row) == Item(a) && RowOk(f, row)
    case _ => true
  }

  /** A flush: its snapshot is queued actions, and it is done with everything before `index`. */
  ghost predicate ReplayOk(f: Facts, op: Op) {
    if op.phase.Opening? then op.queue == []
    else
      && op.index < |op.queue|
      && (forall i :: 0 <= i < |op.queue| ==> RowOk(f, op.queue[i]))
      && (forall i :: 0 <= i < op.index ==> Done(f, Item(op.queue[i])))
      && PhaseOk(f, op.queue[op.index], op.phase)
  }

  /** A live send: one action, not charged. */
  predicate LiveOk(f: Facts, op: Op) {
    && |op.queue| == 1 && op.index == 0 && op.queue[0].attempts == 0
    && match op.phase
       case Opening => false
       case Uploaded => false
       case Uploading => op.queue[0].blob.Some?
       case InFlight(Some(Accept)) => Item(op.queue[0]) in f.accepted
       case InFlight(Some(Reject)) => Item(op.queue[0]) in f.rejected
       case Landing(_, row) => row.Some? && row.value.attempts == 0 && Content(row.value) == Content(op.queue[0])
       case _ => true
  }

  ghost predicate OpOk(f: Facts, op: Op) {
    if op.kind.Live? then LiveOk(f, op) else ReplayOk(f, op)
  }

  ghost predicate AppliedTo(f: Facts, id: string) {
    exists i :: 0 <= i < |f.applied| && f.applied[i].item.id == id
  }

  ghost predicate ServerOk(f: Facts) {
    && (forall i :: 0 <= i < |f.applied| ==> f.applied[i].item.id in f.seen)
    && (forall id :: id in f.seen ==> AppliedTo(f, id))
    && (forall x :: x in f.accepted ==> x.id in f.seen)
  }

  /** Another item of the same id was put in some database, too. */
  ghost predicate HasTwin(f: Facts, item: QueuedAction) {
    exists e | e in f.entered :: e.item.id == item.id && e.item != item
  }

  ghost predicate ReasonsOk(f: Facts) {
    && (forall x :: x in f.overBudget ==> FailuresOf(f, x) >= MAX_ATTEMPTS)
    && f.refused <= f.rejected
    && (forall e :: e in Displaced(f) ==> IsItem(f, e.item) && HasTwin(f, e.item))
  }

  ghost predicate CoverOk(s: State) {
    s.covered ==> s.f.signedOut == {} && (Flushing(s) ==> s.token.Some?)
  }

  ghost predicate FactsOk(f: Facts) {
    ServerOk(f) && ReasonsOk(f)
  }

  ghost predicate OpsOk(s: State) {
    forall o :: o in s.ops ==> OpOk(s.f, s.ops[o])
  }

  ghost predicate Inv(s: State) {
    DbsOk(s.dbs, s.f) && NothingLost(s.dbs, s.f) && OpsOk(s) && FactsOk(s.f) && CoverOk(s)
  }

  lemma InvInitially(token: Option<string>)
    ensures Inv(Initial(token))
  {
  }

  // ---------------------------------------------------------------------
  // Facts only grow
  // ---------------------------------------------------------------------

  ghost predicate Grows(f: Facts, g: Facts) {
    && f.seen <= g.seen && f.accepted <= g.accepted && f.rejected <= g.rejected
    && f.refused <= g.refused && f.errored <= g.errored && f.overBudget <= g.overBudget && f.signedOut <= g.signedOut
    && f.superseded <= g.superseded && f.mistaken <= g.mistaken && f.entered <= g.entered && f.late <= g.late
    && f.authored <= g.authored && f.applied <= g.applied
    && forall x :: FailuresOf(f, x) <= FailuresOf(g, x)
  }

  lemma GrowsRow(f: Facts, g: Facts, a: QueuedAction)
    requires Grows(f, g) && RowOk(f, a)
    ensures RowOk(g, a)
  {
    var e :| e in f.entered && e.item == Item(a);
    assert e in g.entered;
  }

  lemma GrowsDone(f: Facts, g: Facts, item: QueuedAction)
    requires Grows(f, g) && Done(f, item)
    ensures Done(g, item)
  {
  }

  lemma GrowsOp(f: Facts, g: Facts, op: Op)
    requires Grows(f, g) && OpOk(f, op)
    ensures OpOk(g, op)
  {
    hide Done, RowOk, Item;
    if op.kind.Replay? && !op.phase.Opening? {
      forall i | 0 <= i < |op.queue| ensures RowOk(g, op.queue[i]) {
        GrowsRow(f, g, op.queue[i]);
      }
      forall i | 0 <= i < op.index ensures Done(g, Item(op.queue[i])) {
        GrowsDone(f, g, Item(op.queue[i]));
      }
      GrowsPhase(f, g, op.queue[op.index], op.phase);
    }
  }

  lemma GrowsPhase(f: Facts, g: Facts, a: QueuedAction, phase: Phase)
    requires Grows(f, g) && PhaseOk(f, a, phase)
    ensures PhaseOk(g, a, phase)
  {
    if phase.Landing? && phase.row.Some? {
      GrowsRow(f, g, phase.row.value);
    }
  }

  lemma GrowsDbs(dbs: Databases, f: Facts, g: Facts)
    requires Grows(f, g) && DbsOk(dbs, f)
    ensures DbsOk(dbs, g)
  {
    forall key, id | StoredIn(dbs, key, id) ensures RowOk(g, dbs[key][id]) {
      GrowsRow(f, g, dbs[key][id]);
    }
  }

  lemma GrowsLost(dbs: Databases, f: Facts, g: Facts)
    requires Grows(f, g) && g.entered == f.entered && NothingLost(dbs, f)
    ensures NothingLost(dbs, g)
  {
  }

  // ---------------------------------------------------------------------
  // What a step makes of an operation
  // ---------------------------------------------------------------------

  /** An outcome keeps everything that does not depend on the stores. */
  ghost predicate Keeps(f: Facts, out: Outcome) {
    && Grows(f, out.f) && FactsOk(out.f) && out.f.entered == f.entered && out.f.late == f.late
    && out.f.superseded == f.superseded && out.f.mistaken == f.mistaken
    && (out.next.Some? ==> OpOk(out.f, out.next.value))
  }

  lemma NewPhase(op: Op, phase: Phase, f: Facts)
    requires op.kind.Replay? && ReplayOk(f, op) && Engaged(op) && PhaseOk(f, Current(op), phase)
    ensures ReplayOk(f, op.(phase := phase))
  {
  }

  /** Facts that grow in one set only. */
  lemma KeepsConcludes(op: Op, token: Option<string>, f: Facts, g: Facts)
    requires OpOk(f, op) && Engaged(op) && Grows(f, g) && FactsOk(g)
    requires g.entered == f.entered && g.late == f.late && g.superseded == f.superseded && g.mistaken == f.mistaken
    requires op.kind.Replay? ==> Done(g, Item(Current(op)))
    ensures Keeps(f, Concludes(op, token, g))
  {
    GrowsOp(f, g, op);
    if op.kind.Replay? {
      NewPhase(op, Landing(Key(token), None), g);
    }
  }

  lemma ChargeFacts(f: Facts, item: QueuedAction)
    requires FactsOk(f)
    ensures var g := Charge(f, item);
      && Grows(f, g) && FactsOk(g)
      && FailuresOf(g, item) == FailuresOf(f, item) + 1
  {
    var g := Charge(f, item);
    assert g.applied == f.applied && g.entered == f.entered;
    forall id | id in g.seen ensures AppliedTo(g, id) {
      assert AppliedTo(f, id);
    }
    forall e | e in Displaced(g) ensures IsItem(g, e.item) && HasTwin(g, e.item) {
      assert e in Displaced(f);
    }
  }

  /** The same server log, databases entered and rows displaced; other sets may differ. */
  lemma SameServer(f: Facts, g: Facts)
    requires FactsOk(f) && g.seen == f.seen && g.applied == f.applied && g.accepted == f.accepted
    requires g.rejected == f.rejected && g.refused <= g.rejected && g.entered == f.entered
    requires g.superseded == f.superseded && g.mistaken == f.mistaken
    requires forall x :: x in g.overBudget ==> FailuresOf(g, x) >= MAX_ATTEMPTS
    ensures FactsOk(g)
  {
    forall id | id in g.seen ensures AppliedTo(g, id) {
      assert AppliedTo(f, id);
      var i :| 0 <= i < |f.applied| && f.applied[i].item.id == id;
      assert g.applied[i].item.id == id;
    }
    forall e | e in Displaced(g) ensures IsItem(g, e.item) && HasTwin(g, e.item) {
      assert e in Displaced(f);
      assert IsItem(f, e.item) && HasTwin(f, e.item);
      var x :| x in f.entered && x.item == e.item;
      assert x in g.entered;
      var y :| y in f.entered && y.item.id == e.item.id && y.item != e.item;
      assert y in g.entered;
    }
  }

  lemma KeepsFails(op: Op, token: Option<string>, f: Facts, now: int)
    requires FactsOk(f) && OpOk(f, op) && Engaged(op)
    ensures Keeps(f, Fails(op, token, f, now)) && !Fails(op, token, f, now).cleared
  {
    var a := Current(op);
    if op.kind.Replay? {
      var g := Charge(f, Item(a));
      ChargeFacts(f, Item(a));
      GrowsOp(f, g, op);
      if a.attempts + 1 >= MAX_ATTEMPTS {
        var h := g.(overBudget := g.overBudget + {Item(a)});
        SameServer(g, h);
        KeepsConcludes(op, token, f, h);
      } else {
        ChargedRow(f, g, a);
        NewPhase(op, Landing(Key(token), Some(Charged(a))), g);
      }
    }
  }

  lemma ChargedRow(f: Facts, g: Facts, a: QueuedAction)
    requires RowOk(f, a) && Grows(f, g) && FailuresOf(g, Item(a)) == FailuresOf(f, Item(a)) + 1
    requires a.attempts + 1 < MAX_ATTEMPTS
    ensures RowOk(g, Charged(a)) && Item(Charged(a)) == Item(a)
  {
    GrowsRow(f, g, a);
  }

  lemma KeepsErrs(op: Op, token: Option<string>, f: Facts)
    requires FactsOk(f) && OpOk(f, op) && Engaged(op)
    ensures Keeps(f, Errs(op, token, f))
  {
    var g := if op.kind.Live? then f else f.(errored := f.errored + {Item(Current(op))});
    SameServer(f, g);
    KeepsConcludes(op, token, f, g);
  }

  lemma KeepsRefused(op: Op, token: Option<string>, f: Facts)
    requires FactsOk(f) && OpOk(f, op) && Engaged(op) && Item(Current(op)) in f.rejected
    ensures Keeps(f, Refused(op, token, f))
  {
    var g := if op.kind.Live? then f else f.(refused := f.refused + {Item(Current(op))});
    SameServer(f, g);
    KeepsConcludes(op, token, f, g);
  }

  lemma KeepsDrops(op: Op, token: Option<string>, f: Facts)
    requires FactsOk(f) && OpOk(f, op) && Engaged(op)
    ensures Keeps(f, Drops(op, token, f))
  {
    var g := if op.kind.Live? then f else f.(signedOut := f.signedOut + {Item(Current(op))});
    SameServer(f, g);
    KeepsConcludes(op, token, f, g);
  }

  lemma KeepsTouch(op: Op, f: Facts, token: Option<string>, phase: Phase)
    requires FactsOk(f) && OpOk(f, op) && Engaged(op) && token.Some?
    requires (phase.Uploading? && WantsUpload(op)) || phase == InFlight(None)
    ensures Keeps(f, To(op, phase, Touch(f, Current(op), token)))
  {
    var g := Touch(f, Current(op), token);
    SameServer(f, g);
    GrowsOp(f, g, op);
  }

  lemma KeepsPhotoUp(op: Op, media: string, f: Facts)
    requires FactsOk(f) && OpOk(f, op) && Engaged(op) && op.phase.Uploading?
    ensures Keeps(f, PhotoUp(op, media, f))
  {
    if op.kind.Live? {
      var g := f.(authored := f.authored + {Author(Content(Resolved(Current(op), media)), op.owner)});
      SameServer(f, g);
    }
  }

  lemma KeepsUploadSettles(op: Op, token: Option<string>, f: Facts, reply: UploadReply, now: int)
    requires FactsOk(f) && OpOk(f, op) && Engaged(op) && op.phase.Uploading?
    ensures Keeps(f, UploadSettles(op, token, f, reply, now))
  {
    match reply
    case MediaStored(media) => KeepsPhotoUp(op, media, f);
    case UploadLost => KeepsFails(op, token, f, now);
    case UploadExpired => KeepsFails(op, None, f, now);
    case UploadFailed => KeepsErrs(op, token, f);
  }

  lemma AcceptsOk(f: Facts, item: QueuedAction, a: Application)
    requires FactsOk(f) && a.item.id == item.id
    ensures var g := f.(accepted := f.accepted + {item}, seen := f.seen + {item.id}, applied := f.applied + [a]);
      FactsOk(g) && Grows(f, g)
  {
    var g := f.(accepted := f.accepted + {item}, seen := f.seen + {item.id}, applied := f.applied + [a]);
    forall id | id in g.seen ensures AppliedTo(g, id) {
      if id == item.id {
        assert g.applied[|f.applied|].item.id == id;
      } else {
        assert AppliedTo(f, id);
        var i :| 0 <= i < |f.applied| && f.applied[i].item.id == id;
        assert g.applied[i].item.id == id;
      }
    }
    SameEntries(f, g);
  }

  lemma SameEntries(f: Facts, g: Facts)
    requires ReasonsOk(f) && g.entered == f.entered && g.superseded == f.superseded && g.mistaken == f.mistaken
    requires g.refused == f.refused && f.rejected <= g.rejected && g.overBudget == f.overBudget &&
      g.failures == f.failures
    ensures ReasonsOk(g)
  {
    forall e | e in Displaced(g) ensures IsItem(g, e.item) && HasTwin(g, e.item) {
      assert e in Displaced(f);
      assert IsItem(f, e.item) && HasTwin(f, e.item);
      var x :| x in f.entered && x.item == e.item;
      assert x in g.entered;
      var y :| y in f.entered && y.item.id == e.item.id && y.item != e.item;
      assert y in g.entered;
    }
  }

  lemma RepeatsOk(f: Facts, g: Facts)
    requires FactsOk(f) && g.seen == f.seen && g.applied == f.applied && f.rejected <= g.rejected
    requires forall x :: x in g.accepted ==> x.id in g.seen
    requires g.entered == f.entered && g.superseded == f.superseded && g.mistaken == f.mistaken
    requires g.refused == f.refused && g.overBudget == f.overBudget && g.failures == f.failures
    ensures FactsOk(g)
  {
    forall id | id in g.seen ensures AppliedTo(g, id) {
      assert AppliedTo(f, id);
      var i :| 0 <= i < |f.applied| && f.applied[i].item.id == id;
      assert g.applied[i].item.id == id;
    }
    SameEntries(f, g);
  }

  lemma DecidesOk(op: Op, f: Facts, verdict: Verdict)
    requires FactsOk(f) && Engaged(op)
    ensures var g := Decides(op, f, verdict);
      && FactsOk(g) && Grows(f, g)
      && Item(Current(op)) in (if verdict.Accept? then g.accepted else g.rejected)
  {
    var a := Current(op);
    var g := Decides(op, f, verdict);
    if verdict.Accept? && a.id !in f.seen {
      AcceptsOk(f, Item(a), Application(Item(a), op.kind, op.key, GivenUp(f), Displaced(f)));
    } else {
      RepeatsOk(f, g);
    }
  }

  lemma KeepsDecides(op: Op, f: Facts, verdict: Verdict)
    requires FactsOk(f) && OpOk(f, op) && Engaged(op) && op.phase == InFlight(None)
    ensures Keeps(f, To(op, InFlight(Some(verdict)), Decides(op, f, verdict)))
  {
    var g := Decides(op, f, verdict);
    DecidesOk(op, f, verdict);
    GrowsOp(f, g, op);
    if op.kind.Replay? {
      NewPhase(op, InFlight(Some(verdict)), g);
    }
  }

  lemma KeepsSendSettles(op: Op, token: Option<string>, f: Facts, reply: SendReply, now: int)
    requires FactsOk(f) && OpOk(f, op) && Engaged(op) && op.phase.InFlight?
    requires reply.Heard? ==> op.phase.verdict.Some?
    ensures Keeps(f, SendSettles(op, token, f, reply, now))
  {
    match reply
    case Heard =>
      if op.phase.verdict.value.Accept? {
        KeepsConcludes(op, token, f, f);
      } else {
        KeepsRefused(op, token, f);
      }
    case SendLost => KeepsFails(op, token, f, now);
    case SendExpired => KeepsFails(op, None, f, now);
    case SendFailed => KeepsErrs(op, token, f);
  }

  lemma KeepsOpens(s: State, op: Op, snapshot: seq<QueuedAction>, online: bool)
    requires DbsOk(s.dbs, s.f) && FactsOk(s.f) && OpOk(s.f, op) && op.phase.Opening?
    requires IsReplayOrder(snapshot, Db(s.dbs, op.key))
    ensures Keeps(s.f, Opens(op, snapshot, online, s.f))
  {
    forall i | 0 <= i < |snapshot| ensures RowOk(s.f, snapshot[i]) {
      assert StoredIn(s.dbs, op.key, snapshot[i].id);
    }
  }

  lemma OutcomeKeeps(s: State, step: Step)
    requires Inv(s) && Acts(step) && Enabled(s, step)
    ensures Keeps(s.f, OutcomeOf(s, step))
  {
    hide Keeps, FactsOk, OpOk;
    assert OpsOk(s) && FactsOk(s.f);
    var op := s.ops[step.op];
    assert OpOk(s.f, op);
    match step {
      case ReadStore(_, snapshot, online) => KeepsOpens(s, op, snapshot, online);
      case NotLoggedIn(_) => KeepsDrops(op, None, s.f);
      case UploadStarts(_) => KeepsTouch(op, s.f, s.token, Uploading);
      case UploadEnds(_, reply, now) => KeepsUploadSettles(op, s.token, s.f, reply, now);
      case SendStarts(_) => KeepsTouch(op, s.f, s.token, InFlight(None));
      case ServerDecides(_, verdict) => KeepsDecides(op, s.f, verdict);
      case SendEnds(_, reply, now) => KeepsSendSettles(op, s.token, s.f, reply, now);
      case _ =>
    }
  }

  // ---------------------------------------------------------------------
  // The whole state
  // ---------------------------------------------------------------------

  /** Only a flush's try without a token adds to `signedOut`. */
  lemma OutcomeSignedOut(s: State, step: Step)
    requires Acts(step) && Enabled(s, step)
    ensures OutcomeOf(s, step).f.signedOut == s.f.signedOut || (step.NotLoggedIn? && s.ops[step.op].kind.Replay?)
    ensures step.NotLoggedIn? ==> s.token.None?
    ensures OutcomeOf(s, step).next.Some? ==> OutcomeOf(s, step).next.value.kind == s.ops[step.op].kind
  {
  }

  lemma OthersKeep(s: State, t: State, o: nat)
    requires OpsOk(s) && Grows(s.f, t.f)
    requires forall p :: p in t.ops && p != o ==> p in s.ops && t.ops[p] == s.ops[p]
    requires o in t.ops ==> OpOk(t.f, t.ops[o])
    ensures OpsOk(t)
  {
    forall p | p in t.ops ensures OpOk(t.f, t.ops[p]) {
      if p != o {
        GrowsOp(s.f, t.f, s.ops[p]);
      }
    }
  }

  lemma ActCover(s: State, step: Step)
    requires CoverOk(s) && Acts(step) && Enabled(s, step)
    ensures CoverOk(Act(s, step.op, OutcomeOf(s, step)))
  {
    var out := OutcomeOf(s, step);
    var t := Act(s, step.op, out);
    OutcomeSignedOut(s, step);
    hide OutcomeOf;
    if t.covered && Flushing(t) {
      var o :| o in t.ops && t.ops[o].kind.Replay?;
      assert s.ops[o].kind.Replay?;
      assert Flushing(s);
    }
    if step.NotLoggedIn? && s.ops[step.op].kind.Replay? {
      assert Flushing(s);
    }
  }

  lemma KeepsAct(s: State, step: Step)
    requires Inv(s) && Acts(step) && Enabled(s, step)
    ensures Inv(Act(s, step.op, OutcomeOf(s, step)))
  {
    OutcomeKeeps(s, step);
    ActCover(s, step);
    hide OutcomeOf, DbsOk, FactsOk, NothingLost, CoverOk, OpOk;
    var out := OutcomeOf(s, step);
    var t := Act(s, step.op, out);
    GrowsDbs(s.dbs, s.f, t.f);
    GrowsLost(s.dbs, s.f, t.f);
    OthersKeep(s, t, step.op);
  }

  lemma RemovalRows(dbs: Databases, key: string, id: string, f: Facts, g: Facts)
    requires DbsOk(dbs, f) && Grows(f, g)
    ensures DbsOk(Delete(dbs, key, id), g)
  {
    hide RowOk;
    GrowsDbs(dbs, f, g);
    var less := Delete(dbs, key, id);
    forall k, x | StoredIn(less, k, x) ensures less[k][x].id == x && RowOk(g, less[k][x]) {
      assert StoredIn(dbs, k, x);
    }
  }

  lemma RemovalDbs(s: State, key: string, item: QueuedAction, g: Facts)
    requires DbsOk(s.dbs, s.f) && NothingLost(s.dbs, s.f) && Done(s.f, item)
    requires g == s.f.(mistaken := s.f.mistaken + Victim(s.dbs, key, item))
    ensures DbsOk(Delete(s.dbs, key, item.id), g) && NothingLost(Delete(s.dbs, key, item.id), g)
  {
    RemovalRows(s.dbs, key, item.id, s.f, g);
    var dbs := Delete(s.dbs, key, item.id);
    hide DbsOk;
    forall e | e in g.entered ensures Settled(g, e) || Stored(dbs, e) {
      assert Settled(s.f, e) || Stored(s.dbs, e);
    }
  }

  lemma VictimHasTwin(s: State, key: string, item: QueuedAction, g: Facts)
    requires DbsOk(s.dbs, s.f) && ReasonsOk(s.f) && IsItem(g, item)
    requires s.f.entered <= g.entered && s.f.superseded <= g.superseded && s.f.mistaken <= g.mistaken
    requires g.refused == s.f.refused && g.rejected == s.f.rejected && g.overBudget == s.f.overBudget &&
      g.failures == s.f.failures
    requires Displaced(g) == Displaced(s.f) + Victim(s.dbs, key, item)
    ensures ReasonsOk(g)
  {
    forall e | e in Displaced(g) ensures IsItem(g, e.item) && HasTwin(g, e.item) {
      if e in Displaced(s.f) {
        assert IsItem(s.f, e.item) && HasTwin(s.f, e.item);
        var x :| x in s.f.entered && x.item == e.item;
        var y :| y in s.f.entered && y.item.id == e.item.id && y.item != e.item;
        assert x in g.entered && y in g.entered;
      } else {
        var row := Db(s.dbs, key)[item.id];
        assert StoredIn(s.dbs, key, item.id) && RowOk(s.f, row);
        var x :| x in s.f.entered && x.item == Item(row);
        assert x in g.entered;
        var y :| y in g.entered && y.item == item;
      }
    }
  }

  lemma ServerStays(f: Facts, g: Facts)
    requires ServerOk(f) && g.seen == f.seen && g.applied == f.applied && g.accepted == f.accepted
    ensures ServerOk(g)
  {
    forall id | id in g.seen ensures AppliedTo(g, id) {
      assert AppliedTo(f, id);
      var i :| 0 <= i < |f.applied| && f.applied[i].item.id == id;
      assert g.applied[i].item.id == id;
    }
  }

  lemma NextOk(f: Facts, g: Facts, op: Op)
    requires op.kind.Replay? && ReplayOk(f, op) && Engaged(op) && Done(f, Item(Current(op))) && Grows(f, g)
    ensures Next(op).Some? ==> ReplayOk(g, Next(op).value)
  {
    GrowsOp(f, g, op);
    hide RowOk, Done;
    GrowsDone(f, g, Item(Current(op)));
  }

  lemma LandingItem(f: Facts, op: Op)
    requires OpOk(f, op) && Engaged(op) && op.kind.Replay?
    ensures IsItem(f, Item(Current(op)))
  {
    assert RowOk(f, Current(op));
  }

  lemma StillCovered(s: State, t: State)
    requires CoverOk(s) && t.covered == s.covered && t.token == s.token && t.f.signedOut == s.f.signedOut
    requires forall p :: p in t.ops ==> p in s.ops && t.ops[p].kind == s.ops[p].kind
    ensures CoverOk(t)
  {
    if Flushing(t) {
      var o :| o in t.ops && t.ops[o].kind.Replay?;
      assert s.ops[o].kind.Replay?;
    }
  }

  lemma RemovesOps(s: State, o: nat)
    requires Inv(s) && o in s.ops && Engaged(s.ops[o]) && s.ops[o].phase.Landing? && s.ops[o].phase.row.None?
    requires s.ops[o].kind.Replay?
    ensures OpsOk(Removes(s, o)) && CoverOk(Removes(s, o))
  {
    var op, t := s.ops[o], Removes(s, o);
    assert OpOk(s.f, op) && Done(s.f, Item(Current(op)));
    hide DbsOk, NothingLost, FactsOk, Victim, RowOk, Done;
    NextOk(s.f, t.f, op);
    OthersKeep(s, t, o);
    StillCovered(s, t);
  }

  lemma RemovesFacts(s: State, o: nat)
    requires Inv(s) && o in s.ops && Engaged(s.ops[o]) && s.ops[o].phase.Landing? && s.ops[o].phase.row.None?
    requires s.ops[o].kind.Replay?
    ensures var t := Removes(s, o); DbsOk(t.dbs, t.f) && NothingLost(t.dbs, t.f) && FactsOk(t.f)
  {
    var op, t := s.ops[o], Removes(s, o);
    var item := Item(Current(op));
    assert OpOk(s.f, op) && Done(s.f, item);
    LandingItem(s.f, op);
    hide DbsOk, NothingLost, ReasonsOk, ServerOk, Victim, OpOk, RowOk, Done;
    assert IsItem(t.f, item);
    RemovalDbs(s, op.phase.to, item, t.f);
    VictimHasTwin(s, op.phase.to, item, t.f);
    ServerStays(s.f, t.f);
  }

  lemma KeepsRemoves(s: State, o: nat)
    requires Inv(s) && o in s.ops && Engaged(s.ops[o]) && s.ops[o].phase.Landing? && s.ops[o].phase.row.None?
    requires s.ops[o].kind.Replay?
    ensures Inv(Removes(s, o))
  {
    hide DbsOk, NothingLost, FactsOk, OpsOk, CoverOk, Removes;
    RemovesOps(s, o);
    RemovesFacts(s, o);
  }

  lemma PutDbs(s: State, key: string, row: QueuedAction, g: Facts)
    requires DbsOk(s.dbs, s.f) && NothingLost(s.dbs, s.f) && Grows(s.f, g) && RowOk(g, row)
    requires Victim(s.dbs, key, Item(row)) <= g.superseded && g.entered <= s.f.entered + {Entry(key, Item(row))}
    ensures DbsOk(Put(s.dbs, key, row), g) && NothingLost(Put(s.dbs, key, row), g)
  {
    var dbs := Put(s.dbs, key, row);
    forall k, x | StoredIn(dbs, k, x) ensures dbs[k][x].id == x && RowOk(g, dbs[k][x]) {
      if k != key || x != row.id {
        assert StoredIn(s.dbs, k, x);
        GrowsRow(s.f, g, s.dbs[k][x]);
      }
    }
    forall e | e in g.entered ensures Settled(g, e) || Stored(dbs, e) {
      if e in s.f.entered {
        assert Settled(s.f, e) || Stored(s.dbs, e);
      }
    }
  }

  lemma KeepsPutsBack(s: State, o: nat, row: QueuedAction)
    requires Inv(s) && o in s.ops && s.ops[o].phase.Landing? && RowOk(s.f, row)
    ensures Inv(PutsBack(s, o, row))
  {
    var op, t := s.ops[o], PutsBack(s, o, row);
    var e :| e in s.f.entered && e.item == Item(row);
    assert e in t.f.entered && IsItem(t.f, Item(row));
    GrowsRow(s.f, t.f, row);
    PutDbs(s, op.phase.to, row, t.f);
    VictimHasTwin(s, op.phase.to, Item(row), t.f);
    ServerStays(s.f, t.f);
    OthersKeep(s, t, o);
    StillCovered(s, t);
  }

  lemma KeepsEnters(s: State, o: nat, row: QueuedAction)
    requires Inv(s) && o in s.ops && s.ops[o].phase.Landing? && row.attempts == 0
    ensures Inv(Enters(s, o, row))
  {
    var op, t := s.ops[o], Enters(s, o, row);
    assert Entry(op.phase.to, Item(row)) in t.f.entered;
    assert IsItem(t.f, Item(row));
    PutDbs(s, op.phase.to, row, t.f);
    VictimHasTwin(s, op.phase.to, Item(row), t.f);
    ServerStays(s.f, t.f);
    OthersKeep(s, t, o);
    StillCovered(s, t);
  }

  lemma KeepsLand(s: State, o: nat)
    requires Inv(s) && o in s.ops && Engaged(s.ops[o]) && s.ops[o].phase.Landing?
    ensures Inv(Land(s, o))
  {
    var op := s.ops[o];
    assert OpOk(s.f, op);
    hide Inv;
    if op.phase.row.None? {
      KeepsRemoves(s, o);
    } else if op.kind.Replay? {
      KeepsPutsBack(s, o, op.phase.row.value);
    } else {
      KeepsEnters(s, o, op.phase.row.value);
    }
  }

  lemma KeepsBegins(s: State, t: State, o: nat)
    requires Inv(s) && o !in s.ops && t.dbs == s.dbs && t.token == s.token
    requires t.ops.Keys == s.ops.Keys + {o} && forall p :: p in s.ops ==> t.ops[p] == s.ops[p]
    requires OpOk(t.f, t.ops[o]) && exists author :: t.f == s.f.(authored := s.f.authored + author)
    requires t.covered ==> s.covered && (t.ops[o].kind.Replay? ==> t.token.Some?)
    ensures Inv(t)
  {
    SameServer(s.f, t.f);
    GrowsDbs(s.dbs, s.f, t.f);
    OthersKeep(s, t, o);
    if t.covered && Flushing(t) {
      var p :| p in t.ops && t.ops[p].kind.Replay?;
      if p != o {
        assert s.ops[p].kind.Replay?;
        assert Flushing(s);
      }
    }
  }

  lemma KeepsTokenChange(s: State, t: State)
    requires Inv(s) && t.dbs == s.dbs && t.ops == s.ops && t.f == s.f
    requires t.covered ==> s.covered && (t.token.Some? || !Flushing(s))
    ensures Inv(t)
  {
  }

  lemma StepKeepsInv(s: State, step: Step)
    requires Inv(s) && Enabled(s, step)
    ensures Inv(Apply(s, step))
  {
    hide Inv;
    match step {
      case SignIn(driver) => KeepsTokenChange(s, Signs(s, driver));
      case SignOut => KeepsTokenChange(s, SignsOut(s));
      case StartSend(o, a) =>
        assert BeginsSend(s, o, a).f == s.f.(authored := s.f.authored + {Author(Content(a), s.token)});
        KeepsBegins(s, BeginsSend(s, o, a), o);
      case StartFlush(o) =>
        assert BeginsFlush(s, o).f == s.f.(authored := s.f.authored + {});
        KeepsBegins(s, BeginsFlush(s, o), o);
      case Lands(o) => KeepsLand(s, o);
      case _ => KeepsAct(s, step);
    }
  }
}
