/** What holds after every run of the interleaved queue. */
module QueueRuns {
  import opened Prelude
  import opened ActionQueue
  import opened QueueProtocol
  import opened QueueSafety
  import opened QueueOrder
  import opened QueueIsolation

  ghost predicate ValidRun(s: State, steps: seq<Step>)
    decreases |steps|
  {
    steps == [] || (Enabled(s, steps[0]) && ValidRun(Apply(s, steps[0]), steps[1..]))
  }

  ghost function After(s: State, steps: seq<Step>): State
    requires ValidRun(s, steps)
    decreases |steps|
  {
    if steps == [] then s else After(Apply(s, steps[0]), steps[1..])
  }

  lemma {:induction false} RunKeeps(s: State, steps: seq<Step>)
    requires Inv(s) && OrderInv(s) && IsoInv(s) && ValidRun(s, steps)
    ensures Inv(After(s, steps)) && OrderInv(After(s, steps)) && IsoInv(After(s, steps))
    decreases |steps|
  {
    hide Inv, OrderInv, IsoInv, Enabled, Apply;
    if steps == [] {
    } else {
      StepKeepsInv(s, steps[0]);
      StepKeepsOrder(s, steps[0]);
      StepKeepsIso(s, steps[0]);
      RunKeeps(Apply(s, steps[0]), steps[1..]);
    }
  }

  lemma FromInitial(token: Option<string>, steps: seq<Step>)
    requires ValidRun(Initial(token), steps)
    ensures var s := After(Initial(token), steps); Inv(s) && OrderInv(s) && IsoInv(s)
  {
    InvInitially(token);
    RunKeeps(Initial(token), steps);
  }

  // ---------------------------------------------------------------------
  // No loss
  // ---------------------------------------------------------------------

  /** No loss, for each submission and each database it was put in: it is still there, or the server accepted it,
      or a flush gave it up for one of four reasons, or another submission with the same id took its row's place. */
  lemma NoActionIsLost(token: Option<string>, steps: seq<Step>, e: Entry)
    requires ValidRun(Initial(token), steps)
    requires e in After(Initial(token), steps).f.entered
    ensures var s := After(Initial(token), steps);
      || Stored(s.dbs, e)
      || e.item in s.f.accepted
      || (e.item in s.f.refused && e.item in s.f.rejected)
      || e.item in s.f.errored
      || FailuresOf(s.f, e.item) >= MAX_ATTEMPTS
      || e.item in s.f.signedOut
      || e in Displaced(s.f)
  {
    FromInitial(token, steps);
    assert NothingLost(After(Initial(token), steps).dbs, After(Initial(token), steps).f);
  }

  /** The same for a single step: only settled submissions leave the store. */
  lemma OnlySettledActionsLeave(token: Option<string>, steps: seq<Step>, step: Step, e: Entry)
    requires ValidRun(Initial(token), steps)
    requires Enabled(After(Initial(token), steps), step)
    requires e in After(Initial(token), steps).f.entered && Stored(After(Initial(token), steps).dbs, e)
    ensures var t := Apply(After(Initial(token), steps), step); Stored(t.dbs, e) || Settled(t.f, e)
  {
    FromInitial(token, steps);
    var s := After(Initial(token), steps);
    StepKeepsInv(s, step);
    EntriesStay(s, step);
    assert NothingLost(Apply(s, step).dbs, Apply(s, step).f);
  }

  lemma EntriesStay(s: State, step: Step)
    requires Inv(s) && Enabled(s, step)
    ensures s.f.entered <= Apply(s, step).f.entered
  {
    if Acts(step) {
      OutcomeKeeps(s, step);
    }
  }

  /** A row is pushed out by another submission only if two different ones were stored under its id. */
  lemma FreshIdsDisplaceNothing(token: Option<string>, steps: seq<Step>)
    requires ValidRun(Initial(token), steps)
    requires var f := After(Initial(token), steps).f;
      forall e, x :: e in f.entered && x in f.entered && e.item.id == x.item.id ==> e.item == x.item
    ensures Displaced(After(Initial(token), steps).f) == {}
  {
    FromInitial(token, steps);
  }

  /** If every flush starts signed in and the token is not cleared while one runs, being signed out is no reason. */
  lemma SignedInDropsNothing(token: Option<string>, steps: seq<Step>)
    requires ValidRun(Initial(token), steps)
    ensures var s := After(Initial(token), steps); s.covered ==> s.f.signedOut == {}
  {
    FromInitial(token, steps);
  }

  /** At this step a flush gives the item up: for want of a token, for a no it hears, for an error that is no
      connectivity failure, or for a connectivity failure with the budget spent. */
  predicate GivesUp(s: State, step: Step, item: QueuedAction) {
    && Acts(step) && step.op in s.ops && s.ops[step.op].kind.Replay?
    && Engaged(s.ops[step.op]) && Item(Current(s.ops[step.op])) == item
    && var op := s.ops[step.op];
       match step
       case NotLoggedIn(_) => s.token.None?
       case UploadEnds(_, reply, _) =>
         reply.UploadFailed? || (!reply.MediaStored? && Current(op).attempts + 1 >= MAX_ATTEMPTS)
       case SendEnds(_, reply, _) =>
         if reply.Heard? then op.phase == InFlight(Some(Reject))
         else reply.SendFailed? || Current(op).attempts + 1 >= MAX_ATTEMPTS
       case _ => false
  }

  ghost predicate GivesUpIn(s: State, steps: seq<Step>, item: QueuedAction)
    requires ValidRun(s, steps)
    decreases |steps|
  {
    steps != [] && (GivesUp(s, steps[0], item) || GivesUpIn(Apply(s, steps[0]), steps[1..], item))
  }

  lemma UploadGivesUp(op: Op, token: Option<string>, f: Facts, reply: UploadReply, now: int, item: QueuedAction)
    requires Engaged(op)
    ensures var gives := reply.UploadFailed? || (!reply.MediaStored? && Current(op).attempts + 1 >= MAX_ATTEMPTS);
      item in GivenUp(UploadSettles(op, token, f, reply, now).f) <==>
      item in GivenUp(f) || (op.kind.Replay? && item == Item(Current(op)) && gives)
  {
  }

  lemma SendGivesUp(op: Op, token: Option<string>, f: Facts, reply: SendReply, now: int, item: QueuedAction)
    requires Engaged(op) && op.phase.InFlight? && (reply.Heard? ==> op.phase.verdict.Some?)
    ensures
      var gives := if reply.Heard? then op.phase == InFlight(Some(Reject))
                   else reply.SendFailed? || Current(op).attempts + 1 >= MAX_ATTEMPTS;
      item in GivenUp(SendSettles(op, token, f, reply, now).f) <==>
      item in GivenUp(f) || (op.kind.Replay? && item == Item(Current(op)) && gives)
  {
  }

  lemma DecidesGivesUp(op: Op, f: Facts, verdict: Verdict)
    requires Engaged(op)
    ensures GivenUp(Decides(op, f, verdict)) == GivenUp(f)
  {
  }

  lemma LandGivesUp(s: State, o: nat)
    requires Enabled(s, Lands(o))
    ensures GivenUp(Land(s, o).f) == GivenUp(s.f)
  {
  }

  lemma StepGivesUp(s: State, step: Step, item: QueuedAction)
    requires Enabled(s, step)
    ensures item in GivenUp(Apply(s, step).f) <==> item in GivenUp(s.f) || GivesUp(s, step, item)
  {
    match step {
      case UploadEnds(o, reply, now) => UploadGivesUp(s.ops[o], s.token, s.f, reply, now, item);
      case SendEnds(o, reply, now) => SendGivesUp(s.ops[o], s.token, s.f, reply, now, item);
      case ServerDecides(o, verdict) => DecidesGivesUp(s.ops[o], s.f, verdict);
      case Lands(o) => LandGivesUp(s, o);
      case _ =>
    }
    hide UploadSettles, SendSettles, Decides, Land;
  }

  lemma {:induction false} GivenUpFrom(s: State, steps: seq<Step>, item: QueuedAction)
    requires ValidRun(s, steps)
    ensures item in GivenUp(After(s, steps).f) <==> item in GivenUp(s.f) || GivesUpIn(s, steps, item)
    decreases |steps|
  {
    if steps == [] {
    } else {
      StepGivesUp(s, steps[0], item);
      hide Enabled, Apply, GivesUp, GivenUp;
      GivenUpFrom(Apply(s, steps[0]), steps[1..], item);
    }
  }

  /** When a flush gives an action up, over whole runs: exactly when it hears one of these answers to it, or tries it
      with no token. Being taken off the list of a stale flush is no reason, nor is anything a live send hears. */
  lemma GivenUpIff(token: Option<string>, steps: seq<Step>, item: QueuedAction)
    requires ValidRun(Initial(token), steps)
    ensures item in GivenUp(After(Initial(token), steps).f) <==> GivesUpIn(Initial(token), steps, item)
  {
    GivenUpFrom(Initial(token), steps, item);
  }

  /** At this step the server accepts the item, from a live send or from a flush. */
  predicate Accepts(s: State, step: Step, item: QueuedAction) {
    && step.ServerDecides? && step.verdict.Accept? && step.op in s.ops
    && Engaged(s.ops[step.op]) && Item(Current(s.ops[step.op])) == item
  }

  ghost predicate AcceptsIn(s: State, steps: seq<Step>, item: QueuedAction)
    requires ValidRun(s, steps)
    decreases |steps|
  {
    steps != [] && (Accepts(s, steps[0], item) || AcceptsIn(Apply(s, steps[0]), steps[1..], item))
  }

  lemma FailsAcceptsNothing(op: Op, token: Option<string>, f: Facts, now: int)
    requires Engaged(op)
    ensures Fails(op, token, f, now).f.accepted == f.accepted
  {
  }

  lemma StepAccepts(s: State, step: Step, item: QueuedAction)
    requires Enabled(s, step)
    ensures item in Apply(s, step).f.accepted <==> item in s.f.accepted || Accepts(s, step, item)
  {
    if step.UploadEnds? || step.SendEnds? {
      FailsAcceptsNothing(s.ops[step.op], s.token, s.f, step.now);
      FailsAcceptsNothing(s.ops[step.op], None, s.f, step.now);
      hide Fails;
    }
  }

  lemma {:induction false} AcceptedFrom(s: State, steps: seq<Step>, item: QueuedAction)
    requires ValidRun(s, steps)
    ensures item in After(s, steps).f.accepted <==> item in s.f.accepted || AcceptsIn(s, steps, item)
    decreases |steps|
  {
    if steps == [] {
    } else {
      StepAccepts(s, steps[0], item);
      hide Enabled, Apply, Accepts;
      AcceptedFrom(Apply(s, steps[0]), steps[1..], item);
    }
  }

  /** No loss, read off the steps: a submission that was put in a database, is no longer there and was not pushed out
      by another with its id, was accepted at some step of the run, or given up at one by what a flush heard there. */
  lemma GoneMeansAcceptedOrGivenUp(token: Option<string>, steps: seq<Step>, e: Entry)
    requires ValidRun(Initial(token), steps)
    requires var s := After(Initial(token), steps);
      e in s.f.entered && !Stored(s.dbs, e) && e !in Displaced(s.f)
    ensures AcceptsIn(Initial(token), steps, e.item) || GivesUpIn(Initial(token), steps, e.item)
  {
    FromInitial(token, steps);
    AcceptedFrom(Initial(token), steps, e.item);
    GivenUpFrom(Initial(token), steps, e.item);
    assert NothingLost(After(Initial(token), steps).dbs, After(Initial(token), steps).f);
  }

  /** Attempts never run ahead of the connectivity failures that really happened. */
  lemma AttemptsAreRealFailures(token: Option<string>, steps: seq<Step>, key: string, id: string)
    requires ValidRun(Initial(token), steps)
    requires StoredIn(After(Initial(token), steps).dbs, key, id)
    ensures var s := After(Initial(token), steps); var row := s.dbs[key][id];
      row.attempts <= FailuresOf(s.f, Item(row)) && row.attempts < MAX_ATTEMPTS
  {
    FromInitial(token, steps);
    var s := After(Initial(token), steps);
    assert RowOk(s.f, s.dbs[key][id]);
  }

  // ---------------------------------------------------------------------
  // Order and isolation
  // ---------------------------------------------------------------------

  /** Replay order, for each database that is entered in the order of the stamps: what a flush of it delivers is
      first applied after every submission queued in that database before it, except those given up or displaced by
      then. Any number of drivers may sign in and out, flushes may overlap, meet 401s and put removed rows back; if
      nobody signs in while a send or flush is running, a flush delivers only what was queued in its own database. */
  lemma ReplayFollowsQueue(token: Option<string>, steps: seq<Step>, j: nat, e: Entry)
    requires ValidRun(Initial(token), steps)
    requires var f := After(Initial(token), steps).f;
      && j < |f.applied| && f.applied[j].kind.Replay? && f.applied[j].key !in f.late
      && e in f.entered && e.key == f.applied[j].key && e.item.queuedAt < f.applied[j].item.queuedAt
    requires var s := After(Initial(token), steps); var a := s.f.applied[j];
      (s.quiet && a.key != ANONYMOUS) || Entry(a.key, a.item) in s.f.entered
    ensures var f := After(Initial(token), steps).f; var a := f.applied[j];
      e.item in a.givenUp || e in a.displaced || exists i :: 0 <= i < j && f.applied[i].item.id == e.item.id
  {
    FromInitial(token, steps);
    var f := After(Initial(token), steps).f;
    var a := f.applied[j];
    assert LogOrdered(f) && EntryOrdered(f, j);
    assert Precedes(f, a.key, e, a.item);
    if e.item !in a.givenUp && e !in a.displaced {
      assert AppliedBefore(f, j, e.item.id);
    }
  }

  /** Isolation: if nobody signs in while a send or flush is running, every request carries an action
      of the driver whose token it bears. Tokens may be cleared at any time, also by a 401. */
  lemma DriversAreIsolated(token: Option<string>, steps: seq<Step>, i: nat)
    requires ValidRun(Initial(token), steps)
    requires var s := After(Initial(token), steps);
      && s.quiet && i < |s.f.contacts|
      && s.f.contacts[i].bearer != "" && s.f.contacts[i].bearer != ANONYMOUS
    ensures var f := After(Initial(token), steps).f;
      Author(f.contacts[i].content, Some(f.contacts[i].bearer)) in f.authored
  {
    FromInitial(token, steps);
  }

  // ---------------------------------------------------------------------
  // Reaching a state
  // ---------------------------------------------------------------------

  ghost predicate Reachable(token: Option<string>, s: State) {
    exists steps :: ValidRun(Initial(token), steps) && After(Initial(token), steps) == s
  }

  lemma Start(token: Option<string>)
    ensures Reachable(token, Initial(token))
  {
    assert ValidRun(Initial(token), []) && After(Initial(token), []) == Initial(token);
  }

  lemma {:induction false} RunThenStep(s: State, steps: seq<Step>, step: Step)
    requires ValidRun(s, steps) && Enabled(After(s, steps), step)
    ensures ValidRun(s, steps + [step]) && After(s, steps + [step]) == Apply(After(s, steps), step)
    decreases |steps|
  {
    hide Enabled, Apply;
    var longer := steps + [step];
    if steps == [] {
      assert longer[1..] == [];
    } else {
      assert longer[1..] == steps[1..] + [step];
      RunThenStep(Apply(s, steps[0]), steps[1..], step);
    }
  }

  lemma Go(token: Option<string>, s: State, step: Step) returns (t: State)
    requires Reachable(token, s) && Enabled(s, step)
    ensures Reachable(token, t) && t == Apply(s, step)
  {
    hide Enabled, Apply;
    var steps :| ValidRun(Initial(token), steps) && After(Initial(token), steps) == s;
    RunThenStep(Initial(token), steps, step);
    t := Apply(s, step);
  }
}
