/** The history that the results about the interleaved queue speak of is what its steps really did: requests, failures,
    conditions, entries, submissions and the server's log. */
module QueueHistory {
  import opened Prelude
  import opened ActionQueue
  import opened QueueProtocol
  import opened QueueRuns
  import opened QueueSafety

  // ---------------------------------------------------------------------
  // Requests
  // ---------------------------------------------------------------------

  /** What a step sends to the network: the current action's upload or send, under the token of that moment. */
  function RequestOf(s: State, step: Step): seq<Contact> {
    if (step.UploadStarts? || step.SendStarts?) && step.op in s.ops && Engaged(s.ops[step.op]) && s.token.Some?
    then [Contact(Content(s.ops[step.op].queue[s.ops[step.op].index]), s.token.value)]
    else []
  }

  ghost function RequestsIn(s: State, steps: seq<Step>): seq<Contact>
    requires ValidRun(s, steps)
    decreases |steps|
  {
    if steps == [] then [] else RequestOf(s, steps[0]) + RequestsIn(Apply(s, steps[0]), steps[1..])
  }

  lemma SettlingSendsNothing(s: State, step: Step)
    requires Enabled(s, step) && (step.UploadEnds? || step.SendEnds? || step.ServerDecides?)
    ensures Apply(s, step).f.contacts == s.f.contacts
  {
  }

  lemma StepRequests(s: State, step: Step)
    requires Enabled(s, step)
    ensures Apply(s, step).f.contacts == s.f.contacts + RequestOf(s, step)
  {
    assert s.f.contacts + [] == s.f.contacts;
    if step.UploadEnds? || step.SendEnds? || step.ServerDecides? {
      SettlingSendsNothing(s, step);
      hide Apply;
    }
  }

  /** The requests on record are those the run made, in order: one for each upload and each send. */
  lemma {:induction false} RequestsAreRecorded(s: State, steps: seq<Step>)
    requires ValidRun(s, steps)
    ensures After(s, steps).f.contacts == s.f.contacts + RequestsIn(s, steps)
    decreases |steps|
  {
    hide Enabled, Apply, RequestOf;
    if steps == [] {
    } else {
      StepRequests(s, steps[0]);
      RequestsAreRecorded(Apply(s, steps[0]), steps[1..]);
    }
  }

  // ---------------------------------------------------------------------
  // Failures
  // ---------------------------------------------------------------------

  /** A flush's try of the item ends in a lost request or a 401. */
  predicate FailsAt(s: State, step: Step, item: QueuedAction) {
    && Acts(step) && step.op in s.ops && s.ops[step.op].kind.Replay?
    && Engaged(s.ops[step.op]) && Item(Current(s.ops[step.op])) == item
    && match step
       case UploadEnds(_, reply, _) => reply.UploadLost? || reply.UploadExpired?
       case SendEnds(_, reply, _) => reply.SendLost? || reply.SendExpired?
       case _ => false
  }

  ghost function FailuresIn(s: State, steps: seq<Step>, item: QueuedAction): nat
    requires ValidRun(s, steps)
    decreases |steps|
  {
    if steps == [] then 0
    else (if FailsAt(s, steps[0], item) then 1 else 0) + FailuresIn(Apply(s, steps[0]), steps[1..], item)
  }

  lemma FailsCharges(op: Op, token: Option<string>, f: Facts, now: int, item: QueuedAction)
    requires Engaged(op)
    ensures FailuresOf(Fails(op, token, f, now).f, item) ==
      FailuresOf(f, item) + if op.kind.Replay? && Item(Current(op)) == item then 1 else 0
  {
  }

  lemma UploadFails(op: Op, token: Option<string>, f: Facts, reply: UploadReply, now: int, item: QueuedAction)
    requires Engaged(op)
    ensures FailuresOf(UploadSettles(op, token, f, reply, now).f, item) == FailuresOf(f, item) +
      if op.kind.Replay? && Item(Current(op)) == item && (reply.UploadLost? || reply.UploadExpired?) then 1 else 0
  {
    FailsCharges(op, token, f, now, item);
    FailsCharges(op, None, f, now, item);
    hide Fails, Item;
  }

  lemma SendFails(op: Op, token: Option<string>, f: Facts, reply: SendReply, now: int, item: QueuedAction)
    requires Engaged(op) && op.phase.InFlight? && (reply.Heard? ==> op.phase.verdict.Some?)
    ensures FailuresOf(SendSettles(op, token, f, reply, now).f, item) == FailuresOf(f, item) +
      if op.kind.Replay? && Item(Current(op)) == item && (reply.SendLost? || reply.SendExpired?) then 1 else 0
  {
    FailsCharges(op, token, f, now, item);
    FailsCharges(op, None, f, now, item);
    hide Fails, Item;
  }

  lemma StepFails(s: State, step: Step, item: QueuedAction)
    requires Enabled(s, step)
    ensures FailuresOf(Apply(s, step).f, item) == FailuresOf(s.f, item) + if FailsAt(s, step, item) then 1 else 0
  {
    if step.UploadEnds? {
      UploadFails(s.ops[step.op], s.token, s.f, step.uploadReply, step.now, item);
      hide UploadSettles, Item, FailuresOf;
    } else if step.SendEnds? {
      SendFails(s.ops[step.op], s.token, s.f, step.sendReply, step.now, item);
      hide SendSettles, Item, FailuresOf;
    } else {
      hide Item;
    }
  }

  /** What an action's attempts are measured against is the number of times that a flush's try of it failed. */
  lemma {:induction false} FailuresAreCounted(s: State, steps: seq<Step>, item: QueuedAction)
    requires ValidRun(s, steps)
    ensures FailuresOf(After(s, steps).f, item) == FailuresOf(s.f, item) + FailuresIn(s, steps, item)
    decreases |steps|
  {
    hide Enabled, Apply, FailsAt, FailuresOf;
    if steps == [] {
    } else {
      StepFails(s, steps[0], item);
      FailuresAreCounted(Apply(s, steps[0]), steps[1..], item);
    }
  }

  // ---------------------------------------------------------------------
  // The conditions of the results
  // ---------------------------------------------------------------------

  /** Somebody signs in while a send or flush is running. */
  predicate SignsInMidway(s: State, step: Step) {
    step.SignIn? && exists o :: o in s.ops
  }

  /** A flush starts with no token, or the token is cleared, by a sign-out or a 401, while one is running. */
  ghost predicate Uncovers(s: State, step: Step) {
    match step
    case StartFlush(_) => s.token.None?
    case SignOut => exists o :: o in s.ops && s.ops[o].kind.Replay?
    case UploadEnds(_, reply, _) => reply.UploadExpired? && exists o :: o in s.ops && s.ops[o].kind.Replay?
    case SendEnds(_, reply, _) => reply.SendExpired? && exists o :: o in s.ops && s.ops[o].kind.Replay?
    case _ => false
  }

  lemma StepConditions(s: State, step: Step)
    requires Enabled(s, step)
    ensures Apply(s, step).quiet <==> s.quiet && !SignsInMidway(s, step)
    ensures Apply(s, step).covered <==> s.covered && !Uncovers(s, step)
  {
    assert s.ops == map[] <==> !exists o :: o in s.ops;
    if step.UploadEnds? {
      ClearedByExpiry(s, step);
    } else if step.SendEnds? {
      ClearedByExpiry(s, step);
    }
  }

  lemma ClearedByExpiry(s: State, step: Step)
    requires Enabled(s, step)
    ensures step.UploadEnds? ==> (OutcomeOf(s, step).cleared <==> step.uploadReply.UploadExpired?)
    ensures step.SendEnds? ==> (OutcomeOf(s, step).cleared <==> step.sendReply.SendExpired?)
  {
  }

  ghost predicate NeverSignsInMidway(s: State, steps: seq<Step>)
    requires ValidRun(s, steps)
    decreases |steps|
  {
    steps == [] || (!SignsInMidway(s, steps[0]) && NeverSignsInMidway(Apply(s, steps[0]), steps[1..]))
  }

  ghost predicate NeverUncovers(s: State, steps: seq<Step>)
    requires ValidRun(s, steps)
    decreases |steps|
  {
    steps == [] || (!Uncovers(s, steps[0]) && NeverUncovers(Apply(s, steps[0]), steps[1..]))
  }

  /** The two conditions, read off the steps of the run. */
  lemma {:induction false} ConditionsAreOfTheRun(s: State, steps: seq<Step>)
    requires ValidRun(s, steps)
    ensures After(s, steps).quiet <==> s.quiet && NeverSignsInMidway(s, steps)
    ensures After(s, steps).covered <==> s.covered && NeverUncovers(s, steps)
    decreases |steps|
  {
    hide Enabled, Apply, SignsInMidway, Uncovers;
    if steps == [] {
    } else {
      StepConditions(s, steps[0]);
      ConditionsAreOfTheRun(Apply(s, steps[0]), steps[1..]);
    }
  }

  // ---------------------------------------------------------------------
  // Entries, authors and the server's log
  // ---------------------------------------------------------------------

  /** A live send puts this entry. */
  predicate PutsEntry(s: State, step: Step, e: Entry) {
    && step.Lands? && step.op in s.ops && s.ops[step.op].kind.Live? && s.ops[step.op].phase.Landing?
    && s.ops[step.op].phase.to == e.key && s.ops[step.op].phase.row.Some?
    && Item(s.ops[step.op].phase.row.value) == e.item
  }

  /** It does so behind a row that is as young, or for an action that entered before. */
  ghost predicate PutsLate(s: State, step: Step, key: string, x: Entry) {
    && step.Lands? && step.op in s.ops && s.ops[step.op].kind.Live? && s.ops[step.op].phase.Landing?
    && s.ops[step.op].phase.to == key && s.ops[step.op].phase.row.Some? && x in s.f.entered
    && var row := s.ops[step.op].phase.row.value;
       (x.key == key && row.queuedAt <= x.item.queuedAt) || x.item == Item(row)
  }

  predicate SameRows(f: Facts, g: Facts) {
    g.entered == f.entered && g.late == f.late && g.superseded == f.superseded && g.mistaken == f.mistaken
  }

  lemma UploadEntersNothing(op: Op, token: Option<string>, f: Facts, reply: UploadReply, now: int)
    requires Engaged(op)
    ensures SameRows(f, UploadSettles(op, token, f, reply, now).f)
  {
  }

  lemma SendEntersNothing(op: Op, token: Option<string>, f: Facts, reply: SendReply, now: int)
    requires Engaged(op) && op.phase.InFlight? && (reply.Heard? ==> op.phase.verdict.Some?)
    ensures SameRows(f, SendSettles(op, token, f, reply, now).f)
  {
  }

  lemma SettlingEntersNothing(s: State, step: Step)
    requires Enabled(s, step) && (step.UploadEnds? || step.SendEnds? || step.ServerDecides?)
    ensures SameRows(s.f, Apply(s, step).f)
  {
    match step {
      case UploadEnds(o, reply, now) => UploadEntersNothing(s.ops[o], s.token, s.f, reply, now);
      case SendEnds(o, reply, now) => SendEntersNothing(s.ops[o], s.token, s.f, reply, now);
      case _ =>
    }
    hide UploadSettles, SendSettles;
  }

  lemma LandEnters(s: State, o: nat, e: Entry, key: string)
    requires Enabled(s, Lands(o))
    ensures e in Land(s, o).f.entered <==>
      e in s.f.entered || PutsEntry(s, Lands(o), e)
    ensures key in Land(s, o).f.late <==> key in s.f.late || exists x :: PutsLate(s, Lands(o), key, x)
  {
    var op := s.ops[o];
    if op.kind.Live? && op.phase.row.Some? {
      if IsLate(s.f, op.phase.to, op.phase.row.value) {
        var row := op.phase.row.value;
        var x :| x in s.f.entered && ((x.key == op.phase.to && x.item.queuedAt >= row.queuedAt) || x.item == Item(row));
        assert PutsLate(s, Lands(o), op.phase.to, x);
      }
    }
  }

  /** What is on record as entered, and which databases as entered out of order: exactly what live sends put. */
  lemma StepEnters(s: State, step: Step, e: Entry, key: string)
    requires Enabled(s, step)
    ensures e in Apply(s, step).f.entered <==>
      e in s.f.entered || PutsEntry(s, step, e)
    ensures key in Apply(s, step).f.late <==> key in s.f.late || exists x :: PutsLate(s, step, key, x)
  {
    if step.Lands? {
      LandEnters(s, step.op, e, key);
    } else if step.UploadEnds? || step.SendEnds? || step.ServerDecides? {
      SettlingEntersNothing(s, step);
      hide Apply;
    }
  }

  /** A put or removal takes another submission's row away. */
  predicate Displaces(s: State, step: Step, e: Entry) {
    && step.Lands? && step.op in s.ops && Engaged(s.ops[step.op]) && s.ops[step.op].phase.Landing?
    && e.key == s.ops[step.op].phase.to && Stored(s.dbs, e) && e.item.id == Current(s.ops[step.op]).id
    && var row := s.ops[step.op].phase.row;
       e.item != Item(if row.Some? then row.value else Current(s.ops[step.op]))
  }

  lemma VictimIs(dbs: Databases, f: Facts, key: string, item: QueuedAction, e: Entry)
    requires DbsOk(dbs, f)
    ensures e in Victim(dbs, key, item) <==>
      e.key == key && Stored(dbs, e) && e.item.id == item.id && e.item != item
  {
    assert StoredIn(dbs, key, item.id) ==> dbs[key][item.id].id == item.id;
    hide DbsOk, Item;
  }

  lemma LandAddsVictim(s: State, o: nat)
    requires Enabled(s, Lands(o))
    ensures var op := s.ops[o]; var row := op.phase.row;
      Displaced(Land(s, o).f) ==
        Displaced(s.f) + Victim(s.dbs, op.phase.to, Item(if row.Some? then row.value else Current(op)))
  {
    hide Victim, IsLate, Item, Put, Delete, Become, Next;
  }

  lemma LandsItsOwn(f: Facts, op: Op)
    requires OpOk(f, op) && Engaged(op) && op.phase.Landing? && op.phase.row.Some?
    ensures op.phase.row.value.id == Current(op).id
  {
  }

  lemma LandDisplaces(s: State, o: nat, e: Entry)
    requires Inv(s) && Enabled(s, Lands(o))
    ensures e in Displaced(Land(s, o).f) <==> e in Displaced(s.f) || Displaces(s, Lands(o), e)
  {
    var op := s.ops[o];
    var key, row := op.phase.to, op.phase.row;
    var item := Item(if row.Some? then row.value else Current(op));
    assert OpOk(s.f, op);
    if row.Some? {
      LandsItsOwn(s.f, op);
    }
    VictimIs(s.dbs, s.f, key, item, e);
    LandAddsVictim(s, o);
    hide Inv, OpOk, Victim, Land, Displaced, Stored;
  }

  /** And which rows as displaced. */
  lemma StepDisplaces(s: State, step: Step, e: Entry)
    requires Inv(s) && Enabled(s, step)
    ensures e in Displaced(Apply(s, step).f) <==> e in Displaced(s.f) || Displaces(s, step, e)
  {
    hide Inv;
    if step.Lands? {
      LandDisplaces(s, step.op, e);
    } else if step.UploadEnds? || step.SendEnds? || step.ServerDecides? {
      SettlingEntersNothing(s, step);
      hide Apply;
    }
  }

  /** The driver submits this content: with the action, or when its photo's id is put in the body. */
  predicate Submits(s: State, step: Step, author: Author) {
    match step
    case StartSend(_, a) => author == Author(Content(a), s.token)
    case UploadEnds(o, MediaStored(media), _) =>
      && o in s.ops && s.ops[o].kind.Live? && Engaged(s.ops[o]) && Current(s.ops[o]).blob.Some?
      && author == Author(Content(Resolved(Current(s.ops[o]), media)), s.ops[o].owner)
    case _ => false
  }

  lemma UploadAuthors(op: Op, token: Option<string>, f: Facts, reply: UploadReply, now: int)
    requires Engaged(op)
    ensures UploadSettles(op, token, f, reply, now).f.authored == f.authored +
      if reply.MediaStored? && op.kind.Live? && Current(op).blob.Some?
      then {Author(Content(Resolved(Current(op), reply.media)), op.owner)} else {}
  {
  }

  lemma SendAuthorsNothing(s: State, step: Step)
    requires Enabled(s, step) && (step.SendEnds? || step.ServerDecides?)
    ensures Apply(s, step).f.authored == s.f.authored
  {
  }

  /** Whose content is whose: each send's belongs to the driver signed in when it started. */
  lemma StepAuthors(s: State, step: Step, author: Author)
    requires Enabled(s, step)
    ensures author in Apply(s, step).f.authored <==> author in s.f.authored || Submits(s, step, author)
  {
    if step.UploadEnds? {
      UploadAuthors(s.ops[step.op], s.token, s.f, step.uploadReply, step.now);
      hide UploadSettles;
    } else if step.SendEnds? || step.ServerDecides? {
      SendAuthorsNothing(s, step);
      hide Apply;
    }
  }

  lemma UploadKeepsOwner(op: Op, token: Option<string>, f: Facts, reply: UploadReply, now: int)
    requires Engaged(op)
    ensures var next := UploadSettles(op, token, f, reply, now).next;
      next.Some? ==> next.value.owner == op.owner && next.value.key == op.key && next.value.kind == op.kind
  {
  }

  lemma SendKeepsOwner(op: Op, token: Option<string>, f: Facts, reply: SendReply, now: int)
    requires Engaged(op) && op.phase.InFlight? && (reply.Heard? ==> op.phase.verdict.Some?)
    ensures var next := SendSettles(op, token, f, reply, now).next;
      next.Some? ==> next.value.owner == op.owner && next.value.key == op.key && next.value.kind == op.kind
  {
  }

  /** An operation's driver and database are those of its start, whoever signs in later. */
  predicate OwnedSince(s: State, step: Step, o: nat, op: Op) {
    if o in s.ops then op.owner == s.ops[o].owner && op.key == s.ops[o].key && op.kind == s.ops[o].kind
    else
      && op.owner == s.token && op.key == (if s.token.Some? && s.token.value != "" then s.token.value else ANONYMOUS)
      && (if op.kind.Live? then step.StartSend? && op.queue == [Item(step.action)] else step.StartFlush?)
  }

  lemma StepKeepsOwner(s: State, step: Step, o: nat)
    requires Enabled(s, step) && o in Apply(s, step).ops
    ensures OwnedSince(s, step, o, Apply(s, step).ops[o])
  {
    match step {
      case UploadEnds(p, reply, now) => UploadKeepsOwner(s.ops[p], s.token, s.f, reply, now);
      case SendEnds(p, reply, now) => SendKeepsOwner(s.ops[p], s.token, s.f, reply, now);
      case _ =>
    }
    hide UploadSettles, SendSettles;
  }

  /** The server applies an action: it accepts one whose id it has not accepted before. */
  predicate Applies(s: State, step: Step, application: Application) {
    && step.ServerDecides? && step.verdict.Accept? && step.op in s.ops && Engaged(s.ops[step.op])
    && var op := s.ops[step.op];
      && Current(op).id !in s.f.seen
      && application == Application(Item(Current(op)), op.kind, op.key, GivenUp(s.f), Displaced(s.f))
  }

  predicate AcceptsId(s: State, step: Step, id: string) {
    && step.ServerDecides? && step.verdict.Accept? && step.op in s.ops && Engaged(s.ops[step.op])
    && Current(s.ops[step.op]).id == id
  }

  lemma SettlingAppliesNothing(s: State, step: Step)
    requires Enabled(s, step) && (step.UploadEnds? || step.SendEnds?)
    ensures Apply(s, step).f.applied == s.f.applied && Apply(s, step).f.seen == s.f.seen
  {
  }

  /** The server's log: one application for each first acceptance of an id. */
  lemma StepApplies(s: State, step: Step)
    requires Enabled(s, step)
    ensures var f, g := s.f, Apply(s, step).f;
      || (g.applied == f.applied && forall application :: !Applies(s, step, application))
      || (exists application :: Applies(s, step, application) && g.applied == f.applied + [application])
    ensures forall id :: id in Apply(s, step).f.seen <==> id in s.f.seen || AcceptsId(s, step, id)
  {
    if step.UploadEnds? || step.SendEnds? {
      SettlingAppliesNothing(s, step);
      hide Apply;
    } else if step.ServerDecides? && step.verdict.Accept? && Current(s.ops[step.op]).id !in s.f.seen {
      var op := s.ops[step.op];
      assert Applies(s, step, Application(Item(Current(op)), op.kind, op.key, GivenUp(s.f), Displaced(s.f)));
    }
  }

  // ---------------------------------------------------------------------
  // Whole runs
  // ---------------------------------------------------------------------

  ghost predicate RecordsRows(s: State, step: Step, g: Facts) {
    && (forall e :: e in g.entered <==> e in s.f.entered || PutsEntry(s, step, e))
    && (forall key :: key in g.late <==> key in s.f.late || exists x :: PutsLate(s, step, key, x))
    && (forall e :: e in Displaced(g) <==> e in Displaced(s.f) || Displaces(s, step, e))
  }

  ghost predicate RecordsSubmissions(s: State, step: Step, g: Facts) {
    && (forall author :: author in g.authored <==> author in s.f.authored || Submits(s, step, author))
    && (forall id :: id in g.seen <==> id in s.f.seen || AcceptsId(s, step, id))
    && (|| (g.applied == s.f.applied && forall application :: !Applies(s, step, application))
        || exists application :: Applies(s, step, application) && g.applied == s.f.applied + [application])
  }

  lemma StepRecordsRows(s: State, step: Step)
    requires Inv(s) && Enabled(s, step)
    ensures RecordsRows(s, step, Apply(s, step).f)
  {
    var g := Apply(s, step).f;
    hide Inv, Enabled, Apply, PutsLate, Displaces;
    forall e ensures e in g.entered <==> e in s.f.entered || PutsEntry(s, step, e) {
      StepEnters(s, step, e, e.key);
    }
    forall key ensures key in g.late <==> key in s.f.late || exists x :: PutsLate(s, step, key, x) {
      var e: Entry := *;
      StepEnters(s, step, e, key);
    }
    forall e ensures e in Displaced(g) <==> e in Displaced(s.f) || Displaces(s, step, e) {
      StepDisplaces(s, step, e);
    }
  }

  ghost predicate KeepsOwners(s: State, step: Step, t: State) {
    forall o :: o in t.ops ==> OwnedSince(s, step, o, t.ops[o])
  }

  lemma StepRecordsSubmissions(s: State, step: Step)
    requires Enabled(s, step)
    ensures RecordsSubmissions(s, step, Apply(s, step).f) && KeepsOwners(s, step, Apply(s, step))
  {
    var t := Apply(s, step);
    var g := t.f;
    hide Enabled, Apply, Submits, AcceptsId, Applies, OwnedSince;
    forall o | o in t.ops ensures OwnedSince(s, step, o, t.ops[o]) {
      StepKeepsOwner(s, step, o);
    }
    forall author ensures author in g.authored <==> author in s.f.authored || Submits(s, step, author) {
      StepAuthors(s, step, author);
    }
    StepApplies(s, step);
  }

  /** Each step of the run records what it does, and nothing else is on record. */
  ghost predicate AllRecorded(s: State, steps: seq<Step>)
    requires ValidRun(s, steps)
    decreases |steps|
  {
    steps == [] ||
    (&& RecordsRows(s, steps[0], Apply(s, steps[0]).f) && RecordsSubmissions(s, steps[0], Apply(s, steps[0]).f)
     && KeepsOwners(s, steps[0], Apply(s, steps[0])) && AllRecorded(Apply(s, steps[0]), steps[1..]))
  }

  /** In every run: a submission is on record as entered if and only if a live send put it, its database as out of
      order if and only if it went in behind a row as young, or once more; as displaced if and only if another one's
      put or removal took its row; a content as a driver's if and only if a send begun under that token submitted it;
      and the server's log has one application for each first acceptance of an id, with the database the flush was
      started for. */
  lemma {:induction false} HistoryIsOfTheRun(s: State, steps: seq<Step>)
    requires Inv(s) && ValidRun(s, steps)
    ensures AllRecorded(s, steps)
    decreases |steps|
  {
    hide Inv, Enabled, Apply, RecordsRows, RecordsSubmissions, KeepsOwners;
    if steps == [] {
    } else {
      StepRecordsRows(s, steps[0]);
      StepRecordsSubmissions(s, steps[0]);
      StepKeepsInv(s, steps[0]);
      HistoryIsOfTheRun(Apply(s, steps[0]), steps[1..]);
    }
  }
}
