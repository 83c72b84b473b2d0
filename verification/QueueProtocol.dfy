/** The offline queue as it runs in the browser: any number of sends and flushes interleaved at their awaits,
    a token that can change under them, ids that are used again, and a server whose answers can be lost, come from
    a gateway, or never be heard (apps/driver/lib/actionQueue.ts, syncClient.ts, authClient.ts). */
module QueueProtocol {
  import opened Prelude
  import opened MediaSubstitution
  import opened ActionQueue

  /** What is queued, whatever was charged on it since. */
  function Item(a: QueuedAction): QueuedAction {
    a.(attempts := 0)
  }

  /** What the driver submitted, whenever it was stored. */
  function Content(a: QueuedAction): QueuedAction {
    a.(attempts := 0, queuedAt := 0)
  }

  // ---------------------------------------------------------------------
  // Operations
  // ---------------------------------------------------------------------

  datatype Verdict = Accept | Reject

  /** What a running `sendOrQueue` or flush waits for. */
  datatype Phase =
    | Opening                                           // store.all()
    | Ready                                             // about to upload or send
    | Uploading
    | Uploaded                                          // a flush's photo is up, about to send
    | InFlight(verdict: Option<Verdict>)                // request sent; the server's decision, once made
    | Landing(to: string, row: Option<QueuedAction>)    // store.put(row), or store.remove

  datatype Kind = Live | Replay

  /** `owner` is the token at the start, `key` the database `store.all()` was asked for. */
  datatype Op = Op(kind: Kind, owner: Option<string>, key: string, queue: seq<QueuedAction>, index: nat, phase: Phase)

  predicate Engaged(op: Op) {
    !op.phase.Opening? && op.index < |op.queue|
  }

  function Current(op: Op): QueuedAction
    requires Engaged(op)
  {
    op.queue[op.index]
  }

  predicate WantsUpload(op: Op) {
    Engaged(op) && op.phase.Ready? && Current(op).blob.Some?
  }

  predicate WantsSend(op: Op) {
    Engaged(op) && (op.phase.Uploaded? || (op.phase.Ready? && Current(op).blob.None?))
  }

  // ---------------------------------------------------------------------
  // What has happened so far
  // ---------------------------------------------------------------------

  /** A live send put `item` into database `key`. */
  datatype Entry = Entry(key: string, item: QueuedAction)

  datatype Author = Author(content: QueuedAction, driver: Option<string>)

  datatype Contact = Contact(content: QueuedAction, bearer: string)

  /** The server's first acceptance of an id, and what flushes had given up by then. */
  datatype Application = Application(
    item: QueuedAction, kind: Kind, key: string, givenUp: set<QueuedAction>, displaced: set<Entry>)

  datatype Facts = Facts(
    // the server: the ids it has accepted, its first acceptances, and what it decided on
    seen: set<string>,
    applied: seq<Application>,
    accepted: set<QueuedAction>,
    rejected: set<QueuedAction>,
    // why flushes gave items up
    refused: set<QueuedAction>,       // the server's no was heard
    errored: set<QueuedAction>,       // an error that is neither the server's no nor a connectivity failure
    overBudget: set<QueuedAction>,
    signedOut: set<QueuedAction>,     // tried with no token
    // rows another row of the same id pushed out: by a put over it, by a removal meant for the other
    superseded: set<Entry>,
    mistaken: set<Entry>,
    failures: map<QueuedAction, nat>,
    entered: set<Entry>,
    late: set<string>,                // databases that were not entered in the order of the stamps
    authored: set<Author>,
    contacts: seq<Contact>)

  datatype State = State(
    token: Option<string>,
    dbs: Databases,
    ops: map<nat, Op>,
    f: Facts,
    quiet: bool,      // nobody signed in while a send or flush was running
    covered: bool)    // no flush started signed out, and the token was not cleared while one was running

  const NOTHING: Facts := Facts({}, [], {}, {}, {}, {}, {}, {}, {}, {}, map[], {}, {}, {}, [])

  function Initial(token: Option<string>): State {
    State(token, map[], map[], NOTHING, true, true)
  }

  predicate Stored(dbs: Databases, e: Entry) {
    e.item.id in Db(dbs, e.key) && Item(Db(dbs, e.key)[e.item.id]) == e.item
  }

  function FailuresOf(f: Facts, item: QueuedAction): nat {
    if item in f.failures then f.failures[item] else 0
  }

  function GivenUp(f: Facts): set<QueuedAction> {
    f.refused + f.errored + f.overBudget + f.signedOut
  }

  function Displaced(f: Facts): set<Entry> {
    f.superseded + f.mistaken
  }

  predicate Done(f: Facts, item: QueuedAction) {
    item in f.accepted || item in GivenUp(f)
  }

  predicate Settled(f: Facts, e: Entry) {
    Done(f, e.item) || e in Displaced(f)
  }

  // ---------------------------------------------------------------------
  // Steps
  // ---------------------------------------------------------------------

  datatype UploadReply = MediaStored(media: string) | UploadLost | UploadExpired | UploadFailed

  /** `SendFailed` is any other error: a gateway's answer, a body that does not parse. */
  datatype SendReply = Heard | SendLost | SendExpired | SendFailed

  datatype Step =
    | SignIn(driver: string)
    | SignOut
    | StartSend(op: nat, action: QueuedAction)
    | StartFlush(op: nat)
    | ReadStore(op: nat, snapshot: seq<QueuedAction>, online: bool)
    | NotLoggedIn(op: nat)
    | UploadStarts(op: nat)
    | UploadEnds(op: nat, uploadReply: UploadReply, now: int)
    | SendStarts(op: nat)
    | ServerDecides(op: nat, verdict: Verdict)
    | SendEnds(op: nat, sendReply: SendReply, now: int)
    | Lands(op: nat)

  ghost predicate Enabled(s: State, step: Step) {
    match step
    case SignIn(_) => true
    case SignOut => true
    case StartSend(o, _) => o !in s.ops
    case StartFlush(o) => o !in s.ops
    case ReadStore(o, snapshot, _) =>
      o in s.ops && s.ops[o].phase.Opening? && IsReplayOrder(snapshot, Db(s.dbs, s.ops[o].key))
    case NotLoggedIn(o) => o in s.ops && (WantsUpload(s.ops[o]) || WantsSend(s.ops[o])) && s.token.None?
    case UploadStarts(o) => o in s.ops && WantsUpload(s.ops[o]) && s.token.Some?
    case UploadEnds(o, _, _) => o in s.ops && Engaged(s.ops[o]) && s.ops[o].phase.Uploading?
    case SendStarts(o) => o in s.ops && WantsSend(s.ops[o]) && s.token.Some?
    case ServerDecides(o, _) => o in s.ops && Engaged(s.ops[o]) && s.ops[o].phase == InFlight(None)
    case SendEnds(o, reply, _) =>
      && o in s.ops && Engaged(s.ops[o]) && s.ops[o].phase.InFlight?
      && (reply.Heard? ==> s.ops[o].phase.verdict.Some?)
      && (reply.SendExpired? ==> s.ops[o].phase.verdict.None?)
    case Lands(o) => o in s.ops && Engaged(s.ops[o]) && s.ops[o].phase.Landing?
  }

  /** What a step makes of its operation (None: it is over) and of the facts; `cleared`: it met a 401. */
  datatype Outcome = Outcome(next: Option<Op>, f: Facts, cleared: bool)

  function To(op: Op, phase: Phase, f: Facts): Outcome {
    Outcome(Some(op.(phase := phase)), f, false)
  }

  /** The current action is over for this operation: a live send returns or throws, a flush removes the row. */
  function Concludes(op: Op, token: Option<string>, f: Facts): Outcome {
    if op.kind.Live? then Outcome(None, f, false) else To(op, Landing(Key(token), None), f)
  }

  function Charge(f: Facts, item: QueuedAction): Facts {
    f.(failures := f.failures[item := FailuresOf(f, item) + 1])
  }

  /** A connectivity failure: a live send stamps its action and stores it; a flush charges its row, or
      removes it at the limit. The database is named now. */
  function Fails(op: Op, token: Option<string>, f: Facts, now: int): Outcome
    requires Engaged(op)
  {
    var a := Current(op);
    if op.kind.Live? then To(op, Landing(Key(token), Some(a.(queuedAt := now))), f)
    else
      var f1 := Charge(f, Item(a));
      if a.attempts + 1 >= MAX_ATTEMPTS
      then To(op, Landing(Key(token), None), f1.(overBudget := f1.overBudget + {Item(a)}))
      else To(op, Landing(Key(token), Some(Charged(a))), f1)
  }

  /** A 401: the token goes first. */
  function Expires(op: Op, f: Facts, now: int): Outcome
    requires Engaged(op)
  {
    Fails(op, None, f, now).(cleared := true)
  }

  /** Any other error. A live send throws it. */
  function Errs(op: Op, token: Option<string>, f: Facts): Outcome
    requires Engaged(op)
  {
    Concludes(op, token, if op.kind.Live? then f else f.(errored := f.errored + {Item(Current(op))}))
  }

  function Refused(op: Op, token: Option<string>, f: Facts): Outcome
    requires Engaged(op)
  {
    Concludes(op, token, if op.kind.Live? then f else f.(refused := f.refused + {Item(Current(op))}))
  }

  function Drops(op: Op, token: Option<string>, f: Facts): Outcome
    requires Engaged(op)
  {
    Concludes(op, token, if op.kind.Live? then f else f.(signedOut := f.signedOut + {Item(Current(op))}))
  }

  function Opens(op: Op, snapshot: seq<QueuedAction>, online: bool, f: Facts): Outcome {
    if snapshot == [] || !online then Outcome(None, f, false)
    else Outcome(Some(op.(queue := snapshot, index := 0, phase := Ready)), f, false)
  }

  function Touch(f: Facts, a: QueuedAction, token: Option<string>): Facts
    requires token.Some?
  {
    f.(contacts := f.contacts + [Contact(Content(a), token.value)])
  }

  /** The live send's body once its photo is up. */
  function Resolved(a: QueuedAction, media: string): QueuedAction
    requires a.blob.Some?
  {
    a.(body := Substitute(a.body, a.blob.value.placeholder, media), blob := None)
  }

  function PhotoUp(op: Op, media: string, f: Facts): Outcome
    requires Engaged(op)
  {
    var a := Current(op);
    if op.kind.Replay? || a.blob.None? then To(op, Uploaded, f)
    else
      var b := Resolved(a, media);
      Outcome(Some(op.(queue := [b], index := 0, phase := Ready)),
              f.(authored := f.authored + {Author(Content(b), op.owner)}), false)
  }

  function UploadSettles(op: Op, token: Option<string>, f: Facts, reply: UploadReply, now: int): Outcome
    requires Engaged(op)
  {
    match reply
    case MediaStored(media) => PhotoUp(op, media, f)
    case UploadLost => Fails(op, token, f, now)
    case UploadExpired => Expires(op, f, now)
    case UploadFailed => Errs(op, token, f)
  }

  /** The server's decision; a second acceptance of an id applies nothing. */
  function Decides(op: Op, f: Facts, verdict: Verdict): Facts
    requires Engaged(op)
  {
    var a := Current(op);
    if verdict.Reject? then f.(rejected := f.rejected + {Item(a)})
    else
      var f1 := f.(accepted := f.accepted + {Item(a)});
      if a.id in f.seen then f1
      else
        f1.(seen := f.seen + {a.id},
            applied := f.applied + [Application(Item(a), op.kind, op.key, GivenUp(f), Displaced(f))])
  }

  function SendSettles(op: Op, token: Option<string>, f: Facts, reply: SendReply, now: int): Outcome
    requires Engaged(op) && op.phase.InFlight? && (reply.Heard? ==> op.phase.verdict.Some?)
  {
    match reply
    case Heard => if op.phase.verdict.value.Accept? then Concludes(op, token, f) else Refused(op, token, f)
    case SendLost => Fails(op, token, f, now)
    case SendExpired => Expires(op, f, now)
    case SendFailed => Errs(op, token, f)
  }

  predicate Acts(step: Step) {
    !(step.SignIn? || step.SignOut? || step.StartSend? || step.StartFlush? || step.Lands?)
  }

  function OutcomeOf(s: State, step: Step): Outcome
    requires Acts(step) && Enabled(s, step)
  {
    var op := s.ops[step.op];
    match step
    case ReadStore(_, snapshot, online) => Opens(op, snapshot, online, s.f)
    case NotLoggedIn(_) => Drops(op, None, s.f)
    case UploadStarts(_) => To(op, Uploading, Touch(s.f, Current(op), s.token))
    case UploadEnds(_, reply, now) => UploadSettles(op, s.token, s.f, reply, now)
    case SendStarts(_) => To(op, InFlight(None), Touch(s.f, Current(op), s.token))
    case ServerDecides(_, verdict) => To(op, InFlight(Some(verdict)), Decides(op, s.f, verdict))
    case SendEnds(_, reply, now) => SendSettles(op, s.token, s.f, reply, now)
    case _ => Outcome(Some(op), s.f, false)
  }

  ghost predicate Flushing(s: State) {
    exists o | o in s.ops :: s.ops[o].kind.Replay?
  }

  function Become(ops: map<nat, Op>, o: nat, next: Option<Op>): map<nat, Op> {
    if next.Some? then ops[o := next.value] else ops - {o}
  }

  ghost function Act(s: State, o: nat, out: Outcome): State {
    State(if out.cleared then None else s.token, s.dbs, Become(s.ops, o, out.next), out.f, s.quiet,
          s.covered && !(out.cleared && Flushing(s)))
  }

  // ---------------------------------------------------------------------
  // Landing in the store
  // ---------------------------------------------------------------------

  /** The row of another item that a put or removal at `key` takes away. */
  function Victim(dbs: Databases, key: string, item: QueuedAction): set<Entry> {
    if item.id in Db(dbs, key) && Item(Db(dbs, key)[item.id]) != item then {Entry(key, Item(Db(dbs, key)[item.id]))}
    else {}
  }

  function Next(op: Op): Option<Op> {
    if op.index + 1 < |op.queue| then Some(op.(index := op.index + 1, phase := Ready)) else None
  }

  /** A row enters a database behind a younger one, or its item has entered one before. */
  ghost predicate IsLate(f: Facts, key: string, row: QueuedAction) {
    exists e | e in f.entered :: (e.key == key && e.item.queuedAt >= row.queuedAt) || e.item == Item(row)
  }

  function Removes(s: State, o: nat): State
    requires o in s.ops && Engaged(s.ops[o]) && s.ops[o].phase.Landing?
  {
    var op := s.ops[o];
    var item := Item(Current(op));
    s.(dbs := Delete(s.dbs, op.phase.to, item.id), ops := Become(s.ops, o, Next(op)),
       f := s.f.(mistaken := s.f.mistaken + Victim(s.dbs, op.phase.to, item)))
  }

  function PutsBack(s: State, o: nat, row: QueuedAction): State
    requires o in s.ops && s.ops[o].phase.Landing?
  {
    var key := s.ops[o].phase.to;
    s.(dbs := Put(s.dbs, key, row), ops := s.ops - {o},
       f := s.f.(superseded := s.f.superseded + Victim(s.dbs, key, Item(row))))
  }

  ghost function Enters(s: State, o: nat, row: QueuedAction): State
    requires o in s.ops && s.ops[o].phase.Landing?
  {
    var key, t := s.ops[o].phase.to, PutsBack(s, o, row);
    t.(f := t.f.(entered := s.f.entered + {Entry(key, Item(row))},
                 late := s.f.late + if IsLate(s.f, key, row) then {key} else {}))
  }

  ghost function Land(s: State, o: nat): State
    requires o in s.ops && Engaged(s.ops[o]) && s.ops[o].phase.Landing?
  {
    var op := s.ops[o];
    if op.phase.row.None? then Removes(s, o)
    else if op.kind.Replay? then PutsBack(s, o, op.phase.row.value)
    else Enters(s, o, op.phase.row.value)
  }

  // ---------------------------------------------------------------------
  // All steps
  // ---------------------------------------------------------------------

  function Signs(s: State, driver: string): State {
    s.(token := Some(driver), quiet := s.quiet && s.ops == map[])
  }

  ghost function SignsOut(s: State): State {
    s.(token := None, covered := s.covered && !Flushing(s))
  }

  function BeginsSend(s: State, o: nat, a: QueuedAction): State {
    s.(ops := s.ops[o := Op(Live, s.token, Key(s.token), [Item(a)], 0, Ready)],
       f := s.f.(authored := s.f.authored + {Author(Content(a), s.token)}))
  }

  function BeginsFlush(s: State, o: nat): State {
    s.(ops := s.ops[o := Op(Replay, s.token, Key(s.token), [], 0, Opening)], covered := s.covered && s.token.Some?)
  }

  ghost function Apply(s: State, step: Step): State
    requires Enabled(s, step)
  {
    match step
    case SignIn(driver) => Signs(s, driver)
    case SignOut => SignsOut(s)
    case StartSend(o, a) => BeginsSend(s, o, a)
    case StartFlush(o) => BeginsFlush(s, o)
    case Lands(o) => Land(s, o)
    case _ => Act(s, step.op, OutcomeOf(s, step))
  }
}
