/** A flush that nothing interferes with is `flushQueue`, step by step and whatever the network answers. */
module QueueRefinement {
  import opened Prelude
  import opened ActionQueue
  import opened QueueProtocol
  import opened QueueSafety
  import opened QueueRuns
  import opened Draining
  import F = FlushQueue

  // ---------------------------------------------------------------------
  // Runs of one flush alone, under a given network
  // ---------------------------------------------------------------------

  predicate AnswersUpload(reply: F.Reply<string>, given: UploadReply) {
    match reply
    case Answered(media) => given == MediaStored(media)
    case Expired => given.UploadExpired?
    case Threw(message) => if IsConnectivityFailure(message) then given.UploadLost? else given.UploadFailed?
  }

  predicate AnswersSend(reply: F.Reply<()>, verdict: Option<Verdict>, given: SendReply) {
    match reply
    case Answered(_) => given.Heard? && verdict == Some(Accept)
    case Expired => given.SendExpired?
    case Threw(message) =>
      if IsConnectivityFailure(message) then given.SendLost?
      else given.SendFailed? || (given.Heard? && verdict == Some(Reject))
  }

  predicate MayDecide(reply: F.Reply<()>, verdict: Verdict) {
    !reply.Expired? && (reply.Answered? ==> verdict.Accept?)
  }

  /** A step of flush `o` that gets the answers `net` has in store. */
  ghost predicate Follows(s: State, o: nat, step: Step, net: F.Network, online: bool)
    requires Enabled(s, step)
  {
    (Acts(step) || step.Lands?) && step.op == o &&
    match step
    case ReadStore(_, _, isOnline) => isOnline == online
    case UploadEnds(_, reply, _) => AnswersUpload(net(Current(s.ops[o]).id).upload, reply)
    case ServerDecides(_, verdict) => MayDecide(net(Current(s.ops[o]).id).send, verdict)
    case SendEnds(_, reply, _) => AnswersSend(net(Current(s.ops[o]).id).send, s.ops[o].phase.verdict, reply)
    case _ => true
  }

  ghost predicate Alone(s: State, o: nat, steps: seq<Step>, net: F.Network, online: bool)
    requires ValidRun(s, steps)
    decreases |steps|
  {
    steps == [] || (Follows(s, o, steps[0], net, online) && Alone(Apply(s, steps[0]), o, steps[1..], net, online))
  }

  /** The whole run of flush `o`, from its start to its end. */
  ghost predicate LoneFlush(s: State, o: nat, steps: seq<Step>, net: F.Network, online: bool) {
    && ValidRun(s, steps) && steps != [] && steps[0] == StartFlush(o)
    && Alone(Apply(s, steps[0]), o, steps[1..], net, online)
    && o !in After(s, steps).ops
  }

  // ---------------------------------------------------------------------
  // What a flush in progress leads to
  // ---------------------------------------------------------------------

  function Dev(s: State): F.Device {
    F.Device(s.token, s.dbs)
  }

  predicate Fits(token: Option<string>, a: QueuedAction, phase: Phase, t: F.Attempt) {
    match phase
    case Opening => false
    case Ready => true
    case Uploading => token.Some? && a.blob.Some?
    case Uploaded => token.Some? && a.blob.Some? && t.upload.Answered?
    case InFlight(verdict) =>
      && token.Some? && (a.blob.Some? ==> t.upload.Answered?)
      && (verdict.Some? ==> MayDecide(t.send, verdict.value))
    case Landing(_, _) => true
  }

  /** Flush `o` is under way, as `net` answered so far. */
  predicate Runs(s: State, o: nat, net: F.Network) {
    && o in s.ops && s.ops[o].kind.Replay? && Engaged(s.ops[o])
    && Fits(s.token, Current(s.ops[o]), s.ops[o].phase, net(Current(s.ops[o]).id))
  }

  /** The device when the flush is through. */
  function LeadsTo(d: F.Device, op: Op, net: F.Network): F.Device
    requires Engaged(op)
  {
    match op.phase
    case Landing(to, Some(row)) => F.Device(d.token, Put(d.dbs, to, row))
    case Landing(to, None) =>
      F.Walk(F.Device(d.token, Delete(d.dbs, to, Current(op).id)), op.queue[op.index + 1..], net).device
    case _ => F.Walk(d, op.queue[op.index..], net).device
  }

  function Goal(s: State, o: nat, net: F.Network): F.Device
    requires o in s.ops ==> Engaged(s.ops[o])
  {
    if o in s.ops then LeadsTo(Dev(s), s.ops[o], net) else Dev(s)
  }

  lemma WalkFrom(d: F.Device, q: seq<QueuedAction>, index: nat, net: F.Network)
    requires index < |q|
    ensures var t := net(q[index].id); var e := F.AfterTry(d, q[index], t);
      F.Walk(d, q[index..], net).device ==
        if F.Stalls(d.token, q[index], t) then e else F.Walk(e, q[index + 1..], net).device
  {
    assert q[index..][0] == q[index] && q[index..][1..] == q[index + 1..];
  }

  // ---------------------------------------------------------------------
  // One step
  // ---------------------------------------------------------------------

  /** The outcome of a try: what is about to land is what the try does to the device. */
  predicate SettlesTry(op: Op, token: Option<string>, out: Outcome, t: F.Attempt)
    requires Engaged(op)
  {
    var failure := F.RowFails(token, Current(op), t);
    var later := F.TokenAfter(token, failure);
    var row := if F.Stalls(token, Current(op), t) then Some(Charged(Current(op))) else None;
    && out.next == Some(op.(phase := Landing(Key(later), row)))
    && (if out.cleared then None else token) == later
  }

  lemma UploadTry(op: Op, token: Option<string>, f: Facts, reply: UploadReply, now: int, t: F.Attempt)
    requires op.kind.Replay? && Engaged(op) && token.Some? && Current(op).blob.Some?
    requires AnswersUpload(t.upload, reply) && !reply.MediaStored?
    ensures SettlesTry(op, token, UploadSettles(op, token, f, reply, now), t)
  {
  }

  lemma SendTry(op: Op, token: Option<string>, f: Facts, reply: SendReply, now: int, t: F.Attempt)
    requires op.kind.Replay? && Engaged(op) && op.phase.InFlight? && Fits(token, Current(op), op.phase, t)
    requires (reply.Heard? ==> op.phase.verdict.Some?) && AnswersSend(t.send, op.phase.verdict, reply)
    ensures SettlesTry(op, token, SendSettles(op, token, f, reply, now), t)
  {
  }

  lemma SettledTryLeadsOn(s: State, o: nat, out: Outcome, net: F.Network)
    requires o in s.ops && Engaged(s.ops[o]) && !s.ops[o].phase.Landing?
    requires SettlesTry(s.ops[o], s.token, out, net(Current(s.ops[o]).id))
    ensures var t := Act(s, o, out); o in t.ops && Engaged(t.ops[o]) && Goal(t, o, net) == Goal(s, o, net)
  {
    var op := s.ops[o];
    WalkFrom(Dev(s), op.queue, op.index, net);
  }

  /** A step short of the answer keeps the goal. */
  lemma ActLeadsOn(s: State, o: nat, step: Step, net: F.Network, online: bool)
    requires Runs(s, o, net) && Acts(step) && Enabled(s, step) && Follows(s, o, step, net, online)
    ensures var t := Act(s, o, OutcomeOf(s, step)); Runs(t, o, net) && Goal(t, o, net) == Goal(s, o, net)
  {
    var op, out := s.ops[o], OutcomeOf(s, step);
    var t := net(Current(op).id);
    if step.NotLoggedIn? {
      assert SettlesTry(op, s.token, out, t);
      SettledTryLeadsOn(s, o, out, net);
    } else if step.UploadEnds? && !step.uploadReply.MediaStored? {
      UploadTry(op, s.token, s.f, step.uploadReply, step.now, t);
      SettledTryLeadsOn(s, o, out, net);
    } else if step.SendEnds? {
      SendTry(op, s.token, s.f, step.sendReply, step.now, t);
      SettledTryLeadsOn(s, o, out, net);
    }
  }

  lemma LandLeadsOn(s: State, o: nat, net: F.Network)
    requires Runs(s, o, net) && Enabled(s, Lands(o))
    ensures var t := Land(s, o); (o in t.ops ==> Runs(t, o, net)) && Goal(t, o, net) == Goal(s, o, net)
  {
    var op := s.ops[o];
    if op.phase.row.None? && op.index + 1 == |op.queue| {
      assert op.queue[op.index + 1..] == [];
    }
  }

  lemma StepLeadsOn(s: State, o: nat, step: Step, net: F.Network, online: bool)
    requires Runs(s, o, net) && Enabled(s, step) && Follows(s, o, step, net, online)
    ensures var t := Apply(s, step); (o in t.ops ==> Runs(t, o, net)) && Goal(t, o, net) == Goal(s, o, net)
  {
    if step.Lands? {
      LandLeadsOn(s, o, net);
    } else {
      ActLeadsOn(s, o, step, net, online);
    }
  }

  // ---------------------------------------------------------------------
  // All runs
  // ---------------------------------------------------------------------

  lemma {:induction false} RunLeadsTo(s: State, o: nat, steps: seq<Step>, net: F.Network, online: bool)
    requires (o in s.ops ==> Runs(s, o, net)) && ValidRun(s, steps) && Alone(s, o, steps, net, online)
    requires o !in After(s, steps).ops
    ensures Dev(After(s, steps)) == Goal(s, o, net)
    decreases |steps|
  {
    if steps == [] {
    } else {
      assert o in s.ops;
      StepLeadsOn(s, o, steps[0], net, online);
      hide Enabled, Apply, Follows, Goal, Runs;
      RunLeadsTo(Apply(s, steps[0]), o, steps[1..], net, online);
    }
  }

  /** What the whole flush makes of the device. */
  ghost function Flushed(s: State, net: F.Network, online: bool): F.Device
    requires Keyed(Db(s.dbs, Key(s.token)))
  {
    if online then F.Walk(Dev(s), ReplayOrder(Db(s.dbs, Key(s.token))), net).device else Dev(s)
  }

  predicate Waiting(s: State, o: nat) {
    o in s.ops && s.ops[o].kind.Replay? && s.ops[o].key == Key(s.token) && s.ops[o].phase.Opening?
  }

  lemma OpeningLeadsOn(s: State, o: nat, step: Step, net: F.Network, online: bool)
    requires Waiting(s, o) && Keyed(Db(s.dbs, Key(s.token)))
    requires Enabled(s, step) && Follows(s, o, step, net, online)
    ensures var t := Apply(s, step); (o in t.ops ==> Runs(t, o, net)) && Goal(t, o, net) == Flushed(s, net, online)
  {
    assert step.ReadStore?;
    var q, rows := step.snapshot, Db(s.dbs, Key(s.token));
    ReplayOrderUnique(q, ReplayOrder(rows), rows);
    assert q[0..] == q;
  }

  lemma WaitingLeadsTo(s: State, o: nat, steps: seq<Step>, net: F.Network, online: bool)
    requires Waiting(s, o) && Keyed(Db(s.dbs, Key(s.token)))
    requires ValidRun(s, steps) && Alone(s, o, steps, net, online) && o !in After(s, steps).ops
    ensures Dev(After(s, steps)) == Flushed(s, net, online)
  {
    assert steps != [];
    OpeningLeadsOn(s, o, steps[0], net, online);
    hide Enabled, Apply, Follows, Goal, Runs, Waiting, F.Walk;
    RunLeadsTo(Apply(s, steps[0]), o, steps[1..], net, online);
  }

  lemma KeyedRows(s: State, key: string)
    requires Inv(s)
    ensures Keyed(Db(s.dbs, key))
  {
    forall id | id in Db(s.dbs, key) ensures Db(s.dbs, key)[id].id == id {
      assert StoredIn(s.dbs, key, id);
    }
  }

  /** Every run of one flush alone, from any reachable state and with whatever answers, leaves the device as
      `flushQueue` does under the same answers. */
  lemma LoneFlushIsFlushQueue(token: Option<string>, history: seq<Step>, o: nat, steps: seq<Step>, net: F.Network,
                              online: bool)
    requires ValidRun(Initial(token), history)
    requires var s := After(Initial(token), history); o !in s.ops && LoneFlush(s, o, steps, net, online)
    ensures var s := After(Initial(token), history);
      Keyed(Db(s.dbs, Key(s.token))) && Dev(After(s, steps)) == Flushed(s, net, online)
  {
    var s := After(Initial(token), history);
    FromInitial(token, history);
    KeyedRows(s, Key(s.token));
    hide Inv;
    var s1 := BeginsFlush(s, o);
    assert s1 == Apply(s, steps[0]) && Waiting(s1, o) && Dev(s1) == Dev(s);
    assert After(s, steps) == After(s1, steps[1..]);
    WaitingLeadsTo(s1, o, steps[1..], net, online);
  }

  /** What such a run leaves in the signed-in driver's database: the rest of the queue from the first action that is
      not got past, its head charged if and only if no try is answered 401; the token is gone exactly otherwise. */
  lemma LoneFlushLeaves(token: Option<string>, history: seq<Step>, o: nat, steps: seq<Step>, net: F.Network,
                        driver: string, q: seq<QueuedAction>)
    requires ValidRun(Initial(token), history)
    requires var s := After(Initial(token), history);
      && s.token == Some(driver) && driver != "" && driver != ANONYMOUS && IsReplayOrder(q, Db(s.dbs, driver))
      && o !in s.ops && LoneFlush(s, o, steps, net, true)
    ensures var t := After(After(Initial(token), history), steps);
      && IsReplayOrder(Left(q, net), Db(t.dbs, driver))
      && (IsReplayOrder(ChargedRest(q, net), Db(t.dbs, driver)) <==> !EndsIn401(q, net))
      && (t.token == Some(driver) <==> !EndsIn401(q, net))
  {
    var s := After(Initial(token), history);
    LoneFlushIsFlushQueue(token, history, o, steps, net, true);
    ReplayOrderUnique(q, ReplayOrder(Db(s.dbs, driver)), Db(s.dbs, driver));
    hide LoneFlush, F.Walk, EndsIn401, Left, ChargedRest;
    FlushLeaves(Dev(s), q, net);
    HeadIsChargedIff(Dev(s), q, net);
  }

  // ---------------------------------------------------------------------
  // There is such a run for every network
  // ---------------------------------------------------------------------

  function Uploads(reply: F.Reply<string>): UploadReply {
    match reply
    case Answered(media) => MediaStored(media)
    case Expired => UploadExpired
    case Threw(message) => if IsConnectivityFailure(message) then UploadLost else UploadFailed
  }

  function Sends(reply: F.Reply<()>): SendReply {
    match reply
    case Answered(_) => Heard
    case Expired => SendExpired
    case Threw(message) => if IsConnectivityFailure(message) then SendLost else SendFailed
  }

  /** The next step of a flush under way. */
  function NextStep(s: State, o: nat, net: F.Network): Step
    requires Runs(s, o, net)
  {
    var a := Current(s.ops[o]);
    var t := net(a.id);
    match s.ops[o].phase
    case Uploading => UploadEnds(o, Uploads(t.upload), 0)
    case InFlight(None) => if t.send.Answered? then ServerDecides(o, Accept) else SendEnds(o, Sends(t.send), 0)
    case InFlight(Some(_)) => SendEnds(o, Sends(t.send), 0)
    case Landing(_, _) => Lands(o)
    case _ =>
      if s.token.None? then NotLoggedIn(o)
      else if s.ops[o].phase.Ready? && a.blob.Some? then UploadStarts(o)
      else SendStarts(o)
  }

  function Rank(phase: Phase): nat {
    match phase
    case Ready => 5
    case Uploading => 4
    case Uploaded => 3
    case InFlight(None) => 2
    case InFlight(Some(_)) => 1
    case _ => 0
  }

  function ToGo(op: Op): nat
    requires Engaged(op)
  {
    6 * (|op.queue| - op.index) + Rank(op.phase)
  }

  lemma NextStepFollows(s: State, o: nat, net: F.Network)
    requires Runs(s, o, net)
    ensures Enabled(s, NextStep(s, o, net)) && Follows(s, o, NextStep(s, o, net), net, true)
  {
  }

  lemma NextOutcome(s: State, o: nat, net: F.Network)
    requires Runs(s, o, net) && !s.ops[o].phase.Landing? && Enabled(s, NextStep(s, o, net))
    ensures var out, op := OutcomeOf(s, NextStep(s, o, net)), s.ops[o];
      out.next.Some? && out.next.value == op.(phase := out.next.value.phase) &&
        Rank(out.next.value.phase) < Rank(op.phase)
  {
    var op, step := s.ops[o], NextStep(s, o, net);
    var t := net(Current(op).id);
    if step.UploadEnds? && !t.upload.Answered? {
      UploadTry(op, s.token, s.f, Uploads(t.upload), 0, t);
    } else if step.SendEnds? {
      SendTry(op, s.token, s.f, Sends(t.send), 0, t);
    }
  }

  lemma LandAdvances(s: State, o: nat)
    requires o in s.ops && s.ops[o].kind.Replay? && Enabled(s, Lands(o))
    ensures var t := Land(s, o); o in t.ops ==> Engaged(t.ops[o]) && ToGo(t.ops[o]) < ToGo(s.ops[o])
  {
  }

  lemma NextStepAdvances(s: State, o: nat, net: F.Network)
    requires Runs(s, o, net) && Enabled(s, NextStep(s, o, net))
    ensures var t := Apply(s, NextStep(s, o, net)); o in t.ops ==> Engaged(t.ops[o]) && ToGo(t.ops[o]) < ToGo(s.ops[o])
  {
    if s.ops[o].phase.Landing? {
      LandAdvances(s, o);
      hide Land;
    } else {
      NextOutcome(s, o, net);
      hide OutcomeOf;
    }
  }

  lemma {:induction false} RunFinishes(s: State, o: nat, net: F.Network) returns (steps: seq<Step>)
    requires Runs(s, o, net)
    ensures ValidRun(s, steps) && Alone(s, o, steps, net, true) && o !in After(s, steps).ops
    decreases ToGo(s.ops[o])
  {
    var step := NextStep(s, o, net);
    NextStepFollows(s, o, net);
    NextStepAdvances(s, o, net);
    StepLeadsOn(s, o, step, net, true);
    hide NextStep, Enabled, Apply, Follows, Goal;
    var t := Apply(s, step);
    var rest := [];
    if o in t.ops {
      rest := RunFinishes(t, o, net);
    }
    steps := [step] + rest;
    assert steps[1..] == rest;
  }

  /** Whatever the answers, a flush left alone comes to an end. */
  lemma LoneFlushFinishes(token: Option<string>, history: seq<Step>, o: nat, net: F.Network) returns (steps: seq<Step>)
    requires ValidRun(Initial(token), history) && o !in After(Initial(token), history).ops
    ensures LoneFlush(After(Initial(token), history), o, steps, net, true)
  {
    var s := After(Initial(token), history);
    FromInitial(token, history);
    KeyedRows(s, Key(s.token));
    hide Inv;
    var begin := StartFlush(o);
    var s1 := Apply(s, begin);
    var rest := WaitingFinishes(s1, o, net);
    steps := [begin] + rest;
    assert steps[1..] == rest;
  }

  lemma WaitingFinishes(s: State, o: nat, net: F.Network) returns (steps: seq<Step>)
    requires Waiting(s, o) && Keyed(Db(s.dbs, Key(s.token)))
    ensures ValidRun(s, steps) && Alone(s, o, steps, net, true) && o !in After(s, steps).ops
  {
    var read := ReadStore(o, ReplayOrder(Db(s.dbs, Key(s.token))), true);
    OpeningLeadsOn(s, o, read, net, true);
    hide Enabled, Apply, Follows, Goal, Runs;
    var t := Apply(s, read);
    var rest := [];
    if o in t.ops {
      rest := RunFinishes(t, o, net);
    }
    steps := [read] + rest;
    assert steps[1..] == rest;
  }
}
