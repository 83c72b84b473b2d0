/** A send that nothing interferes with is `sendOrQueue`, step by step and whatever the network answers. */
module SendRefinement {
  import opened Prelude
  import opened MediaSubstitution
  import opened ActionQueue
  import opened QueueProtocol
  import opened QueueRuns
  import opened QueueRefinement
  import opened FlushTally
  import F = FlushQueue

  // ---------------------------------------------------------------------
  // Runs of one send alone
  // ---------------------------------------------------------------------

  /** A failure's handler reads this time. */
  predicate AtTime(step: Step, now: int) {
    step.UploadEnds? || step.SendEnds? ==> step.now == now
  }

  predicate AllAtTime(steps: seq<Step>, now: int) {
    forall i :: 0 <= i < |steps| ==> AtTime(steps[i], now)
  }

  /** The whole run of a send `o` of action `a`, from its start to its end. */
  ghost predicate LoneSend(s: State, o: nat, steps: seq<Step>, a: QueuedAction, reply: F.Attempt, now: int) {
    && ValidRun(s, steps) && steps != [] && steps[0] == StartSend(o, a) && AllAtTime(steps, now)
    && Alone(Apply(s, steps[0]), o, steps[1..], _ => reply, true)
    && o !in After(s, steps).ops
  }

  /** Send `o` is under way, as `reply` has it so far. */
  predicate Sending(s: State, o: nat, reply: F.Attempt) {
    && o in s.ops && s.ops[o].kind.Live? && |s.ops[o].queue| == 1 && s.ops[o].index == 0
    && var a := s.ops[o].queue[0];
      match s.ops[o].phase
      case Opening => false
      case Uploaded => false
      case Ready => true
      case Uploading => s.token.Some? && a.blob.Some?
      case InFlight(verdict) =>
        s.token.Some? && a.blob.None? && (verdict.Some? ==> MayDecide(reply.send, verdict.value))
      case Landing(_, row) => row.Some?
  }

  /** The action that is stored if the send fails on connectivity. */
  function Unsent(a: QueuedAction, reply: F.Attempt, now: int): QueuedAction {
    (if a.blob.Some? && reply.upload.Answered? then Resolved(a, reply.upload.value) else a).(queuedAt := now)
  }

  function SentOrStored(d: F.Device, a: QueuedAction, reply: F.Attempt, now: int): F.Device {
    var failure := F.TryFails(d.token, a.blob.Some?, reply);
    var token := F.TokenAfter(d.token, failure);
    if failure.Some? && F.IsConnectivity(failure.value)
    then F.Device(token, Put(d.dbs, Key(token), Unsent(a, reply, now)))
    else F.Device(token, d.dbs)
  }

  /** The device when the send is through. */
  function SendGoal(s: State, o: nat, reply: F.Attempt, now: int): F.Device
    requires o in s.ops ==> Sending(s, o, reply)
  {
    if o !in s.ops then Dev(s)
    else
      match s.ops[o].phase
      case Landing(to, row) => F.Device(s.token, Put(s.dbs, to, row.value))
      case _ => SentOrStored(Dev(s), s.ops[o].queue[0], reply, now)
  }

  /** The send goes on, to the same end, or is over there. */
  ghost predicate LeadsOn(s: State, t: State, o: nat, reply: F.Attempt, now: int)
    requires Sending(s, o, reply)
  {
    (o in t.ops ==> Sending(t, o, reply)) && SendGoal(t, o, reply, now) == SendGoal(s, o, reply, now)
  }

  lemma UploadEndLeadsOn(s: State, o: nat, step: Step, reply: F.Attempt, now: int)
    requires Sending(s, o, reply) && Enabled(s, step) && step.UploadEnds? && step.op == o && AtTime(step, now)
    requires AnswersUpload(reply.upload, step.uploadReply)
    ensures LeadsOn(s, Act(s, o, OutcomeOf(s, step)), o, reply, now)
  {
  }

  lemma SendEndLeadsOn(s: State, o: nat, step: Step, reply: F.Attempt, now: int)
    requires Sending(s, o, reply) && Enabled(s, step) && step.SendEnds? && step.op == o && AtTime(step, now)
    requires AnswersSend(reply.send, s.ops[o].phase.verdict, step.sendReply)
    ensures LeadsOn(s, Act(s, o, OutcomeOf(s, step)), o, reply, now)
  {
  }

  lemma SendStepLeadsOn(s: State, o: nat, step: Step, reply: F.Attempt, now: int)
    requires Sending(s, o, reply) && Enabled(s, step) && Follows(s, o, step, _ => reply, true) && AtTime(step, now)
    ensures LeadsOn(s, Apply(s, step), o, reply, now)
  {
    if step.UploadEnds? {
      UploadEndLeadsOn(s, o, step, reply, now);
    } else if step.SendEnds? {
      SendEndLeadsOn(s, o, step, reply, now);
    }
  }

  lemma {:induction false} SendLeadsTo(s: State, o: nat, steps: seq<Step>, reply: F.Attempt, now: int)
    requires (o in s.ops ==> Sending(s, o, reply)) && ValidRun(s, steps) && AllAtTime(steps, now)
    requires Alone(s, o, steps, _ => reply, true) && o !in After(s, steps).ops
    ensures Dev(After(s, steps)) == SendGoal(s, o, reply, now)
    decreases |steps|
  {
    if steps == [] {
    } else {
      assert o in s.ops;
      assert AtTime(steps[0], now);
      SendStepLeadsOn(s, o, steps[0], reply, now);
      hide Enabled, Apply, Follows, SendGoal, Sending;
      SendLeadsTo(Apply(s, steps[0]), o, steps[1..], reply, now);
    }
  }

  /** What the contract of `SendOrQueue` says of a device with a store. */
  function SentOrQueued(d: F.Device, path: string, body: Json, id: string, photo: Option<F.Photo>, reply: F.Attempt,
                        now: int): F.Device {
    var token := F.TokenAfter(d.token, F.TryFails(d.token, photo.Some?, reply));
    var kept := F.Keeps(d.token, path, body, id, photo, reply, now, true);
    F.Device(token, if kept.Some? then Put(d.dbs, Key(token), kept.value) else d.dbs)
  }

  lemma SubmittedIsKept(d: F.Device, path: string, body: Json, id: string, photo: Option<F.Photo>, reply: F.Attempt,
                        now: int)
    ensures SentOrStored(d, Submitted(path, body, id, photo), reply, now) ==
      SentOrQueued(d, path, body, id, photo, reply, now)
  {
  }

  /** Every run of one send alone, photo or not, from any state and with whatever answers, leaves the token and every
      database as `sendOrQueue` does under the same answers. */
  lemma LoneSendIsSendOrQueue(s: State, o: nat, steps: seq<Step>, path: string, body: Json, id: string,
                              photo: Option<F.Photo>, reply: F.Attempt, now: int)
    requires o !in s.ops && LoneSend(s, o, steps, Submitted(path, body, id, photo), reply, now)
    ensures Dev(After(s, steps)) == SentOrQueued(Dev(s), path, body, id, photo, reply, now)
  {
    var a := Submitted(path, body, id, photo);
    var s1 := BeginsSend(s, o, a);
    assert s1 == Apply(s, steps[0]) && Sending(s1, o, reply) && Item(a) == a;
    assert After(s, steps) == After(s1, steps[1..]);
    SubmittedIsKept(Dev(s), path, body, id, photo, reply, now);
    assert SendGoal(s1, o, reply, now) == SentOrStored(Dev(s), a, reply, now);
    hide Enabled, Apply, Follows, SendGoal, Sending, SentOrStored, SentOrQueued;
    SendLeadsTo(s1, o, steps[1..], reply, now);
  }

  // ---------------------------------------------------------------------
  // There is such a run for every network
  // ---------------------------------------------------------------------

  function NextSendStep(s: State, o: nat, reply: F.Attempt, now: int): Step
    requires Sending(s, o, reply)
  {
    match s.ops[o].phase
    case Uploading => UploadEnds(o, Uploads(reply.upload), now)
    case InFlight(None) =>
      if reply.send.Answered? then ServerDecides(o, Accept) else SendEnds(o, Sends(reply.send), now)
    case InFlight(Some(_)) => SendEnds(o, Sends(reply.send), now)
    case Landing(_, _) => Lands(o)
    case _ =>
      if s.token.None? then NotLoggedIn(o)
      else if s.ops[o].queue[0].blob.Some? then UploadStarts(o)
      else SendStarts(o)
  }

  function SendToGo(op: Op): nat
    requires |op.queue| == 1
  {
    (if op.queue[0].blob.Some? && !op.phase.Landing? then 6 else 0) + Rank(op.phase)
  }

  lemma NextSendFollows(s: State, o: nat, reply: F.Attempt, now: int)
    requires Sending(s, o, reply)
    ensures var step := NextSendStep(s, o, reply, now);
      Enabled(s, step) && Follows(s, o, step, _ => reply, true) && AtTime(step, now)
  {
  }

  lemma NextSendAdvances(s: State, o: nat, reply: F.Attempt, now: int)
    requires Sending(s, o, reply) && Enabled(s, NextSendStep(s, o, reply, now))
    ensures var t := Apply(s, NextSendStep(s, o, reply, now));
      o in t.ops && |t.ops[o].queue| == 1 ==> SendToGo(t.ops[o]) < SendToGo(s.ops[o])
  {
    if s.ops[o].phase.Uploading? || s.ops[o].phase.InFlight? {
    } else {
    }
  }

  lemma {:induction false} SendFinishes(s: State, o: nat, reply: F.Attempt, now: int) returns (steps: seq<Step>)
    requires Sending(s, o, reply)
    ensures ValidRun(s, steps) && Alone(s, o, steps, _ => reply, true) && AllAtTime(steps, now)
    ensures o !in After(s, steps).ops
    decreases SendToGo(s.ops[o])
  {
    var step := NextSendStep(s, o, reply, now);
    NextSendFollows(s, o, reply, now);
    NextSendAdvances(s, o, reply, now);
    SendStepLeadsOn(s, o, step, reply, now);
    hide NextSendStep, Enabled, Apply, Follows, SendGoal;
    var t := Apply(s, step);
    var rest := [];
    if o in t.ops {
      rest := SendFinishes(t, o, reply, now);
    }
    steps := [step] + rest;
    assert steps[1..] == rest;
  }

  /** Whatever the answers, a send left alone comes to an end. */
  lemma LoneSendFinishes(s: State, o: nat, path: string, body: Json, id: string, photo: Option<F.Photo>,
                         reply: F.Attempt, now: int) returns (steps: seq<Step>)
    requires o !in s.ops
    ensures LoneSend(s, o, steps, Submitted(path, body, id, photo), reply, now)
  {
    var begin := StartSend(o, Submitted(path, body, id, photo));
    var s1 := Apply(s, begin);
    var rest := SendFinishes(s1, o, reply, now);
    steps := [begin] + rest;
    assert steps[1..] == rest;
  }
}
