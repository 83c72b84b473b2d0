/** The storefront's session: many calls, one shared refresh, rotating tokens (apps/store/lib/authClient.ts). */
module StoreSession {
  // The server's rotation rule is that of services/api/src/routes/auth.ts:226-294.
  import opened Prelude

  /** An access and refresh token pair is known by the serial of the login or rotation that issued it. */
  type Serial = nat

  datatype Outcome = Renewed(token: Serial) | NoToken | NetworkError

  /** A `runRefresh`: its request is out, the server rotated or denied, or its promise is settled. */
  datatype Phase = Requested | Rotated(issued: Serial) | Denied | Finished(outcome: Outcome)

  datatype Refresh = Refresh(presented: Option<Serial>, phase: Phase)

  /** An `authedFetch`: first try, waiting for a refresh, second try. */
  datatype Call = Sent(bearer: Serial) | Waiting(run: nat) | Retrying(bearer: Serial, run: nat)

  /** A refresh token reached the server; whether it had been rotated, and that answer lost, by then. */
  datatype Presentation = Presentation(token: Serial, rotated: bool, lost: bool)

  /** What a refresh got back: a readable rotation, a refusal or another readable answer, something unreadable, or
      nothing at all. Without a stored token it asks for nothing. */
  datatype Reply = NoStoredToken | Rotation(issued: Serial) | Refusal | Unreadable | Nothing

  datatype State = State(
    access: Option<Serial>,      // localStorage
    refresh: Option<Serial>,     // localStorage
    inFlight: Option<nat>,       // refreshInFlight
    runs: map<nat, Refresh>,
    calls: map<nat, Call>,
    // the server
    nextSerial: Serial,
    family: map<Serial, Serial>,
    rotated: set<Serial>,
    revoked: set<Serial>,        // families
    thefts: set<Serial>,         // families revoked because a rotated token came back
    // history
    lost: set<Serial>,           // rotated tokens whose successor did not arrive
    presentations: seq<Presentation>,
    heard: map<nat, Reply>)      // what each finished refresh got back

  function Initial(): State {
    State(None, None, None, map[], map[], 0, map[], {}, {}, {}, {}, [], map[])
  }

  datatype Answer = Delivered | Dropped | Garbled

  datatype Step =
    | Login
    | Logout
    | ServerRevokes(serial: Serial)
    | StartCall(call: nat)
    | CallEnds(call: nat)
    | Unauthorized(call: nat, run: nat)
    | ServerRefreshes(run: nat, willing: bool)
    | RefreshEnds(run: nat, answer: Answer)
    | SlotClears(run: nat)
    | Resumes(call: nat)
    | RetryUnauthorized(call: nat)

  predicate Enabled(s: State, step: Step) {
    match step
    case Login => true
    case Logout => true
    case ServerRevokes(n) => n in s.family
    case StartCall(c) => c !in s.calls && s.access.Some?
    case CallEnds(c) => c in s.calls && !s.calls[c].Waiting?
    case Unauthorized(c, r) => c in s.calls && s.calls[c].Sent? && r !in s.runs
    case ServerRefreshes(r, _) => r in s.runs && s.runs[r].phase.Requested? && s.runs[r].presented.Some?
    case RefreshEnds(r, answer) =>
      && r in s.runs && !s.runs[r].phase.Finished?
      && (answer.Delivered? ==> !s.runs[r].phase.Requested?)
    case SlotClears(r) => s.inFlight == Some(r) && r in s.runs && s.runs[r].phase.Finished?
    case Resumes(c) =>
      && c in s.calls && s.calls[c].Waiting? && s.calls[c].run in s.runs
      && s.runs[s.calls[c].run].phase.Finished? && s.inFlight != Some(s.calls[c].run)
    case RetryUnauthorized(c) => c in s.calls && s.calls[c].Retrying?
  }

  function SetSession(s: State, n: Serial): State {
    s.(access := Some(n), refresh := Some(n))
  }

  function ClearTokens(s: State): State {
    s.(access := None, refresh := None)
  }

  function EndCall(s: State, c: nat): State {
    s.(calls := s.calls - {c})
  }

  function ReplyOf(phase: Phase, answer: Answer): Reply {
    match answer
    case Delivered => if phase.Rotated? then Rotation(phase.issued) else Refusal
    case Garbled => Unreadable
    case Dropped => Nothing
  }

  function Hears(s: State, r: nat, reply: Reply): State {
    s.(heard := s.heard[r := reply])
  }

  predicate StartsEmpty(s: State) {
    s.inFlight.None? && s.refresh.None?
  }

  /** `refreshAccessToken`: join the running refresh, or start one. Without a stored token it is null at once. */
  function Joins(s: State, c: nat, r: nat): State {
    if s.inFlight.Some? then s.(calls := s.calls[c := Waiting(s.inFlight.value)])
    else
      s.(inFlight := Some(r),
         runs := s.runs[r := Refresh(s.refresh, if s.refresh.Some? then Requested else Finished(NoToken))],
         calls := s.calls[c := Waiting(r)])
  }

  function SetPhase(s: State, r: nat, phase: Phase): State
    requires r in s.runs
  {
    s.(runs := s.runs[r := Refresh(s.runs[r].presented, phase)])
  }

  /** POST /auth/refresh: reuse of a rotated or revoked token revokes its family; otherwise rotate or refuse. */
  function Serves(s: State, r: nat, willing: bool): State
    requires r in s.runs && s.runs[r].presented.Some?
  {
    var p := s.runs[r].presented.value;
    var f := if p in s.family then s.family[p] else p;
    var s1 := s.(presentations := s.presentations + [Presentation(p, p in s.rotated, p in s.lost)]);
    if p in s.rotated then
      SetPhase(s1.(revoked := s.revoked + {f}, thefts := s.thefts + {f}), r, Denied)
    else if f in s.revoked || !willing then SetPhase(s1, r, Denied)
    else
      SetPhase(s1.(rotated := s.rotated + {p}, family := s.family[s.nextSerial := f], nextSerial := s.nextSerial + 1),
               r, Rotated(s.nextSerial))
  }

  /** `runRefresh` after its fetch: only a delivered rotation stores a session; any other answer is null. */
  function Ends(s: State, r: nat, answer: Answer): State
    requires r in s.runs
  {
    var run := s.runs[r];
    if answer.Delivered? && run.phase.Rotated? then
      SetPhase(SetSession(s, run.phase.issued), r, Finished(Renewed(run.phase.issued)))
    else
      var s1 := if run.phase.Rotated? && run.presented.Some? then s.(lost := s.lost + {run.presented.value}) else s;
      SetPhase(s1, r, Finished(if answer.Dropped? then NetworkError else NoToken))
  }

  function Wakes(s: State, c: nat, r: nat, outcome: Outcome): State {
    match outcome
    case Renewed(n) => s.(calls := s.calls[c := Retrying(n, r)])
    case NoToken => EndCall(ClearTokens(s), c)
    case NetworkError => EndCall(s, c)
  }

  function Apply(s: State, step: Step): State
    requires Enabled(s, step)
  {
    match step
    case Login =>
      SetSession(s, s.nextSerial).(family := s.family[s.nextSerial := s.nextSerial], nextSerial := s.nextSerial + 1)
    case Logout => ClearTokens(s)
    case ServerRevokes(n) => s.(revoked := s.revoked + {s.family[n]})
    case StartCall(c) => s.(calls := s.calls[c := Sent(s.access.value)])
    case CallEnds(c) => EndCall(s, c)
    case Unauthorized(c, r) => if StartsEmpty(s) then Hears(Joins(s, c, r), r, NoStoredToken) else Joins(s, c, r)
    case ServerRefreshes(r, willing) => Serves(s, r, willing)
    case RefreshEnds(r, answer) => Hears(Ends(s, r, answer), r, ReplyOf(s.runs[r].phase, answer))
    case SlotClears(_) => s.(inFlight := None)
    case Resumes(c) => Wakes(s, c, s.calls[c].run, s.runs[s.calls[c].run].phase.outcome)
    case RetryUnauthorized(c) => EndCall(ClearTokens(s), c)
  }

  // ---------------------------------------------------------------------
  // The invariant
  // ---------------------------------------------------------------------

  /** Both keys are absent, or they hold the two tokens of one login or rotation. */
  predicate Paired(s: State) {
    s.access == s.refresh
  }

  /** At most one refresh is under way, and it is the shared one. */
  ghost predicate SingleFlight(s: State) {
    && (s.inFlight.Some? ==> s.inFlight.value in s.runs)
    && (forall r :: r in s.runs && !s.runs[r].phase.Finished? ==> s.inFlight == Some(r) && s.runs[r].presented.Some?)
  }

  /** Every call that waits or retries belongs to a refresh, and retries with what that refresh returned. */
  ghost predicate Shared(s: State) {
    forall c :: c in s.calls ==>
      match s.calls[c]
      case Sent(_) => true
      case Waiting(r) => r in s.runs
      case Retrying(b, r) => r in s.runs && s.runs[r].phase == Finished(Renewed(b))
  }

  predicate RotatesNow(s: State, p: Serial) {
    && s.inFlight.Some? && s.inFlight.value in s.runs
    && s.runs[s.inFlight.value].phase.Rotated? && s.runs[s.inFlight.value].presented == Some(p)
  }

  /** The stored refresh token is live, unless its successor is on the way or was lost. */
  ghost predicate StoredIsLive(s: State) {
    s.refresh.Some? ==>
      && s.refresh.value < s.nextSerial
      && (s.refresh.value in s.rotated ==> s.refresh.value in s.lost || RotatesNow(s, s.refresh.value))
  }

  ghost predicate RunOk(s: State, run: Refresh) {
    match run.phase
    case Requested =>
      run.presented.Some? ==>
        run.presented.value < s.nextSerial && (run.presented.value in s.rotated ==> run.presented.value in s.lost)
    case Rotated(n) => n < s.nextSerial && n !in s.rotated && run.presented.Some? && run.presented.value in s.rotated
    case _ => true
  }

  ghost predicate RunsOk(s: State) {
    forall r :: r in s.runs ==> RunOk(s, s.runs[r])
  }

  /** A rotated token came back only after its own successor had been lost. */
  ghost predicate NoBlindReplay(s: State) {
    && (forall i :: 0 <= i < |s.presentations| ==> (s.presentations[i].rotated <==> s.presentations[i].lost))
    && s.lost <= s.rotated
    && (s.thefts != {} ==> s.lost != {})
    && (forall n :: n in s.rotated ==> n < s.nextSerial)
  }

  ghost predicate Inv(s: State) {
    Paired(s) && SingleFlight(s) && Shared(s) && StoredIsLive(s) && RunsOk(s) && NoBlindReplay(s)
  }

  lemma KeepsJoins(s: State, c: nat, r: nat)
    requires Inv(s) && r !in s.runs
    ensures Inv(Joins(s, c, r))
  {
  }

  lemma KeepsServes(s: State, r: nat, willing: bool)
    requires Inv(s) && r in s.runs && s.runs[r].phase.Requested? && s.runs[r].presented.Some?
    ensures Inv(Serves(s, r, willing))
  {
    assert RunOk(s, s.runs[r]);
  }

  lemma KeepsEnds(s: State, r: nat, answer: Answer)
    requires Inv(s) && r in s.runs && !s.runs[r].phase.Finished?
    requires answer.Delivered? ==> !s.runs[r].phase.Requested?
    ensures Inv(Ends(s, r, answer))
  {
    assert RunOk(s, s.runs[r]);
  }

  lemma KeepsWakes(s: State, c: nat, r: nat, outcome: Outcome)
    requires Inv(s) && c in s.calls && r in s.runs && s.runs[r].phase == Finished(outcome)
    ensures Inv(Wakes(s, c, r, outcome))
  {
  }

  lemma StepKeepsInv(s: State, step: Step)
    requires Inv(s) && Enabled(s, step)
    ensures Inv(Apply(s, step))
  {
    match step
    case Unauthorized(c, r) => KeepsJoins(s, c, r);
    case ServerRefreshes(r, willing) => KeepsServes(s, r, willing);
    case RefreshEnds(r, answer) => KeepsEnds(s, r, answer);
    case Resumes(c) => KeepsWakes(s, c, s.calls[c].run, s.runs[s.calls[c].run].phase.outcome);
    case _ =>
  }

  // ---------------------------------------------------------------------
  // Runs
  // ---------------------------------------------------------------------

  predicate ValidRun(s: State, steps: seq<Step>)
    decreases |steps|
  {
    steps == [] || (Enabled(s, steps[0]) && ValidRun(Apply(s, steps[0]), steps[1..]))
  }

  function After(s: State, steps: seq<Step>): State
    requires ValidRun(s, steps)
    decreases |steps|
  {
    if steps == [] then s else After(Apply(s, steps[0]), steps[1..])
  }

  lemma {:induction false} RunKeepsInv(s: State, steps: seq<Step>)
    requires Inv(s) && ValidRun(s, steps)
    ensures Inv(After(s, steps))
    decreases |steps|
  {
    if steps == [] {
    } else {
      StepKeepsInv(s, steps[0]);
      RunKeepsInv(Apply(s, steps[0]), steps[1..]);
    }
  }

  /** The server is shown a rotated refresh token exactly when the answer that carried that very
      token's successor had been lost before. */
  lemma RotatedTokenComesBackOnlyAfterLoss(steps: seq<Step>, i: nat)
    requires ValidRun(Initial(), steps)
    requires i < |After(Initial(), steps).presentations|
    ensures var p := After(Initial(), steps).presentations[i]; p.rotated <==> p.lost
  {
    RunKeepsInv(Initial(), steps);
  }

  /** Hence, with no answer lost: no rotated token is ever shown, and no family is revoked for theft. */
  lemma NoReplayWithoutLoss(steps: seq<Step>)
    requires ValidRun(Initial(), steps)
    requires After(Initial(), steps).lost == {}
    ensures var s := After(Initial(), steps);
      && (forall i :: 0 <= i < |s.presentations| ==> !s.presentations[i].rotated)
      && s.thefts == {}
  {
    RunKeepsInv(Initial(), steps);
    LossIsRecorded(Initial(), steps);
  }

  predicate LossesKnown(s: State) {
    forall i :: 0 <= i < |s.presentations| && s.presentations[i].lost ==> s.presentations[i].token in s.lost
  }

  lemma {:induction false} LossIsRecorded(s: State, steps: seq<Step>)
    requires ValidRun(s, steps) && LossesKnown(s)
    ensures LossesKnown(After(s, steps))
    decreases |steps|
  {
    if steps == [] {
    } else {
      LossIsRecorded(Apply(s, steps[0]), steps[1..]);
    }
  }

  /** The two keys always hold one pair, or nothing. */
  lemma KeysAreAlwaysPaired(steps: seq<Step>)
    requires ValidRun(Initial(), steps)
    ensures After(Initial(), steps).access == After(Initial(), steps).refresh
  {
    RunKeepsInv(Initial(), steps);
  }

  // ---------------------------------------------------------------------
  // When a session ends, and what replaces it
  // ---------------------------------------------------------------------

  predicate Tells(outcome: Outcome, reply: Reply) {
    match reply
    case Rotation(n) => outcome == Renewed(n)
    case Nothing => outcome.NetworkError?
    case _ => outcome.NoToken?
  }

  /** A refresh has finished exactly if it is known what it got back, and its outcome is that. */
  ghost predicate HeardOk(s: State) {
    && (forall r :: r in s.heard <==> r in s.runs && s.runs[r].phase.Finished?)
    && (forall r :: r in s.heard ==> Tells(s.runs[r].phase.outcome, s.heard[r]))
  }

  lemma HeardFrame(s: State, t: State)
    requires HeardOk(s) && t.runs == s.runs && t.heard == s.heard
    ensures HeardOk(t)
  {
  }

  lemma HeardGoesOn(s: State, t: State, r: nat, run: Refresh)
    requires HeardOk(s) && r !in s.heard && !run.phase.Finished?
    requires t.runs == s.runs[r := run] && t.heard == s.heard
    ensures HeardOk(t)
  {
    hide Tells;
  }

  lemma HeardEnds(s: State, t: State, r: nat, run: Refresh, reply: Reply)
    requires HeardOk(s) && run.phase.Finished? && Tells(run.phase.outcome, reply)
    requires t.runs == s.runs[r := run] && t.heard == s.heard[r := reply]
    ensures HeardOk(t)
  {
    hide Tells;
  }

  lemma JoinKeepsHeard(s: State, step: Step)
    requires HeardOk(s) && Enabled(s, step) && step.Unauthorized?
    ensures HeardOk(Apply(s, step))
  {
    var t, r := Apply(s, step), step.run;
    assert r !in s.heard;
    hide HeardOk;
    if s.inFlight.Some? { HeardFrame(s, t); }
    else if s.refresh.Some? { HeardGoesOn(s, t, r, Refresh(s.refresh, Requested)); }
    else { HeardEnds(s, t, r, Refresh(s.refresh, Finished(NoToken)), NoStoredToken); }
  }

  lemma EndKeepsHeard(s: State, step: Step)
    requires HeardOk(s) && Enabled(s, step) && step.RefreshEnds?
    ensures HeardOk(Apply(s, step))
  {
    hide HeardOk;
    var t, r := Apply(s, step), step.run;
    HeardEnds(s, t, r, t.runs[r], t.heard[r]);
  }

  lemma StepKeepsHeard(s: State, step: Step)
    requires HeardOk(s) && Enabled(s, step)
    ensures HeardOk(Apply(s, step))
  {
    if step.Unauthorized? {
      JoinKeepsHeard(s, step);
    } else if step.ServerRefreshes? {
      assert step.run !in s.heard;
      hide HeardOk;
      HeardGoesOn(s, Apply(s, step), step.run, Apply(s, step).runs[step.run]);
    } else if step.RefreshEnds? {
      EndKeepsHeard(s, step);
    } else {
      hide HeardOk;
      HeardFrame(s, Apply(s, step));
    }
  }

  lemma {:induction false} RunKeepsHeard(s: State, steps: seq<Step>)
    requires Inv(s) && HeardOk(s) && ValidRun(s, steps)
    ensures Inv(After(s, steps)) && HeardOk(After(s, steps))
    decreases |steps|
  {
    if steps == [] {
    } else {
      StepKeepsInv(s, steps[0]);
      StepKeepsHeard(s, steps[0]);
      RunKeepsHeard(Apply(s, steps[0]), steps[1..]);
    }
  }

  /** What its refresh got back ends the session: anything but a rotation, as long as it got something or had
      nothing to ask with. */
  predicate EndsSession(reply: Reply) {
    !reply.Rotation? && !reply.Nothing?
  }

  /** What the refresh that a waiting call shares got back. */
  predicate WakesTo(s: State, step: Step, reply: Reply) {
    && step.Resumes? && step.call in s.calls && s.calls[step.call].Waiting?
    && s.calls[step.call].run in s.heard && s.heard[s.calls[step.call].run] == reply
  }

  lemma StepEndsSessionIff(s: State, step: Step)
    requires HeardOk(s) && Enabled(s, step) && s.access.Some?
    ensures var t := Apply(s, step);
      t.access.None? && t.refresh.None? <==>
        step.Logout? || step.RetryUnauthorized? || exists reply :: EndsSession(reply) && WakesTo(s, step, reply)
  {
    if step.Resumes? {
      assert WakesTo(s, step, s.heard[s.calls[step.call].run]);
    } else {
      hide HeardOk, Tells;
    }
  }

  lemma StepLeavesOrStores(s: State, step: Step)
    requires HeardOk(s) && Paired(s) && Enabled(s, step) && Apply(s, step).access.Some?
    ensures var t := Apply(s, step);
      t.access == t.refresh ==
        if step.Login? then Some(s.nextSerial)
        else if step.RefreshEnds? && t.heard[step.run].Rotation? then Some(t.heard[step.run].issued)
        else s.access
  {
    hide HeardOk;
    if step.RefreshEnds? || step.Resumes? {
    } else {
    }
  }

  /** When a stored session ends, in every run: exactly when the customer signs out, or a call wakes up whose refresh
      had no stored token or got back anything but a rotation, or a call's second try is unauthorized. A refresh whose
      answer never arrived leaves the session alone. */
  lemma SessionEndsIff(steps: seq<Step>, step: Step)
    requires ValidRun(Initial(), steps) && Enabled(After(Initial(), steps), step)
    requires After(Initial(), steps).access.Some?
    ensures var s := After(Initial(), steps); var t := Apply(s, step);
      t.access.None? && t.refresh.None? <==>
        step.Logout? || step.RetryUnauthorized? || exists reply :: EndsSession(reply) && WakesTo(s, step, reply)
  {
    RunKeepsHeard(Initial(), steps);
    StepEndsSessionIff(After(Initial(), steps), step);
  }

  /** What is stored otherwise: a login's pair, or the pair of a rotation that arrived; nothing else changes it. */
  lemma SessionBecomes(steps: seq<Step>, step: Step)
    requires ValidRun(Initial(), steps) && Enabled(After(Initial(), steps), step)
    requires Apply(After(Initial(), steps), step).access.Some?
    ensures var s := After(Initial(), steps); var t := Apply(s, step);
      t.access == t.refresh ==
        if step.Login? then Some(s.nextSerial)
        else if step.RefreshEnds? && t.heard[step.run].Rotation? then Some(t.heard[step.run].issued)
        else s.access
  {
    RunKeepsHeard(Initial(), steps);
    StepLeavesOrStores(After(Initial(), steps), step);
  }

  /** What the waking call does: it tries again, with the rotation's token, if and only if there was one. */
  lemma WakingCallRetriesIff(steps: seq<Step>, c: nat)
    requires ValidRun(Initial(), steps) && Enabled(After(Initial(), steps), Resumes(c))
    ensures var s := After(Initial(), steps); var t, r := Apply(s, Resumes(c)), s.calls[c].run;
      r in s.heard &&
      if s.heard[r].Rotation? then c in t.calls && t.calls[c] == Retrying(s.heard[r].issued, r) else c !in t.calls
  {
    RunKeepsHeard(Initial(), steps);
  }

  // ---------------------------------------------------------------------
  // Revoked families
  // ---------------------------------------------------------------------

  /** Every token has a family, and whoever showed a rotated one had the family revoked for theft. */
  ghost predicate FamiliesOk(s: State) {
    && (forall n: Serial :: n in s.family <==> n < s.nextSerial)
    && s.thefts <= s.revoked
    && (forall i :: 0 <= i < |s.presentations| && s.presentations[i].rotated ==>
          s.presentations[i].token in s.family && s.family[s.presentations[i].token] in s.thefts)
  }

  lemma StepKeepsFamilies(s: State, step: Step)
    requires Inv(s) && FamiliesOk(s) && Enabled(s, step)
    ensures FamiliesOk(Apply(s, step))
  {
    if step.ServerRefreshes? {
      assert RunOk(s, s.runs[step.run]);
      hide Inv;
    } else {
      hide Inv;
    }
  }

  lemma {:induction false} RunKeepsFamilies(s: State, steps: seq<Step>)
    requires Inv(s) && FamiliesOk(s) && ValidRun(s, steps)
    ensures FamiliesOk(After(s, steps)) && Inv(After(s, steps))
    decreases |steps|
  {
    if steps == [] {
    } else {
      StepKeepsInv(s, steps[0]);
      StepKeepsFamilies(s, steps[0]);
      RunKeepsFamilies(Apply(s, steps[0]), steps[1..]);
    }
  }

  /** A rotated token that comes back revokes its family. */
  lemma ReplayRevokesFamily(steps: seq<Step>, i: nat)
    requires ValidRun(Initial(), steps)
    requires i < |After(Initial(), steps).presentations| && After(Initial(), steps).presentations[i].rotated
    ensures var s := After(Initial(), steps); var n := s.presentations[i].token;
      n in s.family && s.family[n] in s.thefts && s.family[n] in s.revoked
  {
    RunKeepsFamilies(Initial(), steps);
  }

  /** No token of the family was issued since. */
  ghost predicate NoneIssued(s: State, t: State, f: Serial) {
    forall n: Serial :: n in t.family && t.family[n] == f ==> n in s.family && s.family[n] == f
  }

  lemma RevokedStepIssuesNothing(s: State, step: Step, f: Serial)
    requires Inv(s) && FamiliesOk(s) && Enabled(s, step) && f in s.revoked && f in s.family
    ensures var t := Apply(s, step);
      f in t.revoked && f in t.family && NoneIssued(s, t, f)
  {
    if step.ServerRefreshes? {
      assert RunOk(s, s.runs[step.run]);
    }
  }

  /** And a revoked family is never issued another token, in any continuation. */
  lemma {:induction false} RevokedFamilyIsDead(s: State, steps: seq<Step>, f: Serial)
    requires Inv(s) && FamiliesOk(s) && f in s.revoked && f in s.family && ValidRun(s, steps)
    ensures NoneIssued(s, After(s, steps), f)
    decreases |steps|
  {
    if steps == [] {
    } else {
      StepKeepsInv(s, steps[0]);
      StepKeepsFamilies(s, steps[0]);
      RevokedStepIssuesNothing(s, steps[0], f);
      hide Inv, FamiliesOk, Enabled, Apply;
      RevokedFamilyIsDead(Apply(s, steps[0]), steps[1..], f);
    }
  }

  predicate SameRetry(c: Call, d: Call) {
    c.Retrying? && d.Retrying? && c.run == d.run
  }

  /** There is never a second refresh under way, and calls that shared one retry with the same token. */
  lemma RefreshIsShared(steps: seq<Step>)
    requires ValidRun(Initial(), steps)
    ensures var s := After(Initial(), steps);
      && (forall r, q :: r in s.runs && q in s.runs ==>
            s.runs[r].phase.Finished? || s.runs[q].phase.Finished? || r == q)
      && (forall c, d | c in s.calls && d in s.calls && SameRetry(s.calls[c], s.calls[d]) ::
            s.calls[c].bearer == s.calls[d].bearer)
  {
    RunKeepsInv(Initial(), steps);
    var s := After(Initial(), steps);
    forall c, d | c in s.calls && d in s.calls && SameRetry(s.calls[c], s.calls[d])
      ensures s.calls[c].bearer == s.calls[d].bearer
    {
      assert s.runs[s.calls[c].run].phase == Finished(Renewed(s.calls[c].bearer));
      assert s.runs[s.calls[d].run].phase == Finished(Renewed(s.calls[d].bearer));
    }
  }

  /** No session stored and no refresh under way. */
  ghost predicate SignedOut(s: State) {
    && s.access.None? && s.refresh.None?
    && forall r :: r in s.runs ==> s.runs[r].phase.Finished?
  }

  /** A sign-out with no refresh under way lasts until the next login. */
  lemma {:induction false} QuietLogoutLasts(s: State, steps: seq<Step>)
    requires SignedOut(s) && ValidRun(s, steps)
    requires forall k :: 0 <= k < |steps| ==> !steps[k].Login?
    ensures SignedOut(After(s, steps))
    decreases |steps|
  {
    if steps == [] {
    } else {
      assert !steps[0].Login?;
      assert SignedOut(Apply(s, steps[0]));
      QuietLogoutLasts(Apply(s, steps[0]), steps[1..]);
    }
  }

  // ---------------------------------------------------------------------
  // Runs that show the conditions are needed
  // ---------------------------------------------------------------------

  ghost predicate Reachable(s: State) {
    exists steps :: ValidRun(Initial(), steps) && After(Initial(), steps) == s
  }

  lemma Start()
    ensures Reachable(Initial())
  {
    assert ValidRun(Initial(), []) && After(Initial(), []) == Initial();
  }

  lemma {:induction false} RunThenStep(s: State, steps: seq<Step>, step: Step)
    requires ValidRun(s, steps) && Enabled(After(s, steps), step)
    ensures ValidRun(s, steps + [step]) && After(s, steps + [step]) == Apply(After(s, steps), step)
    decreases |steps|
  {
    var longer := steps + [step];
    if steps == [] {
      assert longer[1..] == [];
    } else {
      assert longer[1..] == steps[1..] + [step];
      RunThenStep(Apply(s, steps[0]), steps[1..], step);
    }
  }

  lemma Go(s: State, step: Step) returns (t: State)
    requires Reachable(s) && Enabled(s, step)
    ensures Reachable(t) && t == Apply(s, step)
  {
    var steps :| ValidRun(Initial(), steps) && After(Initial(), steps) == s;
    RunThenStep(Initial(), steps, step);
    t := Apply(s, step);
  }

  /** A first call meets a 401 and its refresh has been rotated by the server. */
  lemma RotatedOnce() returns (s: State)
    ensures Reachable(s)
    ensures s.access == s.refresh == Some(0) && s.inFlight == Some(0) && s.nextSerial == 2
    ensures s.runs == map[0 := Refresh(Some(0), Rotated(1))] && s.calls == map[0 := Waiting(0)]
    ensures s.rotated == {0} && s.lost == {} && s.family == map[0 := 0, 1 := 0] && s.revoked == {} && s.thefts == {}
    ensures s.presentations == [Presentation(0, false, false)]
  {
    Start();
    var s1 := Go(Initial(), Login);
    var s2 := Go(s1, StartCall(0));
    var s3 := Go(s2, Unauthorized(0, 0));
    s := Go(s3, ServerRefreshes(0, true));
    assert s.family == map[0 := 0, 1 := 0];
  }

  /** The answer with the rotated token's successor is lost, and the call gives up. */
  lemma AnswerLost() returns (s: State)
    ensures Reachable(s)
    ensures s.access == s.refresh == Some(0) && s.inFlight.None? && s.nextSerial == 2 && s.calls == map[]
    ensures s.runs == map[0 := Refresh(Some(0), Finished(NetworkError))]
    ensures s.rotated == {0} && s.lost == {0} && s.family == map[0 := 0, 1 := 0] && s.revoked == {} && s.thefts == {}
    ensures s.presentations == [Presentation(0, false, false)]
  {
    var s1 := RotatedOnce();
    var s2 := Go(s1, RefreshEnds(0, Dropped));
    var s3 := Go(s2, SlotClears(0));
    s := Go(s3, Resumes(0));
  }

  /** A lost answer: the session the client keeps is dead, and using it again revokes the family. */
  lemma LostAnswerEndsInTheft() returns (s: State)
    ensures Reachable(s) && s.thefts == {0} && 0 in s.revoked
    ensures s.presentations == [Presentation(0, false, false), Presentation(0, true, true)]
  {
    var s1 := AnswerLost();
    var s2 := Go(s1, StartCall(1));
    var s3 := Go(s2, Unauthorized(1, 1));
    s := Go(s3, ServerRefreshes(1, true));
  }

  /** A sign-out during a refresh is undone when the refresh ends. */
  lemma LogoutDuringRefreshIsUndone() returns (s: State, t: State)
    ensures Reachable(s) && s.access.None? && s.refresh.None?
    ensures Enabled(s, RefreshEnds(0, Delivered)) && t == Apply(s, RefreshEnds(0, Delivered)) &&
      t.access == t.refresh == Some(1)
  {
    var s1 := RotatedOnce();
    s := Go(s1, Logout);
    t := Go(s, RefreshEnds(0, Delivered));
  }

  /** A call that wakes up to a failed refresh clears whatever session is stored by then, a new login's too. */
  lemma LateWakeupEndsNewLogin() returns (s: State, t: State)
    ensures Reachable(s) && s.access == s.refresh == Some(2) && 2 !in s.rotated && s.revoked == {}
    ensures Enabled(s, Resumes(0)) && t == Apply(s, Resumes(0)) && t.access.None? && t.refresh.None?
  {
    var s1 := RotatedOnce();
    var s2 := Go(s1, RefreshEnds(0, Garbled));
    var s3 := Go(s2, SlotClears(0));
    s := LoginNow(s3);
    t := Go(s, Resumes(0));
  }

  lemma LoginNow(s: State) returns (t: State)
    requires Reachable(s)
    ensures Reachable(t) && t == Apply(s, Login)
  {
    t := Go(s, Login);
  }
}
