/** Runs of the interleaved queue that show why each condition is there. */
module QueueWitnesses {
  import opened Prelude
  import opened MediaSubstitution
  import opened ActionQueue
  import opened QueueProtocol
  import opened QueueRuns

  /** What a live send submits, and the row it stores at time `now`. */
  function Note(id: string, body: Json, now: int): QueuedAction {
    QueuedAction(id, "/api/v1/driver/tasks/1/transition", body, now, 0, None)
  }

  function LiveOp(driver: string, a: QueuedAction, phase: Phase): Op {
    Op(Live, Some(driver), Key(Some(driver)), [a], 0, phase)
  }

  function FlushOp(token: Option<string>, row: QueuedAction, phase: Phase): Op {
    Op(Replay, token, Key(token), [row], 0, phase)
  }

  lemma OneRowSnapshot(row: QueuedAction)
    ensures IsReplayOrder([row], map[row.id := row])
  {
    assert [row][0] == row;
    assert Holds([row], row.id);
  }

  // ---------------------------------------------------------------------
  // Pieces of runs
  // ---------------------------------------------------------------------

  /** A live send is under way. */
  lemma SendOne(token: Option<string>, s: State, o: nat, driver: string, a: QueuedAction) returns (t: State)
    requires Reachable(token, s) && s.token == Some(driver) && o !in s.ops && a == Note(a.id, a.body, 0)
    ensures Reachable(token, t)
    ensures t == s.(ops := s.ops[o := LiveOp(driver, a, InFlight(None))],
                    f := s.f.(authored := s.f.authored + {Author(a, s.token)},
                              contacts := s.f.contacts + [Contact(a, driver)]))
  {
    var s1 := Go(token, s, StartSend(o, a));
    assert s1.ops[o] == LiveOp(driver, a, Ready);
    t := Go(token, s1, SendStarts(o));
    assert t.ops == s.ops[o := LiveOp(driver, a, InFlight(None))];
  }

  /** It fails on connectivity, and is about to store its action. */
  lemma LoseOne(token: Option<string>, s: State, o: nat, driver: string, a: QueuedAction, now: int) returns (t: State)
    requires Reachable(token, s) && s.token == Some(driver)
    requires o in s.ops && s.ops[o] == LiveOp(driver, a, InFlight(None))
    ensures Reachable(token, t)
    ensures t == s.(ops := s.ops[o := LiveOp(driver, a, Landing(Key(s.token), Some(a.(queuedAt := now))))])
  {
    t := Go(token, s, SendEnds(o, SendLost, now));
  }

  lemma LandOne(token: Option<string>, s: State, o: nat, driver: string, a: QueuedAction, to: string, row: QueuedAction)
    returns (t: State)
    requires Reachable(token, s) && o in s.ops && s.ops[o] == LiveOp(driver, a, Landing(to, Some(row)))
    ensures Reachable(token, t)
    ensures t == s.(ops := s.ops - {o}, dbs := Put(s.dbs, to, row),
                    f := s.f.(entered := s.f.entered + {Entry(to, Item(row))},
                              superseded := s.f.superseded + Victim(s.dbs, to, Item(row)),
                              late := s.f.late + if IsLate(s.f, to, row) then {to} else {}))
  {
    t := Go(token, s, Lands(o));
  }

  /** A live send fails on connectivity and its action is stored. */
  lemma QueueOne(token: Option<string>, s: State, o: nat, driver: string, id: string, body: Json, now: int)
    returns (t: State)
    requires Reachable(token, s) && s.token == Some(driver) && driver != "" && o !in s.ops
    ensures Reachable(token, t) && var a, row := Note(id, body, 0), Note(id, body, now);
      t == s.(dbs := Put(s.dbs, driver, row),
              f := s.f.(authored := s.f.authored + {Author(a, s.token)},
                        contacts := s.f.contacts + [Contact(a, driver)],
                        entered := s.f.entered + {Entry(driver, row)},
                        superseded := s.f.superseded + Victim(s.dbs, driver, row),
                        late := s.f.late + if IsLate(s.f, driver, row) then {driver} else {}))
  {
    var a := Note(id, body, 0);
    var s1 := SendOne(token, s, o, driver, a);
    var s2 := LoseOne(token, s1, o, driver, a, now);
    t := LandOne(token, s2, o, driver, a, driver, Note(id, body, now));
    assert t.ops == s.ops;
  }

  /** A flush opens, and reads a database that holds one row. */
  lemma OpenOne(token: Option<string>, s: State, o: nat, row: QueuedAction) returns (t: State)
    requires Reachable(token, s) && o !in s.ops && Db(s.dbs, Key(s.token)) == map[row.id := row]
    ensures Reachable(token, t)
    ensures t == s.(ops := s.ops[o := FlushOp(s.token, row, Ready)], covered := s.covered && s.token.Some?)
  {
    var s1 := Go(token, s, StartFlush(o));
    assert s1.ops[o] == Op(Replay, s.token, Key(s.token), [], 0, Opening);
    OneRowSnapshot(row);
    t := Go(token, s1, ReadStore(o, [row], true));
    assert t.ops == s.ops[o := FlushOp(s.token, row, Ready)];
  }

  /** It sends its row, under the token of the moment. */
  lemma FlyOne(token: Option<string>, s: State, o: nat, owner: Option<string>, row: QueuedAction, driver: string)
    returns (t: State)
    requires Reachable(token, s) && s.token == Some(driver) && row.blob.None?
    requires o in s.ops && s.ops[o] == FlushOp(owner, row, Ready)
    ensures Reachable(token, t)
    ensures t == s.(ops := s.ops[o := FlushOp(owner, row, InFlight(None))],
                    f := s.f.(contacts := s.f.contacts + [Contact(Content(row), driver)]))
  {
    t := Go(token, s, SendStarts(o));
  }

  lemma DecideOne(token: Option<string>, s: State, o: nat, owner: Option<string>, row: QueuedAction, verdict: Verdict)
    returns (t: State)
    requires Reachable(token, s) && o in s.ops && s.ops[o] == FlushOp(owner, row, InFlight(None))
    ensures Reachable(token, t)
    ensures t == s.(ops := s.ops[o := FlushOp(owner, row, InFlight(Some(verdict)))],
                    f := Decides(FlushOp(owner, row, InFlight(None)), s.f, verdict))
  {
    t := Go(token, s, ServerDecides(o, verdict));
  }

  /** What a flush makes of the answer to its send. */
  lemma SettleOne(token: Option<string>, s: State, o: nat, op: Op, reply: SendReply) returns (t: State)
    requires Reachable(token, s) && o in s.ops && s.ops[o] == op && op.kind.Replay? && Engaged(op)
    requires op.phase.InFlight? && !reply.SendExpired? && (reply.Heard? ==> op.phase.verdict.Some?)
    ensures Reachable(token, t) && var out := SendSettles(op, s.token, s.f, reply, 0);
      out.next.Some? && t == s.(ops := s.ops[o := out.next.value], f := out.f)
  {
    t := Go(token, s, SendEnds(o, reply, 0));
  }

  lemma RemoveOne(token: Option<string>, s: State, o: nat, owner: Option<string>, row: QueuedAction, from: string)
    returns (t: State)
    requires Reachable(token, s) && o in s.ops && s.ops[o] == FlushOp(owner, row, Landing(from, None))
    ensures Reachable(token, t)
    ensures t == s.(ops := s.ops - {o}, dbs := Delete(s.dbs, from, row.id),
                    f := s.f.(mistaken := s.f.mistaken + Victim(s.dbs, from, Item(row))))
  {
    t := Go(token, s, Lands(o));
  }

  lemma PutBackOne(token: Option<string>, s: State, o: nat, owner: Option<string>, a: QueuedAction, to: string,
                   row: QueuedAction)
    returns (t: State)
    requires Reachable(token, s) && o in s.ops && s.ops[o] == FlushOp(owner, a, Landing(to, Some(row)))
    ensures Reachable(token, t)
    ensures t == s.(ops := s.ops - {o}, dbs := Put(s.dbs, to, row),
                    f := s.f.(superseded := s.f.superseded + Victim(s.dbs, to, Item(row))))
  {
    t := Go(token, s, Lands(o));
  }

  /** A running flush's send is accepted and heard, and its row removed. */
  lemma DeliverOne(token: Option<string>, s: State, o: nat, driver: string, row: QueuedAction) returns (t: State)
    requires Reachable(token, s) && s.token == Some(driver) && driver != "" && row.blob.None?
    requires o in s.ops && s.ops[o] == FlushOp(Some(driver), row, Ready) && Db(s.dbs, driver) == map[row.id := row]
    ensures Reachable(token, t)
    ensures t == s.(ops := s.ops - {o}, dbs := Delete(s.dbs, driver, row.id),
                    f := Decides(FlushOp(Some(driver), row, InFlight(None)), s.f, Accept).(
                           contacts := s.f.contacts + [Contact(Content(row), driver)]))
  {
    var s1 := FlyOne(token, s, o, Some(driver), row, driver);
    var s2 := DecideOne(token, s1, o, Some(driver), row, Accept);
    var s3 := SettleOne(token, s2, o, FlushOp(Some(driver), row, InFlight(Some(Accept))), Heard);
    t := RemoveOne(token, s3, o, Some(driver), row, driver);
    assert t.ops == s.ops - {o};
    assert Victim(s.dbs, driver, Item(row)) == {};
    assert t.f.mistaken == s.f.mistaken;
  }

  // ---------------------------------------------------------------------
  // Runs that lose an action
  // ---------------------------------------------------------------------

  const X := Note("x", Null, 1)

  /** From nothing: driver "a" is signed in and has one action queued. */
  lemma OneQueued() returns (s: State)
    ensures Reachable(Some("a"), s)
    ensures s == State(Some("a"), map["a" := map["x" := X]], map[],
      NOTHING.(entered := {Entry("a", X)}, authored := {Author(Note("x", Null, 0), Some("a"))},
               contacts := [Contact(Note("x", Null, 0), "a")]), true, true)
  {
    Start(Some("a"));
    s := QueueOne(Some("a"), Initial(Some("a")), 0, "a", "x", Null, 1);
    assert Db(Initial(Some("a")).dbs, "a") == map[];
    assert s.f.superseded == {} && s.f.late == {};
  }

  /** A gateway answers a flush with an error of its own: the action is gone, and the server never decided on it. */
  lemma GatewayErrorLosesTheAction() returns (s: State)
    ensures Reachable(Some("a"), s) && s.quiet && s.covered && s.ops == map[]
    ensures Entry("a", X) in s.f.entered && forall key :: !Stored(s.dbs, Entry(key, X))
    ensures s.f.errored == {X} && s.f.accepted == {} && s.f.rejected == {} && s.f.seen == {}
  {
    var s1 := OneQueued();
    var s2 := OpenOne(Some("a"), s1, 0, X);
    var s3 := FlyOne(Some("a"), s2, 0, Some("a"), X, "a");
    var s4 := SettleOne(Some("a"), s3, 0, FlushOp(Some("a"), X, InFlight(None)), SendFailed);
    s := RemoveOne(Some("a"), s4, 0, Some("a"), X, "a");
  }

  /** A live send meets a 401: its action goes to the signed-out database, and the next flush, with nobody signed in,
      drops it without another request. */
  lemma ExpiredSessionLosesTheAction() returns (s: State)
    ensures Reachable(Some("a"), s) && s.quiet && !s.covered && s.ops == map[] && |s.f.contacts| == 1
    ensures s.f.entered == {Entry(ANONYMOUS, X)} && forall key :: !Stored(s.dbs, Entry(key, X))
    ensures s.f.signedOut == {X} && s.f.accepted == {} && s.f.rejected == {} && s.f.seen == {}
  {
    var a, token := Note("x", Null, 0), Some("a");
    Start(token);
    var s1 := SendOne(token, Initial(token), 0, "a", a);
    var s2 := Go(token, s1, SendEnds(0, SendExpired, 1));
    assert s2.ops == map[0 := LiveOp("a", a, Landing(ANONYMOUS, Some(X)))];
    var s3 := LandOne(token, s2, 0, "a", a, ANONYMOUS, X);
    assert s3.dbs == map[ANONYMOUS := map["x" := X]] && s3.ops == map[];
    var s4 := OpenOne(token, s3, 1, X);
    var s5 := Go(token, s4, NotLoggedIn(1));
    assert s5.ops == map[1 := FlushOp(None, X, Landing(ANONYMOUS, None))];
    s := RemoveOne(token, s5, 1, None, X, ANONYMOUS);
  }

  /** A flush hears a no to an action that the driver has submitted again under the same id meanwhile:
      it removes the new row, which was never sent by a flush, decided on or given up. */
  lemma StaleFlushRemovesResubmission(body: Json) returns (s: State)
    requires body != Null
    ensures Reachable(Some("a"), s) && s.quiet && s.covered && s.ops == map[]
    ensures var again := Note("x", body, 2);
      && Entry("a", again) in s.f.entered && (forall key :: !Stored(s.dbs, Entry(key, again)))
      && Entry("a", again) in s.f.mistaken && !Done(s.f, again)
  {
    var token := Some("a");
    var s1 := OneQueued();
    var s2 := OpenOne(token, s1, 0, X);
    var s3 := FlyOne(token, s2, 0, token, X, "a");
    var s4 := DecideOne(token, s3, 0, token, X, Reject);
    var s5 := QueueOne(token, s4, 1, "a", "x", body, 2);
    assert Db(s5.dbs, "a") == map["x" := Note("x", body, 2)];
    var s6 := SettleOne(token, s5, 0, FlushOp(token, X, InFlight(Some(Reject))), Heard);
    s := RemoveOne(token, s6, 0, token, X, "a");
  }

  // ---------------------------------------------------------------------
  // Runs that repeat or reorder
  // ---------------------------------------------------------------------

  /** Two flushes overlap: the second puts back a row that the first delivered and removed. */
  lemma StaleFlushPutsBack() returns (s: State)
    ensures Reachable(Some("a"), s) && s.quiet && s.ops == map[]
    ensures s.dbs == map["a" := map["x" := Charged(X)]] && X in s.f.accepted && "x" in s.f.seen
  {
    var token := Some("a");
    var s1 := OneQueued();
    var s2 := OpenOne(token, s1, 0, X);
    var s3 := OpenOne(token, s2, 1, X);
    var s4 := DeliverOne(token, s3, 0, "a", X);
    var s5 := FlyOne(token, s4, 1, token, X, "a");
    var s6 := DecideOne(token, s5, 1, token, X, Accept);
    var s7 := SettleOne(token, s6, 1, FlushOp(token, X, InFlight(Some(Accept))), SendLost);
    s := PutBackOne(token, s7, 1, token, X, "a", Charged(X));
  }

  /** A live send overtakes an older action that is still queued: only flushes keep the order. */
  lemma LiveSendOvertakes() returns (s: State)
    ensures Reachable(Some("a"), s) && s.quiet && Stored(s.dbs, Entry("a", X))
    ensures |s.f.applied| == 1 && s.f.applied[0].item == Note("y", Null, 0) && s.f.applied[0].kind.Live?
  {
    var token := Some("a");
    var s1 := OneQueued();
    var s2 := SendOne(token, s1, 0, "a", Note("y", Null, 0));
    s := Go(token, s2, ServerDecides(0, Accept));
  }

  lemma StampedThenOvertaken() returns (s: State)
    ensures Reachable(Some("a"), s) && s.token == Some("a") && s.quiet && s.covered
    ensures s.ops == map[0 := LiveOp("a", Note("x", Null, 0), Landing("a", Some(X)))]
    ensures s.dbs == map["a" := map["y" := Note("y", Null, 2)]] && s.f.entered == {Entry("a", Note("y", Null, 2))}
    ensures s.f.late == {} && s.f.seen == {} && s.f.applied == [] && GivenUp(s.f) == {} && Displaced(s.f) == {}
  {
    var token, a := Some("a"), Note("x", Null, 0);
    Start(token);
    var s1 := SendOne(token, Initial(token), 0, "a", a);
    var s2 := LoseOne(token, s1, 0, "a", a, 1);
    s := QueueOne(token, s2, 1, "a", "y", Null, 2);
    assert Db(s2.dbs, "a") == map[];
  }

  /** A live send takes its stamp, and before its row is in the store a younger action is queued and delivered:
      the database was entered against the stamps, and flushes deliver against them. */
  lemma LateLandingBreaksOrder() returns (s: State)
    ensures Reachable(Some("a"), s) && s.quiet && s.covered && s.f.late == {"a"}
    ensures s.f.entered == {Entry("a", X), Entry("a", Note("y", Null, 2))}
    ensures |s.f.applied| == 2 && s.f.applied[0].kind.Replay? && s.f.applied[1].kind.Replay?
    ensures s.f.applied[0].item == Note("y", Null, 2) && s.f.applied[1].item == X
  {
    var token, y := Some("a"), Note("y", Null, 2);
    var s3 := StampedThenOvertaken();
    var s4 := OpenOne(token, s3, 2, y);
    var s5 := DeliverOne(token, s4, 2, "a", y);
    assert Db(s5.dbs, "a") == map[] && s5.f.applied == [Application(y, Replay, "a", {}, {})] && s5.f.seen == {"y"};
    s := LandsLate(s5);
  }

  lemma LandsLate(s5: State) returns (s: State)
    requires Reachable(Some("a"), s5) && s5.token == Some("a") && s5.quiet && s5.covered && s5.f.late == {}
    requires s5.ops == map[0 := LiveOp("a", Note("x", Null, 0), Landing("a", Some(X)))] && s5.f.seen == {"y"}
    requires Db(s5.dbs, "a") == map[] && s5.f.entered == {Entry("a", Note("y", Null, 2))}
    requires |s5.f.applied| == 1 && s5.f.applied[0].kind.Replay?
    ensures Reachable(Some("a"), s) && s.quiet && s.covered && s.f.late == {"a"}
    ensures s.f.entered == {Entry("a", X), Entry("a", Note("y", Null, 2))}
    ensures |s.f.applied| == 2 && s.f.applied[0] == s5.f.applied[0]
    ensures s.f.applied[1].kind.Replay? && s.f.applied[1].item == X
  {
    var token := Some("a");
    var s6 := LandOne(token, s5, 0, "a", Note("x", Null, 0), "a", X);
    assert Entry("a", Note("y", Null, 2)) in s5.f.entered;
    assert IsLate(s5.f, "a", X);
    var s7 := OpenOne(token, s6, 3, X);
    s := DeliverOne(token, s7, 3, "a", X);
  }

  // ---------------------------------------------------------------------
  // Runs in which somebody signs in
  // ---------------------------------------------------------------------

  /** Another driver signs in while a flush is running: the first driver's action is sent under the second's token. */
  lemma SignInMidFlushMixesDrivers() returns (s: State)
    ensures Reachable(Some("a"), s) && !s.quiet && s.covered
    ensures s.f.authored == {Author(Content(X), Some("a"))}
    ensures |s.f.contacts| == 2 && s.f.contacts[1] == Contact(Content(X), "b")
  {
    var token := Some("a");
    var s1 := OneQueued();
    var s2 := OpenOne(token, s1, 0, X);
    var s3 := Go(token, s2, SignIn("b"));
    s := FlyOne(token, s3, 0, token, X, "b");
  }

  /** Sign-ins in mid-operation break the order, too: "b" has an older action on its way to the store when a flush
      puts a row of "a" into b's database, and b's own flush delivers that row first. No database is late. */
  lemma SignInMidFlushBreaksOrder() returns (s: State)
    ensures Reachable(Some("b"), s) && !s.quiet && s.f.late == {}
    ensures var x, y := Note("x", Null, 2), Note("y", Null, 1);
      && s.f.entered == {Entry("a", x), Entry("b", y)}
      && s.f.applied == [Application(x, Replay, "b", {}, {})]
  {
    var token, a, x := Some("b"), Note("y", Null, 0), Note("x", Null, 2);
    Start(token);
    var s1 := SendOne(token, Initial(token), 0, "b", a);
    var s2 := LoseOne(token, s1, 0, "b", a, 1);
    var s3 := Go(token, s2, SignIn("a"));
    var s4 := QueueOne(token, s3, 1, "a", "x", Null, 2);
    assert s4.f.late == {} && s4.dbs == map["a" := map["x" := x]] && s4.f.superseded == {};
    var s5 := OpenOne(token, s4, 1, x);
    var s6 := FlyOne(token, s5, 1, Some("a"), x, "a");
    s := DeliversForeign(s6);
  }

  lemma DeliversForeign(s6: State) returns (s: State)
    requires Reachable(Some("b"), s6) && s6.token == Some("a") && !s6.quiet && s6.f.late == {} && s6.f.seen == {}
    requires s6.f.entered == {Entry("a", Note("x", Null, 2))} && s6.f.applied == [] && Displaced(s6.f) == {}
    requires GivenUp(s6.f) == {} && Db(s6.dbs, "b") == map[]
    requires s6.ops == map[0 := LiveOp("b", Note("y", Null, 0), Landing("b", Some(Note("y", Null, 1)))),
                           1 := FlushOp(Some("a"), Note("x", Null, 2), InFlight(None))]
    ensures Reachable(Some("b"), s) && !s.quiet && s.f.late == {}
    ensures s.f.entered == {Entry("a", Note("x", Null, 2)), Entry("b", Note("y", Null, 1))}
    ensures s.f.applied == [Application(Note("x", Null, 2), Replay, "b", {}, {})]
  {
    var token, a, x := Some("b"), Note("y", Null, 0), Note("x", Null, 2);
    var s7 := Go(token, s6, SignIn("b"));
    var s8 := SettleOne(token, s7, 1, FlushOp(Some("a"), x, InFlight(None)), SendLost);
    var s9 := PutBackOne(token, s8, 1, Some("a"), x, "b", Charged(x));
    assert Db(s9.dbs, "b") == map["x" := Charged(x)];
    assert s9.ops == map[0 := LiveOp("b", a, Landing("b", Some(Note("y", Null, 1))))];
    s := DeliversPutBack(s9);
  }

  lemma DeliversPutBack(s9: State) returns (s: State)
    requires Reachable(Some("b"), s9) && s9.token == Some("b") && !s9.quiet && s9.f.late == {} && s9.f.seen == {}
    requires s9.f.entered == {Entry("a", Note("x", Null, 2))} && s9.f.applied == [] && Displaced(s9.f) == {}
    requires GivenUp(s9.f) == {} && Db(s9.dbs, "b") == map["x" := Charged(Note("x", Null, 2))]
    requires s9.ops == map[0 := LiveOp("b", Note("y", Null, 0), Landing("b", Some(Note("y", Null, 1))))]
    ensures Reachable(Some("b"), s) && !s.quiet && s.f.late == {}
    ensures s.f.entered == {Entry("a", Note("x", Null, 2)), Entry("b", Note("y", Null, 1))}
    ensures s.f.applied == [Application(Note("x", Null, 2), Replay, "b", {}, {})]
  {
    var token, a, x := Some("b"), Note("y", Null, 0), Note("x", Null, 2);
    var s10 := OpenOne(token, s9, 2, Charged(x));
    var s11 := DeliverOne(token, s10, 2, "b", Charged(x));
    s := LandOne(token, s11, 0, "b", a, "b", Note("y", Null, 1));
  }
}
