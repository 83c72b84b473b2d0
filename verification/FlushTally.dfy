/** What a flush sends and counts, and what a queued action makes of its send, told from the replies alone. */
module FlushTally {
  import opened Prelude
  import opened MediaSubstitution
  import opened ActionQueue
  import opened FlushQueue
  import opened Draining

  // ---------------------------------------------------------------------
  // The counts of a flush
  // ---------------------------------------------------------------------

  function Deliveries(q: seq<QueuedAction>, net: Network): nat {
    if q == [] then 0 else Deliveries(q[1..], net) + if IsDelivered(q[0], net(q[0].id)) then 1 else 0
  }

  function Fatalities(q: seq<QueuedAction>, net: Network): nat {
    if q == [] then 0 else Fatalities(q[1..], net) + if IsFatal(q[0], net(q[0].id)) then 1 else 0
  }

  /** The first 401 meets an action on its last attempt: the flush removes it, and goes on signed out. */
  predicate GoesOnSignedOut(q: seq<QueuedAction>, net: Network) {
    EndsIn401(q, net) && q[Reach(q, net)].attempts + 1 >= MAX_ATTEMPTS
  }

  /** Signed out, a flush counts every row as discarded, and nothing leaves. */
  lemma {:induction false} SignedOutFlushCounts(d: Device, q: seq<QueuedAction>, net: Network)
    requires d.token.None?
    ensures var w := Walk(d, q, net); w.sent == 0 && w.discarded == |q| && w.pending == 0 && w.calls == []
    decreases |q|
  {
    if q == [] {
    } else {
      SignedOutFlushCounts(AfterTry(d, q[0], net(q[0].id)), q[1..], net);
    }
  }

  lemma ReachUnfolds(q: seq<QueuedAction>, net: Network)
    requires q != []
    ensures var stops := MeetsExpiry(q[0], net(q[0].id)) || IsCharged(q[0], net(q[0].id));
      && Reach(q, net) == (if stops then 0 else 1 + Reach(q[1..], net))
      && (stops ==> (GoesOnSignedOut(q, net) <==>
                      MeetsExpiry(q[0], net(q[0].id)) && q[0].attempts + 1 >= MAX_ATTEMPTS))
      && (!stops ==> (GoesOnSignedOut(q, net) <==> GoesOnSignedOut(q[1..], net)))
  {
    hide MeetsExpiry, IsCharged;
  }

  lemma TallyUnfolds(q: seq<QueuedAction>, net: Network, k: nat)
    requires 0 < k <= |q|
    ensures Deliveries(q[..k], net) ==
      Deliveries(q[1..][..k - 1], net) + if IsDelivered(q[0], net(q[0].id)) then 1 else 0
    ensures Fatalities(q[..k], net) ==
      Fatalities(q[1..][..k - 1], net) + if IsFatal(q[0], net(q[0].id)) then 1 else 0
  {
    assert q[..k][1..] == q[1..][..k - 1];
  }

  /** The counts a flush reports. */
  predicate Counts(w: Walked, sent: nat, discarded: nat, pending: nat) {
    w.sent == sent && w.discarded == discarded && w.pending == pending
  }

  lemma {:induction false} FirstStops(d: Device, q: seq<QueuedAction>, net: Network)
    requires d.token.Some? && q != [] && (MeetsExpiry(q[0], net(q[0].id)) || IsCharged(q[0], net(q[0].id)))
    ensures if MeetsExpiry(q[0], net(q[0].id)) && q[0].attempts + 1 >= MAX_ATTEMPTS
            then Counts(Walk(d, q, net), 0, |q|, 0)
            else Counts(Walk(d, q, net), 0, 0, |q|)
    ensures Walk(d, q, net).calls == CallsOf(d.token, q[0], net(q[0].id))
  {
    var e := AfterTry(d, q[0], net(q[0].id));
    TryOf(d, q[0], net(q[0].id));
    OwnTry(q[0], net(q[0].id));
    if !Stalls(d.token, q[0], net(q[0].id)) {
      SignedOutFlushCounts(e, q[1..], net);
    }
  }

  lemma FirstPasses(d: Device, q: seq<QueuedAction>, net: Network)
    requires d.token.Some? && q != [] && !MeetsExpiry(q[0], net(q[0].id)) && !IsCharged(q[0], net(q[0].id))
    ensures var e := AfterTry(d, q[0], net(q[0].id)); var w, rest := Walk(d, q, net), Walk(e, q[1..], net);
      && e.token == d.token
      && Counts(w, rest.sent + (if IsDelivered(q[0], net(q[0].id)) then 1 else 0),
                rest.discarded + (if IsFatal(q[0], net(q[0].id)) then 1 else 0), rest.pending)
      && w.calls == CallsOf(d.token, q[0], net(q[0].id)) + rest.calls
  {
    TryOf(d, q[0], net(q[0].id));
    OwnTry(q[0], net(q[0].id));
  }

  /** The counts of a signed-in flush: `sent` the actions it gets past that were delivered, `discarded` those it gets
      past on a fatal error, `pending` the rest. If a 401 meets an action on its last attempt, the rest, too, is counted
      as discarded, though it stays in the driver's database. */
  predicate Tallies(w: Walked, q: seq<QueuedAction>, net: Network) {
    var k := Reach(q, net);
    var sent, fatal := Deliveries(q[..k], net), Fatalities(q[..k], net);
    if GoesOnSignedOut(q, net) then Counts(w, sent, fatal + |q| - k, 0) else Counts(w, sent, fatal, |q| - k)
  }

  lemma StoppedTally(d: Device, q: seq<QueuedAction>, net: Network)
    requires d.token.Some? && q != [] && (MeetsExpiry(q[0], net(q[0].id)) || IsCharged(q[0], net(q[0].id)))
    ensures Tallies(Walk(d, q, net), q, net)
  {
    ReachUnfolds(q, net);
    FirstStops(d, q, net);
    assert q[..0] == [];
    hide MeetsExpiry, IsCharged, Walk, GoesOnSignedOut, Reach;
  }

  lemma PassedTally(w: Walked, rest: Walked, q: seq<QueuedAction>, net: Network)
    requires q != [] && !MeetsExpiry(q[0], net(q[0].id)) && !IsCharged(q[0], net(q[0].id))
    requires Tallies(rest, q[1..], net)
    requires Counts(w, rest.sent + (if IsDelivered(q[0], net(q[0].id)) then 1 else 0),
                    rest.discarded + (if IsFatal(q[0], net(q[0].id)) then 1 else 0), rest.pending)
    ensures Tallies(w, q, net)
  {
    ReachUnfolds(q, net);
    TallyUnfolds(q, net, Reach(q, net));
    hide MeetsExpiry, IsCharged, IsDelivered, IsFatal, GoesOnSignedOut, Reach, Deliveries, Fatalities;
  }

  /** What a flush that starts signed in counts, for every snapshot and whatever the replies. */
  lemma {:induction false} FlushCounts(d: Device, q: seq<QueuedAction>, net: Network)
    requires d.token.Some?
    ensures Tallies(Walk(d, q, net), q, net)
    decreases |q|
  {
    if q == [] {
    } else {
      hide MeetsExpiry, IsCharged, IsDelivered, IsFatal, Walk, Tallies;
      if MeetsExpiry(q[0], net(q[0].id)) || IsCharged(q[0], net(q[0].id)) {
        StoppedTally(d, q, net);
      } else {
        var e := AfterTry(d, q[0], net(q[0].id));
        FirstPasses(d, q, net);
        FlushCounts(e, q[1..], net);
        PassedTally(Walk(d, q, net), Walk(e, q[1..], net), q, net);
      }
    }
  }

  // ---------------------------------------------------------------------
  // The requests of a flush
  // ---------------------------------------------------------------------

  /** The requests of one row: its photo's upload, and its send unless that failed. */
  lemma RowRequests(driver: string, a: QueuedAction, t: Attempt)
    ensures a.blob.None? ==> CallsOf(Some(driver), a, t) == [SendCall(a.path, a.body)]
    ensures a.blob.Some? && !t.upload.Answered? ==> CallsOf(Some(driver), a, t) == [UploadCall(a.blob.value, PodPhoto)]
    ensures a.blob.Some? && t.upload.Answered? ==>
      CallsOf(Some(driver), a, t) ==
        [UploadCall(a.blob.value, PodPhoto),
         SendCall(a.path, Substitute(a.body, a.blob.value.placeholder, t.upload.value))]
  {
  }

  function Requests(token: Option<string>, q: seq<QueuedAction>, net: Network): seq<Call> {
    if q == [] then [] else CallsOf(token, q[0], net(q[0].id)) + Requests(token, q[1..], net)
  }

  /** The actions a flush tries under a token. */
  function Tried(q: seq<QueuedAction>, net: Network): (n: nat)
    ensures n <= |q|
  {
    if Reach(q, net) < |q| then Reach(q, net) + 1 else |q|
  }

  lemma RequestsUnfold(token: Option<string>, q: seq<QueuedAction>, net: Network, n: nat)
    requires 0 < n <= |q|
    ensures Requests(token, q[..n], net) == CallsOf(token, q[0], net(q[0].id)) + Requests(token, q[1..][..n - 1], net)
  {
    assert q[..n][0] == q[0] && q[..n][1..] == q[1..][..n - 1];
  }

  /** A signed-in flush makes the requests of the actions it tries, in their order, and none after a 401. */
  lemma {:induction false} FlushRequests(d: Device, q: seq<QueuedAction>, net: Network)
    requires d.token.Some?
    ensures Walk(d, q, net).calls == Requests(d.token, q[..Tried(q, net)], net)
    decreases |q|
  {
    if q == [] {
    } else {
      ReachUnfolds(q, net);
      RequestsUnfold(d.token, q, net, Tried(q, net));
      if MeetsExpiry(q[0], net(q[0].id)) || IsCharged(q[0], net(q[0].id)) {
        FirstStops(d, q, net);
        hide *;
        assert q[1..][..0] == [];
        NoRequests(d.token, net);
      } else {
        var e := AfterTry(d, q[0], net(q[0].id));
        FirstPasses(d, q, net);
        FlushRequests(e, q[1..], net);
        assert Tried(q, net) == 1 + Tried(q[1..], net);
        hide *;
      }
    }
  }

  lemma NoRequests(token: Option<string>, net: Network)
    ensures Requests(token, [], net) == []
  {
  }

  // ---------------------------------------------------------------------
  // A send that is queued
  // ---------------------------------------------------------------------

  /** A live send's own try, read as that of an action with the photo. */
  function Submitted(path: string, body: Json, id: string, photo: Option<Photo>): QueuedAction {
    QueuedAction(id, path, body, 0, 0, if photo.Some? then Some(HeldBlob(photo.value)) else None)
  }

  /** Signed in, a send succeeds if and only if upload and send are answered, and its action is queued, if there is a
      store, if and only if the failure is a 401 or a connectivity failure. Signed out it does neither. */
  lemma SendIsQueuedIff(token: Option<string>, path: string, body: Json, id: string, photo: Option<Photo>,
                        reply: Attempt, now: int, canQueue: bool)
    ensures var a := Submitted(path, body, id, photo);
      && (TryFails(token, photo.Some?, reply).None? <==> token.Some? && IsDelivered(a, reply))
      && (Keeps(token, path, body, id, photo, reply, now, canQueue).Some? <==>
            token.Some? && canQueue && (MeetsExpiry(a, reply) || IsLinkDown(a, reply)))
  {
  }

  /** The requests of a live send: for a plain action its one; with a photo the upload, and the send behind it. */
  lemma LiveRequests(driver: string, path: string, body: Json, photo: Option<Photo>, reply: Attempt)
    ensures var calls := LiveCalls(Some(driver), path, body, photo, reply);
      && (photo.None? ==> calls == [SendCall(path, body)])
      && (photo.Some? && reply.upload.Answered? ==>
            calls == [UploadCall(HeldBlob(photo.value), photo.value.purpose),
                      SendCall(path, Substitute(body, QUEUED_MEDIA, reply.upload.value))])
      && (photo.Some? && !reply.upload.Answered? ==>
            calls == [UploadCall(HeldBlob(photo.value), photo.value.purpose)])
  {
  }

  /** What a live send that was answered `reply` had left to do, done under `later`. */
  function LeftToSend(path: string, body: Json, photo: Option<Photo>, reply: Attempt, later: Attempt): seq<Call> {
    if photo.None? then [SendCall(path, body)]
    else if reply.upload.Answered? then [SendCall(path, Substitute(body, QUEUED_MEDIA, reply.upload.value))]
    else
      [UploadCall(HeldBlob(photo.value), PodPhoto)] +
      if later.upload.Answered? then [SendCall(path, Substitute(body, QUEUED_MEDIA, later.upload.value))] else []
  }

  /** What is queued has the send's id and path, the stamp of the time it was queued, and no attempts. */
  lemma QueuedAs(token: Option<string>, path: string, body: Json, id: string, photo: Option<Photo>,
                 reply: Attempt, now: int, driver: string, later: Attempt)
    requires Keeps(token, path, body, id, photo, reply, now, true).Some?
    ensures var a := Keeps(token, path, body, id, photo, reply, now, true).value;
      && a.id == id && a.path == path && a.queuedAt == now && a.attempts == 0
      && (a.blob.Some? <==> photo.Some? && !reply.upload.Answered?)
      && CallsOf(Some(driver), a, later) == LeftToSend(path, body, photo, reply, later)
  {
  }

  /** A queued action finishes its send, photo or not: a flush of it makes exactly the requests the live send had left
      to make, and counts it as sent if and only if these are answered. */
  lemma FlushFinishesTheSend(d: Device, driver: string, token: Option<string>, path: string, body: Json, id: string,
                             photo: Option<Photo>, reply: Attempt, now: int, net: Network)
    requires driver != "" && driver != ANONYMOUS && Db(d.dbs, driver) == map[]
    requires Keeps(token, path, body, id, photo, reply, now, true).Some?
    ensures var a := Keeps(token, path, body, id, photo, reply, now, true).value;
      var w := Walk(Device(Some(driver), Put(d.dbs, driver, a)), [a], net);
      && w.calls == LeftToSend(path, body, photo, reply, net(id))
      && (w.sent == 1 <==> (a.blob.Some? ==> net(id).upload.Answered?) && net(id).send.Answered?)
      && (w.sent == 1 ==> Db(w.device.dbs, driver) == map[])
  {
    var a := Keeps(token, path, body, id, photo, reply, now, true).value;
    var queued := Device(Some(driver), Put(d.dbs, driver, a));
    QueuedAs(token, path, body, id, photo, reply, now, driver, net(id));
    FlushRequests(queued, [a], net);
    FlushCounts(queued, [a], net);
    OwnTry(a, net(id));
    ReachUnfolds([a], net);
    assert [a][1..] == [] && [a][..1] == [a] && [a][..0] == [];
    assert Deliveries([a], net) == if IsDelivered(a, net(id)) then 1 else 0;
    assert Requests(Some(driver), [a], net) == CallsOf(Some(driver), a, net(id));
    hide Walk;
    OneRowLeft(queued, driver, a, net);
  }

  lemma OneRowLeft(d: Device, driver: string, a: QueuedAction, net: Network)
    requires d.token == Some(driver) && driver != "" && driver != ANONYMOUS && Db(d.dbs, driver) == map[a.id := a]
    ensures IsDelivered(a, net(a.id)) ==> Db(Walk(d, [a], net).device.dbs, driver) == map[]
  {
    assert [a][0] == a && Holds([a], a.id);
    FlushLeaves(d, [a], net);
    LeftUnfolds([a], net);
    hide Walk;
    var rows := Db(Walk(d, [a], net).device.dbs, driver);
    if IsDelivered(a, net(a.id)) {
      assert [a][1..] == [] && IsReplayOrder([], rows);
      assert forall x :: x in rows ==> Holds([], x);
    }
  }

  /** Replay follows the sends: what a send queues is tried last, behind everything that was queued before. */
  lemma QueuedIsTriedLast(rows: map<string, QueuedAction>, q: seq<QueuedAction>, token: Option<string>, path: string,
                          body: Json, id: string, photo: Option<Photo>, reply: Attempt, now: int)
    requires Keeps(token, path, body, id, photo, reply, now, true).Some? && id !in rows
    requires IsReplayOrder(q, rows) && forall x :: x in rows ==> rows[x].queuedAt < now
    ensures var a := Keeps(token, path, body, id, photo, reply, now, true).value;
      IsReplayOrder(q + [a], rows[id := a])
  {
    var a := Keeps(token, path, body, id, photo, reply, now, true).value;
    QueuedAs(token, path, body, id, photo, reply, now, "", reply);
    hide Keeps;
    LastInOrder(rows, q, a);
  }

  lemma LastInOrder(rows: map<string, QueuedAction>, q: seq<QueuedAction>, a: QueuedAction)
    requires a.id !in rows && IsReplayOrder(q, rows) && forall x :: x in rows ==> rows[x].queuedAt < a.queuedAt
    ensures IsReplayOrder(q + [a], rows[a.id := a])
  {
    var more, all := rows[a.id := a], q + [a];
    forall i | 0 <= i < |q| ensures ActionQueue.Before(q[i], a) && q[i].id != a.id {
      assert q[i].id in rows && rows[q[i].id] == q[i];
    }
    forall x | x in more ensures Holds(all, x) {
      if x == a.id {
        assert all[|q|].id == x;
      } else {
        assert Holds(q, x);
        var i :| 0 <= i < |q| && q[i].id == x;
        assert all[i].id == x;
      }
    }
  }

  lemma {:induction false} DeadFlushes(a: QueuedAction, n: nat)
    requires a.attempts + n < 8
    ensures Drained([a], seq(n, _ => DEAD)) == [a.(attempts := a.attempts + n)]
    decreases n
  {
    if n == 0 {
    } else {
      var nets := seq(n, _ => DEAD);
      assert nets[1..] == seq(n - 1, _ => DEAD);
      LeftUnfolds([a], DEAD);
      DeadLinkCharges(a);
      assert [Charged(a)] + [a][1..] == [Charged(a)];
      DeadFlushes(Charged(a), n - 1);
    }
  }

  /** A queued action survives seven flushes on a dead link, and not an eighth. */
  lemma QueuedActionSurvivesSeven(token: Option<string>, path: string, body: Json, id: string, photo: Option<Photo>,
                                  reply: Attempt, now: int)
    requires Keeps(token, path, body, id, photo, reply, now, true).Some?
    ensures var a := Keeps(token, path, body, id, photo, reply, now, true).value;
      && Drained([a], seq(7, _ => DEAD)) == [a.(attempts := 7)]
      && Left([a.(attempts := 7)], DEAD) == []
  {
    var a := Keeps(token, path, body, id, photo, reply, now, true).value;
    DeadFlushes(a, 7);
    var last := a.(attempts := 7);
    LeftUnfolds([last], DEAD);
    DeadLinkCharges(last);
    assert [last][1..] == [];
  }
}
