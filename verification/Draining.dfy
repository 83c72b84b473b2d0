/** What a flush leaves in the driver's database, and how many empty it (apps/driver/lib/actionQueue.ts:96-172). */
module Draining {
  import opened Prelude
  import opened ActionQueue
  import opened FlushQueue

  // ---------------------------------------------------------------------
  // The driver's database after a flush
  // ---------------------------------------------------------------------

  /** Tried by a signed-in driver, the action is answered 401. */
  predicate MeetsExpiry(a: QueuedAction, t: Attempt) {
    if a.blob.Some? && !t.upload.Answered? then t.upload.Expired? else t.send.Expired?
  }

  /** Its upload, if it has a photo, and its send are both answered. */
  predicate IsDelivered(a: QueuedAction, t: Attempt) {
    (a.blob.Some? ==> t.upload.Answered?) && t.send.Answered?
  }

  /** The message of the other errors: from the upload, or from the send behind it. */
  function ErrorOf(a: QueuedAction, t: Attempt): Option<string> {
    var reply := if a.blob.Some? && !t.upload.Answered? then FailedUpload(t.upload) else t.send;
    if reply.Threw? then Some(reply.message) else None
  }

  function FailedUpload(reply: Reply<string>): Reply<()> {
    if reply.Threw? then Threw(reply.message) else Reply.Expired
  }

  predicate IsLinkDown(a: QueuedAction, t: Attempt) {
    ErrorOf(a, t).Some? && IsConnectivityFailure(ErrorOf(a, t).value)
  }

  /** A connectivity failure other than a 401, with budget left: the flush stops and charges the row. */
  predicate IsCharged(a: QueuedAction, t: Attempt) {
    IsLinkDown(a, t) && a.attempts + 1 < MAX_ATTEMPTS
  }

  /** An error that is no connectivity failure, or a connectivity failure other than a 401 with the budget spent. */
  predicate IsFatal(a: QueuedAction, t: Attempt) {
    ErrorOf(a, t).Some? && (IsLinkDown(a, t) ==> a.attempts + 1 >= MAX_ATTEMPTS)
  }

  /** Where a flush's progress on the driver's database ends: at the first action charged or answered 401. */
  function Reach(q: seq<QueuedAction>, net: Network): (k: nat)
    ensures k <= |q|
    ensures forall i :: 0 <= i < k ==> !MeetsExpiry(q[i], net(q[i].id)) && !IsCharged(q[i], net(q[i].id))
    ensures k < |q| ==> MeetsExpiry(q[k], net(q[k].id)) || IsCharged(q[k], net(q[k].id))
    decreases |q|
  {
    if q == [] || MeetsExpiry(q[0], net(q[0].id)) || IsCharged(q[0], net(q[0].id)) then 0
    else 1 + Reach(q[1..], net)
  }

  predicate EndsIn401(q: seq<QueuedAction>, net: Network) {
    Reach(q, net) < |q| && MeetsExpiry(q[Reach(q, net)], net(q[Reach(q, net)].id))
  }

  /** Everything from there on, its head charged. */
  function ChargedRest(q: seq<QueuedAction>, net: Network): seq<QueuedAction> {
    var k := Reach(q, net);
    if k == |q| then [] else [Charged(q[k])] + q[k + 1..]
  }

  /** What is left: that, or nothing is charged if a 401 ended the flush. */
  function Left(q: seq<QueuedAction>, net: Network): seq<QueuedAction> {
    if EndsIn401(q, net) then q[Reach(q, net)..] else ChargedRest(q, net)
  }

  lemma LeftUnfolds(q: seq<QueuedAction>, net: Network)
    requires q != []
    ensures Left(q, net) ==
      if MeetsExpiry(q[0], net(q[0].id)) then q
      else if IsCharged(q[0], net(q[0].id)) then [Charged(q[0])] + q[1..]
      else Left(q[1..], net)
  {
    hide MeetsExpiry, IsCharged;
    var k := Reach(q, net);
    assert q[0..] == q;
    if k > 0 {
      assert k == 1 + Reach(q[1..], net);
      if k < |q| {
        assert q[1..][k - 1] == q[k];
        assert q[1..][k - 1..] == q[k..];
        assert q[1..][k..] == q[k + 1..];
      }
    }
  }

  lemma BumpHeadSorted(q: seq<QueuedAction>, head: QueuedAction)
    requires q != [] && DistinctIds(q) && Sorted(q)
    requires head.id == q[0].id && head.queuedAt == q[0].queuedAt
    ensures DistinctIds([head] + q[1..]) && Sorted([head] + q[1..])
  {
    var q' := [head] + q[1..];
    forall i, j | 0 <= i < j < |q'| ensures ActionQueue.Before(q'[i], q'[j]) && q'[i].id != q'[j].id {
      assert q'[j] == q[j];
      assert ActionQueue.Before(q[i], q[j]);
    }
  }

  lemma BumpHead(q: seq<QueuedAction>, rows: map<string, QueuedAction>)
    requires q != [] && IsReplayOrder(q, rows)
    ensures var head := Charged(q[0]); IsReplayOrder([head] + q[1..], rows[head.id := head])
  {
    var head := Charged(q[0]);
    var q', rows' := [head] + q[1..], rows[head.id := head];
    BumpHeadSorted(q, head);
    forall id | id in rows' ensures Holds(q', id) {
      assert Holds(q, id);
      var i :| 0 <= i < |q| && q[i].id == id;
      assert q'[i].id == id;
    }
    forall i | 0 <= i < |q'| ensures q'[i].id in rows' && rows'[q'[i].id] == q'[i] {
      assert i > 0 ==> q'[i] == q[i] && q[i].id != q[0].id;
    }
  }

  /** A flush whose token is gone takes its rows off the signed-out database only. */
  lemma {:induction false} SignedOutWalk(d: Device, q: seq<QueuedAction>, net: Network)
    requires d.token.None?
    ensures var w := Walk(d, q, net).device;
      w.token.None? && forall key :: key != ANONYMOUS ==> Db(w.dbs, key) == Db(d.dbs, key)
    decreases |q|
  {
    if q == [] {
    } else {
      SignedOutWalk(AfterTry(d, q[0], net(q[0].id)), q[1..], net);
    }
  }

  lemma TryOf(d: Device, a: QueuedAction, t: Attempt)
    requires d.token.Some?
    ensures Stalls(d.token, a, t) <==>
      IsCharged(a, t) || (MeetsExpiry(a, t) && a.attempts + 1 < MAX_ATTEMPTS)
    ensures Accepted(d.token, a, t) <==> IsDelivered(a, t)
    ensures AfterTry(d, a, t).token == if MeetsExpiry(a, t) then None else d.token
  {
  }

  /** No database but the driver's and the signed-out one differs. */
  ghost predicate OthersSame(d: Device, e: Device, key: string) {
    forall k :: k != key && k != ANONYMOUS ==> Db(e.dbs, k) == Db(d.dbs, k)
  }

  lemma FirstMeets401(d: Device, q: seq<QueuedAction>, net: Network)
    requires d.token.Some? && q != [] && MeetsExpiry(q[0], net(q[0].id))
    ensures var w := Walk(d, q, net).device;
      w.token.None? && forall key :: key != ANONYMOUS ==> Db(w.dbs, key) == Db(d.dbs, key)
  {
    TryOf(d, q[0], net(q[0].id));
    if !Stalls(d.token, q[0], net(q[0].id)) {
      SignedOutWalk(AfterTry(d, q[0], net(q[0].id)), q[1..], net);
    }
  }

  lemma FirstIsCharged(d: Device, q: seq<QueuedAction>, net: Network)
    requires d.token.Some? && q != [] && IsCharged(q[0], net(q[0].id))
    ensures Walk(d, q, net).device == Device(d.token, Put(d.dbs, Key(d.token), Charged(q[0])))
  {
    TryOf(d, q[0], net(q[0].id));
  }

  lemma FirstLeaves(d: Device, q: seq<QueuedAction>, net: Network)
    requires d.token.Some? && q != [] && !MeetsExpiry(q[0], net(q[0].id)) && !IsCharged(q[0], net(q[0].id))
    ensures Walk(d, q, net).device == Walk(Device(d.token, Delete(d.dbs, Key(d.token), q[0].id)), q[1..], net).device
  {
    TryOf(d, q[0], net(q[0].id));
  }

  ghost predicate LeftOn(d: Device, q: seq<QueuedAction>, net: Network, w: Device) {
    && IsReplayOrder(Left(q, net), Db(w.dbs, Key(d.token)))
    && w.token == (if EndsIn401(q, net) then None else d.token)
    && OthersSame(d, w, Key(d.token))
  }

  lemma ExpiredLeaves(d: Device, q: seq<QueuedAction>, net: Network)
    requires d.token.Some? && Key(d.token) != ANONYMOUS && IsReplayOrder(q, Db(d.dbs, Key(d.token)))
    requires q != [] && MeetsExpiry(q[0], net(q[0].id))
    ensures LeftOn(d, q, net, Walk(d, q, net).device)
  {
    LeftUnfolds(q, net);
    EndUnfolds(q, net);
    FirstMeets401(d, q, net);
    hide Left, EndsIn401, IsReplayOrder, MeetsExpiry, Walk, Reach;
  }

  lemma PutOn(d: Device, row: QueuedAction, w: Device)
    requires d.token.Some? && w == Device(d.token, Put(d.dbs, Key(d.token), row))
    ensures Db(w.dbs, Key(d.token)) == Db(d.dbs, Key(d.token))[row.id := row] && OthersSame(d, w, Key(d.token))
  {
  }

  lemma ChargedLeaves(d: Device, q: seq<QueuedAction>, net: Network)
    requires d.token.Some? && Key(d.token) != ANONYMOUS && IsReplayOrder(q, Db(d.dbs, Key(d.token)))
    requires q != [] && !MeetsExpiry(q[0], net(q[0].id)) && IsCharged(q[0], net(q[0].id))
    ensures LeftOn(d, q, net, Walk(d, q, net).device)
  {
    hide IsReplayOrder, OthersSame;
    assert Reach(q, net) == 0;
    hide Reach;
    LeftUnfolds(q, net);
    EndUnfolds(q, net);
    FirstIsCharged(d, q, net);
    BumpHead(q, Db(d.dbs, Key(d.token)));
    hide Left, EndsIn401, MeetsExpiry, IsCharged, Walk;
    PutOn(d, Charged(q[0]), Walk(d, q, net).device);
  }

  lemma RestLeaves(d: Device, q: seq<QueuedAction>, net: Network, w: Device)
    requires q != [] && !MeetsExpiry(q[0], net(q[0].id)) && !IsCharged(q[0], net(q[0].id))
    requires LeftOn(Device(d.token, Delete(d.dbs, Key(d.token), q[0].id)), q[1..], net, w)
    ensures LeftOn(d, q, net, w)
  {
    LeftUnfolds(q, net);
    EndUnfolds(q, net);
    OthersAfterDelete(d, Key(d.token), q[0].id, w);
    hide Left, EndsIn401, IsReplayOrder, MeetsExpiry, IsCharged, OthersSame;
  }

  /** In every flush a signed-in driver starts, whatever the network does: what is left in the driver's database
      is `Left` of what was there, and no other database but the signed-out one changes. */
  lemma {:induction false} FlushLeaves(d: Device, q: seq<QueuedAction>, net: Network)
    requires d.token.Some? && Key(d.token) != ANONYMOUS && IsReplayOrder(q, Db(d.dbs, Key(d.token)))
    ensures LeftOn(d, q, net, Walk(d, q, net).device)
    decreases |q|
  {
    hide MeetsExpiry, IsCharged;
    if q == [] {
    } else {
      if MeetsExpiry(q[0], net(q[0].id)) {
        ExpiredLeaves(d, q, net);
      } else if IsCharged(q[0], net(q[0].id)) {
        ChargedLeaves(d, q, net);
      } else {
        hide LeftOn, Walk, IsReplayOrder;
        var e := Device(d.token, Delete(d.dbs, Key(d.token), q[0].id));
        FirstLeaves(d, q, net);
        TailIsReplayOrder(q, Db(d.dbs, Key(d.token)));
        assert Db(e.dbs, Key(d.token)) == Db(d.dbs, Key(d.token)) - {q[0].id};
        FlushLeaves(e, q[1..], net);
        RestLeaves(d, q, net, Walk(e, q[1..], net).device);
      }
    }
  }

  /** The rest is left with its head charged if and only if no try of the flush is answered 401. */
  lemma HeadIsChargedIff(d: Device, q: seq<QueuedAction>, net: Network)
    requires d.token.Some? && Key(d.token) != ANONYMOUS && IsReplayOrder(q, Db(d.dbs, Key(d.token)))
    ensures IsReplayOrder(ChargedRest(q, net), Db(Walk(d, q, net).device.dbs, Key(d.token))) <==> !EndsIn401(q, net)
  {
    FlushLeaves(d, q, net);
    var rows, rest, k := Db(Walk(d, q, net).device.dbs, Key(d.token)), ChargedRest(q, net), Reach(q, net);
    if EndsIn401(q, net) {
      assert Left(q, net)[0] == q[k] && rows[q[k].id] == q[k];
      assert rest[0] == Charged(q[k]);
    }
  }

  lemma OthersAfterDelete(d: Device, key: string, id: string, w: Device)
    requires OthersSame(Device(d.token, Delete(d.dbs, key, id)), w, key)
    ensures OthersSame(d, w, key)
  {
    var e := Device(d.token, Delete(d.dbs, key, id));
    forall k | k != key && k != ANONYMOUS ensures Db(w.dbs, k) == Db(d.dbs, k) {
      assert Db(w.dbs, k) == Db(e.dbs, k);
    }
  }

  lemma EndUnfolds(q: seq<QueuedAction>, net: Network)
    requires q != []
    ensures EndsIn401(q, net) <==>
      MeetsExpiry(q[0], net(q[0].id)) || (!IsCharged(q[0], net(q[0].id)) && EndsIn401(q[1..], net))
  {
    if Reach(q, net) > 0 {
      assert Reach(q, net) == 1 + Reach(q[1..], net);
    }
  }

  lemma LeftIds(q: seq<QueuedAction>, net: Network, j: nat)
    requires Reach(q, net) + j < |q|
    ensures j < |Left(q, net)| && Left(q, net)[j].id == q[Reach(q, net) + j].id
  {
    var k := Reach(q, net);
    hide Reach, MeetsExpiry, IsCharged;
    if EndsIn401(q, net) {
      assert q[k..][j] == q[k + j];
    } else if j > 0 {
      assert ([Charged(q[k])] + q[k + 1..])[j] == q[k + 1..][j - 1] == q[k + j];
    }
  }

  lemma LeftSize(q: seq<QueuedAction>, net: Network)
    ensures |Left(q, net)| == |q| - Reach(q, net)
  {
    hide Reach, MeetsExpiry, IsCharged;
  }

  /** A flush gets past its i-th action: it, and every one before it, is answered neither 401 nor a connectivity
      failure with budget left. */
  ghost predicate GetsPast(q: seq<QueuedAction>, net: Network, i: nat)
    requires i < |q|
  {
    forall j :: 0 <= j <= i ==> !MeetsExpiry(q[j], net(q[j].id)) && !IsCharged(q[j], net(q[j].id))
  }

  lemma GetsPastIff(q: seq<QueuedAction>, net: Network, i: nat)
    requires i < |q|
    ensures GetsPast(q, net, i) <==> i < Reach(q, net)
  {
    hide MeetsExpiry, IsCharged, Reach;
  }

  /** `left` holds the ids of the last actions of `q`. */
  ghost predicate KeepsLast(q: seq<QueuedAction>, left: seq<QueuedAction>) {
    |left| <= |q| && forall j :: 0 <= j < |left| ==> left[j].id == q[|q| - |left| + j].id
  }

  lemma LeftIsLast(q: seq<QueuedAction>, net: Network)
    ensures KeepsLast(q, Left(q, net))
  {
    LeftSize(q, net);
    hide Left, Reach;
    var left := Left(q, net);
    forall j | 0 <= j < |left| ensures left[j].id == q[|q| - |left| + j].id {
      LeftIds(q, net, j);
    }
  }

  lemma RowsLeft(q: seq<QueuedAction>, was: map<string, QueuedAction>, left: seq<QueuedAction>,
                 rows: map<string, QueuedAction>, i: nat)
    requires IsReplayOrder(q, was) && IsReplayOrder(left, rows) && KeepsLast(q, left) && i < |q|
    ensures q[i].id !in rows <==> i < |q| - |left|
  {
    hide Sorted;
    if i < |q| - |left| {
      assert q[i].id in rows ==> Holds(left, q[i].id);
    } else {
      assert left[i - (|q| - |left|)].id == q[i].id;
    }
  }

  /** A row leaves the driver's database if and only if the flush gets past it. */
  lemma RowLeavesIff(d: Device, q: seq<QueuedAction>, net: Network, i: nat)
    requires d.token.Some? && Key(d.token) != ANONYMOUS && IsReplayOrder(q, Db(d.dbs, Key(d.token))) && i < |q|
    ensures q[i].id !in Db(Walk(d, q, net).device.dbs, Key(d.token)) <==> GetsPast(q, net, i)
  {
    hide Walk, Left, OthersSame, Reach, GetsPast, IsReplayOrder, KeepsLast, EndsIn401;
    FlushLeaves(d, q, net);
    GetsPastIff(q, net, i);
    LeftSize(q, net);
    LeftIsLast(q, net);
    RowsLeft(q, Db(d.dbs, Key(d.token)), Left(q, net), Db(Walk(d, q, net).device.dbs, Key(d.token)), i);
  }

  lemma GetsPastNext(q: seq<QueuedAction>, net: Network, i: nat)
    requires i < |q|
    ensures GetsPast(q, net, i) <==>
      (i > 0 ==> GetsPast(q, net, i - 1)) && !MeetsExpiry(q[i], net(q[i].id)) && !IsCharged(q[i], net(q[i].id))
  {
    hide MeetsExpiry, IsCharged;
  }

  lemma OwnTry(a: QueuedAction, t: Attempt)
    ensures !MeetsExpiry(a, t) && !IsCharged(a, t) && !IsDelivered(a, t) <==> IsFatal(a, t)
  {
  }

  /** A row leaves although no acceptance was heard if and only if the flush gets to it and its own try is fatal. */
  lemma RowIsLostIff(d: Device, q: seq<QueuedAction>, net: Network, i: nat)
    requires d.token.Some? && Key(d.token) != ANONYMOUS && IsReplayOrder(q, Db(d.dbs, Key(d.token))) && i < |q|
    ensures
      q[i].id !in Db(Walk(d, q, net).device.dbs, Key(d.token)) && !IsDelivered(q[i], net(q[i].id)) <==>
      (i > 0 ==> GetsPast(q, net, i - 1)) && IsFatal(q[i], net(q[i].id))
  {
    RowLeavesIff(d, q, net, i);
    GetsPastNext(q, net, i);
    OwnTry(q[i], net(q[i].id));
    hide *;
  }

  lemma UnchangedIff(q: seq<QueuedAction>, net: Network)
    requires q != []
    ensures Left(q, net) == q <==> MeetsExpiry(q[0], net(q[0].id))
  {
    var k := Reach(q, net);
    assert q[0..] == q;
    if k == 0 && !MeetsExpiry(q[0], net(q[0].id)) {
      assert Left(q, net)[0].attempts != q[0].attempts;
    }
  }

  /** A flush leaves the driver's database as it was, no closer to being empty, if and only if the first try is
      answered 401. */
  lemma FlushChangesNothingIff(d: Device, q: seq<QueuedAction>, net: Network)
    requires d.token.Some? && Key(d.token) != ANONYMOUS && IsReplayOrder(q, Db(d.dbs, Key(d.token))) && q != []
    ensures Db(Walk(d, q, net).device.dbs, Key(d.token)) == Db(d.dbs, Key(d.token)) <==>
      MeetsExpiry(q[0], net(q[0].id))
  {
    FlushLeaves(d, q, net);
    UnchangedIff(q, net);
    hide Walk, Left, MeetsExpiry, OthersSame;
    var was, now := Db(d.dbs, Key(d.token)), Db(Walk(d, q, net).device.dbs, Key(d.token));
    if was == now {
      ReplayOrderUnique(q, Left(q, net), was);
    } else if Left(q, net) == q {
      SameRows(q, was, now);
    }
  }

  lemma SameRows(q: seq<QueuedAction>, was: map<string, QueuedAction>, now: map<string, QueuedAction>)
    requires IsReplayOrder(q, was) && IsReplayOrder(q, now)
    ensures was == now
  {
    forall id | id in was.Keys + now.Keys ensures id in was && id in now && was[id] == now[id] {
      assert Holds(q, id);
    }
  }

  // ---------------------------------------------------------------------
  // Draining
  // ---------------------------------------------------------------------

  /** Every stored action still has budget. `sendOrQueue` stores 0 attempts, a flush at most 7. */
  predicate InBudget(q: seq<QueuedAction>) {
    forall i :: 0 <= i < |q| ==> q[i].attempts < MAX_ATTEMPTS
  }

  function Budget(q: seq<QueuedAction>): nat
    requires InBudget(q)
  {
    if q == [] then 0 else MAX_ATTEMPTS - 1 - q[0].attempts + Budget(q[1..])
  }

  /** The driver's queue after a series of online flushes, each with its own network, signing in again before each. */
  function Drained(q: seq<QueuedAction>, nets: seq<Network>): seq<QueuedAction>
    decreases |nets|
  {
    if nets == [] then q else Drained(Left(q, nets[0]), nets[1..])
  }

  ghost predicate AllKeyed(dbs: Databases) {
    forall key :: Keyed(Db(dbs, key))
  }

  ghost function DeviceAfter(d: Device, driver: string, nets: seq<Network>): Device
    requires AllKeyed(d.dbs)
    decreases |nets|
  {
    if nets == [] then d
    else
      var q := ReplayOrder(Db(d.dbs, driver));
      WalkKeyed(d.(token := Some(driver)), q, nets[0]);
      DeviceAfter(Walk(d.(token := Some(driver)), q, nets[0]).device, driver, nets[1..])
  }

  /** On the device: a series of flushes leaves in the driver's database what `Drained` says. */
  lemma {:induction false} DeviceDrains(d: Device, driver: string, q: seq<QueuedAction>, nets: seq<Network>)
    requires driver != "" && driver != ANONYMOUS && IsReplayOrder(q, Db(d.dbs, driver)) && AllKeyed(d.dbs)
    ensures IsReplayOrder(Drained(q, nets), Db(DeviceAfter(d, driver, nets).dbs, driver))
    decreases |nets|
  {
    if nets == [] {
    } else {
      var order := ReplayOrder(Db(d.dbs, driver));
      ReplayOrderUnique(q, order, Db(d.dbs, driver));
      var signedIn := d.(token := Some(driver));
      FlushLeaves(signedIn, q, nets[0]);
      var next := Walk(signedIn, q, nets[0]).device;
      WalkKeyed(signedIn, q, nets[0]);
      DeviceDrains(next, driver, Left(q, nets[0]), nets[1..]);
    }
  }

  /** How many flushes of the series are not ended by a 401. */
  function Clean(q: seq<QueuedAction>, nets: seq<Network>): nat
    decreases |nets|
  {
    if nets == [] then 0
    else Clean(Left(q, nets[0]), nets[1..]) + if EndsIn401(q, nets[0]) then 0 else 1
  }

  lemma {:induction false} SuffixBudget(q: seq<QueuedAction>, k: nat)
    requires InBudget(q) && k <= |q|
    ensures InBudget(q[k..]) && Budget(q[k..]) <= Budget(q)
  {
    if k == 0 {
      assert q[0..] == q;
    } else {
      assert q[1..][k - 1..] == q[k..];
      SuffixBudget(q[1..], k - 1);
    }
  }

  /** No flush raises the budget; one that is not ended by a 401 empties the queue or lowers it. */
  lemma FlushSpendsBudget(q: seq<QueuedAction>, net: Network)
    requires InBudget(q)
    ensures InBudget(Left(q, net)) && Budget(Left(q, net)) <= Budget(q)
    ensures !EndsIn401(q, net) && Left(q, net) != [] ==> Budget(Left(q, net)) < Budget(q)
  {
    var k := Reach(q, net);
    SuffixBudget(q, k);
    if k < |q| && !EndsIn401(q, net) {
      var left := Left(q, net);
      assert left[1..] == q[k + 1..] == q[k..][1..];
      SuffixBudget(q, k + 1);
    }
  }

  lemma {:induction false} EmptyStaysEmpty(nets: seq<Network>)
    ensures Drained([], nets) == []
  {
    if nets == [] {
    } else {
      EmptyStaysEmpty(nets[1..]);
    }
  }

  lemma {:induction false} DrainsWithinBudget(q: seq<QueuedAction>, nets: seq<Network>)
    requires InBudget(q) && Clean(q, nets) > Budget(q)
    ensures Drained(q, nets) == []
    decreases |nets|
  {
    var rest := Left(q, nets[0]);
    FlushSpendsBudget(q, nets[0]);
    if rest == [] {
      EmptyStaysEmpty(nets[1..]);
    } else {
      DrainsWithinBudget(rest, nets[1..]);
    }
  }

  predicate AllFresh(q: seq<QueuedAction>) {
    forall i :: 0 <= i < |q| ==> q[i].attempts == 0
  }

  lemma {:induction false} FreshBudget(q: seq<QueuedAction>)
    requires AllFresh(q)
    ensures InBudget(q) && Budget(q) == 7 * |q|
  {
    if q == [] {
    } else {
      FreshBudget(q[1..]);
    }
  }

  /** A queue of n fresh actions is empty once 7n + 1 online flushes met no 401, whatever the network does
      otherwise and however many flushes in between met one. */
  lemma FreshQueueDrains(q: seq<QueuedAction>, nets: seq<Network>)
    requires AllFresh(q) && Clean(q, nets) >= 7 * |q| + 1
    ensures Drained(q, nets) == []
  {
    FreshBudget(q);
    DrainsWithinBudget(q, nets);
  }

  /** So on the device: after that many flushes the driver's database is empty. */
  lemma FreshDatabaseDrains(d: Device, driver: string, q: seq<QueuedAction>, nets: seq<Network>)
    requires driver != "" && driver != ANONYMOUS && IsReplayOrder(q, Db(d.dbs, driver)) && AllKeyed(d.dbs)
    requires AllFresh(q) && Clean(q, nets) >= 7 * |q| + 1
    ensures Db(DeviceAfter(d, driver, nets).dbs, driver) == map[]
  {
    hide Clean, Drained, DeviceAfter;
    DeviceDrains(d, driver, q, nets);
    FreshQueueDrains(q, nets);
    var rows := Db(DeviceAfter(d, driver, nets).dbs, driver);
    assert forall id :: id in rows ==> Holds([], id);
  }

  /** The link is dead for every action. */
  const DEAD: Network := _ => Attempt(Threw("NETWORK_UNREACHABLE"), Threw("NETWORK_UNREACHABLE"))

  /** Every answer is a 401. */
  const EXPIRED: Network := _ => Attempt(Reply.Expired, Reply.Expired)

  /** Without that condition nothing drains: any number of flushes answered 401 leaves every row as it was. */
  lemma {:induction false} ExpiredFlushesNeverDrain(q: seq<QueuedAction>, n: nat)
    requires q != []
    ensures Drained(q, seq(n, _ => EXPIRED)) == q
  {
    if n > 0 {
      var nets := seq(n, _ => EXPIRED);
      assert nets[1..] == seq(n - 1, _ => EXPIRED);
      assert EXPIRED(q[0].id) == Attempt(Reply.Expired, Reply.Expired);
      UnchangedIff(q, EXPIRED);
      ExpiredFlushesNeverDrain(q, n - 1);
    }
  }

  lemma ExpiredDatabaseNeverDrains(d: Device, driver: string, q: seq<QueuedAction>, n: nat)
    requires driver != "" && driver != ANONYMOUS && IsReplayOrder(q, Db(d.dbs, driver)) && AllKeyed(d.dbs) && q != []
    ensures IsReplayOrder(q, Db(DeviceAfter(d, driver, seq(n, _ => EXPIRED)).dbs, driver))
  {
    hide Drained, DeviceAfter;
    DeviceDrains(d, driver, q, seq(n, _ => EXPIRED));
    ExpiredFlushesNeverDrain(q, n);
  }

  lemma DeadLinkCharges(a: QueuedAction)
    ensures !MeetsExpiry(a, DEAD(a.id)) && (IsCharged(a, DEAD(a.id)) <==> a.attempts + 1 < MAX_ATTEMPTS)
  {
    assert DEAD(a.id).send == Threw("NETWORK_UNREACHABLE") && DEAD(a.id).upload == Threw("NETWORK_UNREACHABLE");
  }

  lemma {:induction false} DeadFlushSpendsOne(q: seq<QueuedAction>)
    requires InBudget(q) && Budget(q) > 0
    ensures var rest := Left(q, DEAD); rest != [] && InBudget(rest) && Budget(rest) == Budget(q) - 1
  {
    LeftUnfolds(q, DEAD);
    DeadLinkCharges(q[0]);
    if IsCharged(q[0], DEAD(q[0].id)) {
      assert ([Charged(q[0])] + q[1..])[1..] == q[1..];
    } else {
      DeadFlushSpendsOne(q[1..]);
    }
  }

  lemma {:induction false} DeadLinkNeedsEveryFlush(q: seq<QueuedAction>, n: nat)
    requires InBudget(q) && q != [] && n <= Budget(q)
    ensures Drained(q, seq(n, _ => DEAD)) != []
    decreases n
  {
    if n > 0 {
      var nets := seq(n, _ => DEAD);
      assert nets[1..] == seq(n - 1, _ => DEAD);
      DeadFlushSpendsOne(q);
      DeadLinkNeedsEveryFlush(Left(q, DEAD), n - 1);
    }
  }

  /** The bound is tight: on a dead link 7n flushes leave a non-empty fresh queue non-empty. */
  lemma FreshQueueBoundIsTight(q: seq<QueuedAction>)
    requires AllFresh(q) && q != []
    ensures Drained(q, seq(7 * |q|, _ => DEAD)) != []
  {
    FreshBudget(q);
    DeadLinkNeedsEveryFlush(q, 7 * |q|);
  }
}
