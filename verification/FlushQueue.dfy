/** One flush, and one send, on a device with a stored token and a database per driver (apps/driver/lib). */
module FlushQueue {
  import opened Prelude
  import opened MediaSubstitution
  import opened ActionQueue

  /** `Expired` is a 401: the client clears the token and throws SESSION_EXPIRED. */
  datatype Reply<+T> = Answered(value: T) | Expired | Threw(message: string)

  /** What the network has in store for one try of one action. */
  datatype Attempt = Attempt(upload: Reply<string>, send: Reply<()>)

  /** One flush tries an action at most once, so its network is a function of the action's id. */
  type Network = string -> Attempt

  datatype Purpose = PodPhoto | ProductImage | Invoice | TransferProof

  datatype Call = UploadCall(blob: Blob, purpose: Purpose) | SendCall(path: string, body: Json)

  datatype Device = Device(token: Option<string>, dbs: Databases)

  // ---------------------------------------------------------------------
  // One try of one action
  // ---------------------------------------------------------------------

  datatype Failure = NotLoggedIn | Unauthorized | Error(message: string)

  function Thrown<T>(reply: Reply<T>): Option<Failure> {
    match reply
    case Answered(_) => None
    case Expired => Some(Unauthorized)
    case Threw(message) => Some(Error(message))
  }

  /** What a try throws, if anything: for want of a token, from the upload, or from the send. */
  function TryFails(token: Option<string>, photo: bool, t: Attempt): Option<Failure> {
    if token.None? then Some(NotLoggedIn)
    else if photo && !t.upload.Answered? then Thrown(t.upload)
    else Thrown(t.send)
  }

  predicate IsConnectivity(failure: Failure) {
    failure.Unauthorized? || (failure.Error? && IsConnectivityFailure(failure.message))
  }

  /** A 401 clears the token before anything is stored. */
  function TokenAfter(token: Option<string>, failure: Option<Failure>): Option<string> {
    if failure == Some(Unauthorized) then None else token
  }

  function RowFails(token: Option<string>, a: QueuedAction, t: Attempt): Option<Failure> {
    TryFails(token, a.blob.Some?, t)
  }

  predicate Accepted(token: Option<string>, a: QueuedAction, t: Attempt) {
    RowFails(token, a, t).None?
  }

  /** The try fails on connectivity and the action still has budget: the flush stops here. */
  predicate Stalls(token: Option<string>, a: QueuedAction, t: Attempt) {
    var f := RowFails(token, a, t);
    f.Some? && IsConnectivity(f.value) && a.attempts + 1 < MAX_ATTEMPTS
  }

  /** The body that is sent. */
  function Payload(a: QueuedAction, t: Attempt): Json {
    if a.blob.Some? && t.upload.Answered?
    then Substitute(a.body, a.blob.value.placeholder, t.upload.value)
    else a.body
  }

  /** The requests that leave. A flush uploads every photo as `pod_photo`. */
  function CallsOf(token: Option<string>, a: QueuedAction, t: Attempt): seq<Call> {
    if token.None? then []
    else
      (if a.blob.Some? then [UploadCall(a.blob.value, PodPhoto)] else []) +
      (if a.blob.Some? && !t.upload.Answered? then [] else [SendCall(a.path, Payload(a, t))])
  }

  /** The device after a flush tried one action. */
  function AfterTry(d: Device, a: QueuedAction, t: Attempt): Device {
    var token := TokenAfter(d.token, RowFails(d.token, a, t));
    Device(token, if Stalls(d.token, a, t) then Put(d.dbs, Key(token), Charged(a)) else Delete(d.dbs, Key(token), a.id))
  }

  // ---------------------------------------------------------------------
  // A whole flush over a sorted snapshot
  // ---------------------------------------------------------------------

  datatype Walked = Walked(device: Device, calls: seq<Call>, sent: nat, discarded: nat, pending: nat)

  function Prepend(w: Walked, calls: seq<Call>, sent: nat, discarded: nat): Walked {
    w.(calls := calls + w.calls, sent := sent + w.sent, discarded := discarded + w.discarded)
  }

  function Walk(d: Device, q: seq<QueuedAction>, net: Network): Walked
    decreases |q|
  {
    if q == [] then Walked(d, [], 0, 0, 0)
    else
      var a, t := q[0], net(q[0].id);
      if Stalls(d.token, a, t) then Walked(AfterTry(d, a, t), CallsOf(d.token, a, t), 0, 0, |q|)
      else
        var ok := Accepted(d.token, a, t);
        Prepend(Walk(AfterTry(d, a, t), q[1..], net), CallsOf(d.token, a, t), if ok then 1 else 0, if ok then 0 else 1)
  }

  lemma PrependTwice(w: Walked, c1: seq<Call>, s1: nat, d1: nat, c2: seq<Call>, s2: nat, d2: nat)
    ensures Prepend(Prepend(w, c2, s2, d2), c1, s1, d1) == Prepend(w, c1 + c2, s1 + s2, d1 + d2)
  {
    ConcatAssociative(c1, c2, w.calls);
  }

  // ---------------------------------------------------------------------
  // The device
  // ---------------------------------------------------------------------

  datatype Photo = Photo(data: seq<bv8>, fileName: string, contentType: string, purpose: Purpose)

  datatype SendOutcome = SentNow | QueuedForLater | Raised(failure: Failure)

  function HeldBlob(photo: Photo): Blob {
    Blob(QUEUED_MEDIA, photo.data, photo.fileName, photo.contentType)
  }

  /** What a failing request throws into the caller. */
  datatype Answer<+T> = Value(value: T) | Failed(failure: Failure)

  class DriverApp {
    var token: Option<string>
    var dbs: Databases
    /** Every request that left for the network, oldest first. */
    var calls: seq<Call>

    ghost predicate Valid() reads this {
      forall key :: Keyed(Db(dbs, key))
    }

    function Contents(): Device reads this {
      Device(token, dbs)
    }

    constructor (stored: Option<string>)
      ensures Valid() && Contents() == Device(stored, map[]) && calls == []
    {
      token, dbs, calls := stored, map[], [];
    }

    /** The current driver's database hands its rows out in an order of its own. */
    method All() returns (listing: seq<QueuedAction>)
      requires Valid()
      ensures IsListing(listing, Db(dbs, Key(token)))
    {
      listing := [];
      var rows := Db(dbs, Key(token));
      var left := rows.Keys;
      while left != {}
        invariant left <= rows.Keys
        invariant forall i :: 0 <= i < |listing| ==>
          listing[i].id in rows.Keys - left && rows[listing[i].id] == listing[i]
        invariant DistinctIds(listing)
        invariant forall id :: id in rows && id !in left ==> Holds(listing, id)
        decreases left
      {
        var id :| id in left;
        ghost var was := listing;
        listing := listing + [rows[id]];
        left := left - {id};
        forall x | x in rows && x !in left ensures Holds(listing, x) {
          if x == id {
            assert listing[|was|].id == id;
          } else {
            assert Holds(was, x);
            var i :| 0 <= i < |was| && was[i].id == x;
            assert listing[i].id == x;
          }
        }
      }
    }

    /** `authedFetch`: without a token nothing leaves; a 401 clears it. */
    method AuthedFetch<T>(call: Call, reply: Reply<T>) returns (answer: Answer<T>)
      modifies this`token, this`calls
      ensures old(token).None? ==> answer == Failed(NotLoggedIn) && token.None? && calls == old(calls)
      ensures old(token).Some? ==>
        && calls == old(calls) + [call]
        && token == TokenAfter(old(token), Thrown(reply))
        && answer == if reply.Answered? then Value(reply.value) else Failed(Thrown(reply).value)
    {
      if token.None? {
        return Failed(NotLoggedIn);
      }
      calls := calls + [call];
      if reply.Expired? {
        token := None;
        return Failed(Unauthorized);
      }
      return if reply.Answered? then Value(reply.value) else Failed(Error(reply.message));
    }

    /** Upload, then send. */
    method TryAction(action: QueuedAction, reply: Attempt) returns (failure: Option<Failure>)
      modifies this`token, this`calls
      ensures failure == RowFails(old(token), action, reply)
      ensures token == TokenAfter(old(token), failure)
      ensures calls == old(calls) + CallsOf(old(token), action, reply)
    {
      var body := action.body;
      if action.blob.Some? {
        var media := AuthedFetch(UploadCall(action.blob.value, PodPhoto), reply.upload);
        if media.Failed? {
          return Some(media.failure);
        }
        body := Substitute(action.body, action.blob.value.placeholder, media.value);
      }
      var answer := AuthedFetch(SendCall(action.path, body), reply.send);
      return if answer.Failed? then Some(answer.failure) else None;
    }

    method Remove(id: string)
      modifies this`dbs
      ensures dbs == Delete(old(dbs), Key(token), id)
    {
      dbs := Delete(dbs, Key(token), id);
    }

    /** The body of the flush loop: what one action's try does to the device. */
    method Process(action: QueuedAction, t: Attempt) returns (stalled: bool, sent: bool)
      modifies this
      ensures Contents() == AfterTry(old(Contents()), action, t)
      ensures stalled == Stalls(old(token), action, t) && sent == Accepted(old(token), action, t)
      ensures calls == old(calls) + CallsOf(old(token), action, t)
    {
      var failure := TryAction(action, t);
      if failure.None? {
        Remove(action.id);
        return false, true;
      }
      if !IsConnectivity(failure.value) {
        Remove(action.id);
        return false, false;
      }
      var attempts := action.attempts + 1;
      if attempts >= MAX_ATTEMPTS {
        Remove(action.id);
        return false, false;
      }
      dbs := Put(dbs, Key(token), action.(attempts := attempts));
      return true, false;
    }

    /** The flush loop. */
    method ReplaySnapshot(q: seq<QueuedAction>, net: Network) returns (result: FlushResult)
      modifies this
      ensures var w := Walk(old(Contents()), q, net);
        && Contents() == w.device && calls == old(calls) + w.calls
        && result == FlushResult(w.sent, w.pending, w.discarded)
    {
      result := FlushResult(0, 0, 0);
      ghost var made := [];
      ghost var all := Walk(Contents(), q, net);
      var index := 0;
      assert Prepend(all, [], 0, 0) == all && q[0..] == q;
      while index < |q|
        invariant index <= |q| && calls == old(calls) + made && result.pending == 0
        invariant all == Prepend(Walk(Contents(), q[index..], net), made, result.sent, result.discarded)
        decreases |q| - index
      {
        var a, t := q[index], net(q[index].id);
        ghost var here, before := Contents(), result;
        ghost var c := CallsOf(here.token, a, t);
        assert q[index..][0] == a && q[index..][1..] == q[index + 1..];
        ConcatAssociative(old(calls), made, c);
        var stalled, sent := Process(a, t);
        if stalled {
          return result.(pending := |q| - index);
        }
        PrependTwice(Walk(Contents(), q[index + 1..], net), made, before.sent, before.discarded,
                    c, if sent then 1 else 0, if sent then 0 else 1);
        made := made + c;
        result := if sent then result.(sent := result.sent + 1) else result.(discarded := result.discarded + 1);
        index := index + 1;
      }
    }

    /** `flushQueue`. The replay order of the driver's database decides everything. */
    method FlushQueue(net: Network, online: bool) returns (result: FlushResult)
      requires Valid()
      modifies this
      ensures Valid()
      ensures !online ==> Contents() == old(Contents()) && calls == old(calls)
      ensures !online ==> result == FlushResult(0, |Db(dbs, Key(token))|, 0)
      ensures online ==>
        var w := Walk(old(Contents()), ReplayOrder(Db(old(dbs), Key(old(token)))), net);
        && Contents() == w.device && calls == old(calls) + w.calls
        && result == FlushResult(w.sent, w.pending, w.discarded)
      ensures result.sent + result.discarded + result.pending == |Db(old(dbs), Key(old(token)))|
    {
      ghost var rows := Db(dbs, Key(token));
      var listing := All();
      var queued := Order(listing);
      OrderIsReplayOrder(listing, rows);
      ReplayOrderUnique(queued, ReplayOrder(rows), rows);
      ReplayOrderSize(queued, rows);
      WalkCounts(Contents(), queued, net);
      WalkKeyed(Contents(), queued, net);
      if |queued| == 0 {
        return FlushResult(0, 0, 0);
      }
      if !online {
        return FlushResult(0, |queued|, 0);
      }
      result := ReplaySnapshot(queued, net);
    }

    /** `sendOrQueue`: send now, or keep the action. A started flush runs on its own. */
    method SendOrQueue(path: string, body: Json, clientActionId: string, photo: Option<Photo>,
                       reply: Attempt, now: int, canQueue: bool)
      returns (outcome: SendOutcome)
      requires Valid()
      modifies this
      ensures Valid()
      ensures token == TokenAfter(old(token), TryFails(old(token), photo.Some?, reply))
      ensures var kept := Keeps(old(token), path, body, clientActionId, photo, reply, now, canQueue);
        && (outcome.QueuedForLater? <==> kept.Some?)
        && dbs == if kept.Some? then Put(old(dbs), Key(token), kept.value) else old(dbs)
      ensures outcome.SentNow? <==> TryFails(old(token), photo.Some?, reply).None?
      ensures outcome.Raised? ==> Some(outcome.failure) == TryFails(old(token), photo.Some?, reply)
      ensures outcome.Raised? ==> !IsConnectivity(outcome.failure) || !canQueue
      ensures calls == old(calls) + LiveCalls(old(token), path, body, photo, reply)
    {
      var resolvedBody := body;
      var heldBlob: Option<Blob> := None;
      if photo.Some? {
        var media := AuthedFetch(UploadCall(HeldBlob(photo.value), photo.value.purpose), reply.upload);
        if media.Value? {
          resolvedBody := Substitute(body, QUEUED_MEDIA, media.value);
        } else {
          if !IsConnectivity(media.failure) || !canQueue {
            return Raised(media.failure);
          }
          heldBlob := Some(HeldBlob(photo.value));
        }
      }
      if heldBlob.None? {
        var answer := AuthedFetch(SendCall(path, resolvedBody), reply.send);
        if answer.Value? {
          return SentNow;
        }
        if !IsConnectivity(answer.failure) || !canQueue {
          return Raised(answer.failure);
        }
      }
      var action := QueuedAction(clientActionId, path, resolvedBody, now, 0, heldBlob);
      PutKeyed(dbs, Key(token), action);
      dbs := Put(dbs, Key(token), action);
      return QueuedForLater;
    }
  }

  lemma PutKeyed(dbs: Databases, key: string, row: QueuedAction)
    requires forall k :: Keyed(Db(dbs, k))
    ensures forall k :: Keyed(Db(Put(dbs, key, row), k))
  {
    forall k ensures Keyed(Db(Put(dbs, key, row), k)) {
      assert Keyed(Db(dbs, k));
    }
  }

  lemma {:induction false} WalkCounts(d: Device, q: seq<QueuedAction>, net: Network)
    ensures var w := Walk(d, q, net); w.sent + w.discarded + w.pending == |q|
    decreases |q|
  {
    if q != [] && !Stalls(d.token, q[0], net(q[0].id)) {
      WalkCounts(AfterTry(d, q[0], net(q[0].id)), q[1..], net);
    }
  }

  lemma {:induction false} WalkKeyed(d: Device, q: seq<QueuedAction>, net: Network)
    requires forall key :: Keyed(Db(d.dbs, key))
    ensures forall key :: Keyed(Db(Walk(d, q, net).device.dbs, key))
    decreases |q|
  {
    if q == [] {
    } else {
      var e := AfterTry(d, q[0], net(q[0].id));
      forall key ensures Keyed(Db(e.dbs, key)) {
        assert Keyed(Db(d.dbs, key));
      }
      if !Stalls(d.token, q[0], net(q[0].id)) {
        WalkKeyed(e, q[1..], net);
      }
    }
  }

  // ---------------------------------------------------------------------
  // A photo action: the same body whichever way it travels
  // ---------------------------------------------------------------------

  function LiveCalls(token: Option<string>, path: string, body: Json, photo: Option<Photo>, reply: Attempt): seq<Call> {
    if token.None? then []
    else if photo.None? then [SendCall(path, body)]
    else
      [UploadCall(HeldBlob(photo.value), photo.value.purpose)] +
      if reply.upload.Answered? then [SendCall(path, Substitute(body, QUEUED_MEDIA, reply.upload.value))] else []
  }

  /** What `SendOrQueue` stores, when it stores something: the photo too if it did not go up. */
  function Keeps(token: Option<string>, path: string, body: Json, id: string, photo: Option<Photo>,
                 reply: Attempt, now: int, canQueue: bool): Option<QueuedAction> {
    var failure := TryFails(token, photo.Some?, reply);
    if !canQueue || failure.None? || !IsConnectivity(failure.value) then None
    else if photo.None? then Some(QueuedAction(id, path, body, now, 0, None))
    else if reply.upload.Answered? then
      Some(QueuedAction(id, path, Substitute(body, QUEUED_MEDIA, reply.upload.value), now, 0, None))
    else Some(QueuedAction(id, path, body, now, 0, Some(HeldBlob(photo.value))))
  }

  /** Holding a photo action and flushing it makes exactly the requests that sending it live makes under the
      same replies if and only if the photo was to be uploaded as `pod_photo`, which is all a flush knows. */
  lemma HeldActionReplaysLiveCalls(token: Option<string>, path: string, body: Json, id: string, photo: Photo,
                                   reply: Attempt, now: int, driver: string, later: Attempt)
    requires Keeps(token, path, body, id, Some(photo), reply, now, true).Some? && !reply.upload.Answered?
    ensures var a := Keeps(token, path, body, id, Some(photo), reply, now, true).value;
      CallsOf(Some(driver), a, later) == LiveCalls(Some(driver), path, body, Some(photo), later) <==>
      photo.purpose == PodPhoto
  {
    var a := Keeps(token, path, body, id, Some(photo), reply, now, true).value;
    assert CallsOf(Some(driver), a, later)[0] == UploadCall(HeldBlob(photo), PodPhoto);
    assert LiveCalls(Some(driver), path, body, Some(photo), later)[0] == UploadCall(HeldBlob(photo), photo.purpose);
  }

  /** Whichever way a photo action travels, no placeholder reaches the server. */
  lemma NoPlaceholderIsSent(token: Option<string>, path: string, body: Json, id: string, photo: Photo, reply: Attempt,
                            now: int, later: Attempt, media: string)
    requires Plain(media) && !Contains(STEM, media)
    requires if reply.upload.Answered? then reply.upload == Answered(media) else later.upload == Answered(media)
    requires Keeps(token, path, body, id, Some(photo), reply, now, true).Some?
    ensures var a := Keeps(token, path, body, id, Some(photo), reply, now, true).value;
      && Payload(a, later) == Substitute(body, QUEUED_MEDIA, media)
      && Clean(Payload(a, later), QUEUED_MEDIA)
      && Skeleton(Payload(a, later)) == Skeleton(body)
  {
    SubstituteCleans(body, media);
    SubstituteKeepsShape(body, QUEUED_MEDIA, media);
  }
}
