/** The service worker's map tiles: cache-first requests and trims that overlap (apps/driver/public/sw.js:57-78). */
module TileCache {
  import opened Prelude

  const TILE_LIMIT := 300

  datatype Response = Response(ok: bool, opaqueType: bool, body: string)

  datatype Entry = Entry(request: string, response: Response)

  /** A request, and from `Reading` on the trim it started. `readAt` orders the trims' reads. */
  datatype Op =
    | Fetching(request: string)
    | Putting(entry: Entry)
    | Landed(entry: Entry)
    | Reading
    | Deleting(readAt: nat, remaining: set<string>)

  datatype State = State(
    cache: seq<Entry>,             // oldest first
    ops: map<nat, Op>,
    clock: nat,
    fetched: set<Entry>,           // what the network has answered so far
    answers: seq<Entry>)           // what the page was given

  function Initial(): State {
    State([], map[], 0, {}, [])
  }

  predicate HasKey(cache: seq<Entry>, request: string) {
    exists i :: 0 <= i < |cache| && cache[i].request == request
  }

  function Match(cache: seq<Entry>, request: string): (r: Option<Entry>)
    ensures r.Some? <==> HasKey(cache, request)
    ensures r.Some? ==> r.value in cache && r.value.request == request
  {
    if cache == [] then None
    else if cache[|cache| - 1].request == request then
      assert cache[|cache| - 1].request == request;
      Some(cache[|cache| - 1])
    else
      assert forall i :: 0 <= i < |cache| - 1 ==> cache[..|cache| - 1][i] == cache[i];
      Match(cache[..|cache| - 1], request)
  }

  /** The entries whose request is not in `requests`, in order. */
  function Without(cache: seq<Entry>, requests: set<string>): seq<Entry> {
    if cache == [] then []
    else
      var front, last := Without(cache[..|cache| - 1], requests), cache[|cache| - 1];
      if last.request in requests then front else front + [last]
  }

  /** `cache.put`: a stored entry for the request is dropped, the new one is the newest. */
  function Put(cache: seq<Entry>, entry: Entry): seq<Entry> {
    Without(cache, {entry.request}) + [entry]
  }

  function Requests(cache: seq<Entry>): set<string> {
    set i | 0 <= i < |cache| :: cache[i].request
  }

  /** What a trim sets out to delete. */
  function Oldest(cache: seq<Entry>): set<string> {
    if |cache| <= TILE_LIMIT then {} else Requests(cache[..|cache| - TILE_LIMIT])
  }

  datatype Step =
    | Arrive(op: nat, request: string)
    | Respond(op: nat, response: Response)
    | FetchFails(op: nat)
    | PutFails(op: nat)
    | Store(op: nat)
    | Continue(op: nat)
    | Read(op: nat)
    | Delete(op: nat, request: string)
    | Finish(op: nat)

  predicate Enabled(s: State, step: Step) {
    if step.Arrive? then step.op !in s.ops
    else
      step.op in s.ops &&
      match step
      case Respond(o, _) => s.ops[o].Fetching?
      case FetchFails(o) => s.ops[o].Fetching?
      case PutFails(o) => s.ops[o].Putting?
      case Store(o) => s.ops[o].Putting?
      case Continue(o) => s.ops[o].Landed?
      case Read(o) => s.ops[o].Reading?
      case Delete(o, request) => s.ops[o].Deleting? && request in s.ops[o].remaining
      case Finish(o) => s.ops[o].Deleting? && s.ops[o].remaining == {}
      case _ => false
  }

  function Set(s: State, o: nat, op: Op): State {
    s.(ops := s.ops[o := op])
  }

  function End(s: State, o: nat): State {
    s.(ops := s.ops - {o})
  }

  function Answered(s: State, entry: Entry): State {
    s.(answers := s.answers + [entry])
  }

  function Arrives(s: State, o: nat, request: string): State {
    var hit := Match(s.cache, request);
    if hit.Some? then Answered(s, Entry(request, hit.value.response)) else Set(s, o, Fetching(request))
  }

  /** Opaque responses are stored too; the rest of the failed ones only answered. */
  function Responds(s: State, o: nat, entry: Entry): State {
    var t := s.(fetched := s.fetched + {entry});
    if entry.response.ok || entry.response.opaqueType then Set(t, o, Putting(entry)) else End(Answered(t, entry), o)
  }

  function Stores(s: State, o: nat, entry: Entry): State {
    Set(s.(cache := Put(s.cache, entry)), o, Landed(entry))
  }

  function Reads(s: State, o: nat): State {
    if |s.cache| <= TILE_LIMIT then End(s, o)
    else Set(s.(clock := s.clock + 1), o, Deleting(s.clock, Oldest(s.cache)))
  }

  function Deletes(s: State, o: nat, op: Op, request: string): State
    requires op.Deleting?
  {
    Set(s.(cache := Without(s.cache, {request})), o, Deleting(op.readAt, op.remaining - {request}))
  }

  function Apply(s: State, step: Step): State
    requires Enabled(s, step)
  {
    match step
    case Arrive(o, request) => Arrives(s, o, request)
    case Respond(o, response) => Responds(s, o, Entry(s.ops[o].request, response))
    case FetchFails(o) => End(s, o)
    case PutFails(o) => End(s, o)
    case Store(o) => Stores(s, o, s.ops[o].entry)
    case Continue(o) => Set(Answered(s, s.ops[o].entry), o, Reading)
    case Read(o) => Reads(s, o)
    case Delete(o, request) => Deletes(s, o, s.ops[o], request)
    case Finish(o) => End(s, o)
  }

  predicate ValidRun(s: State, run: seq<Step>)
    decreases |run|
  {
    run != [] ==> Enabled(s, run[0]) && ValidRun(Apply(s, run[0]), run[1..])
  }

  function After(s: State, run: seq<Step>): State
    requires ValidRun(s, run)
    decreases |run|
  {
    if run == [] then s else After(Apply(s, run[0]), run[1..])
  }

  // ---------------------------------------------------------------------
  // Entries and deletions
  // ---------------------------------------------------------------------

  predicate DistinctKeys(cache: seq<Entry>) {
    forall i, j :: 0 <= i < j < |cache| ==> cache[i].request != cache[j].request
  }

  lemma {:induction false} WithoutHas(cache: seq<Entry>, requests: set<string>, x: Entry)
    ensures x in Without(cache, requests) <==> x in cache && x.request !in requests
  {
    if cache == [] {
    } else {
      WithoutHas(cache[..|cache| - 1], requests, x);
      assert x in cache <==> x in cache[..|cache| - 1] || x == cache[|cache| - 1] by {
        assert cache == cache[..|cache| - 1] + [cache[|cache| - 1]];
      }
    }
  }

  lemma {:induction false} WithoutNothing(cache: seq<Entry>)
    ensures Without(cache, {}) == cache
  {
    if cache == [] {
    } else {
      WithoutNothing(cache[..|cache| - 1]);
    }
  }

  lemma {:induction false} WithoutTwice(cache: seq<Entry>, a: set<string>, b: set<string>)
    ensures Without(Without(cache, a), b) == Without(cache, a + b)
  {
    if cache == [] {
    } else {
      var front, last := cache[..|cache| - 1], cache[|cache| - 1];
      WithoutTwice(front, a, b);
      if last.request !in a {
        var w := Without(front, a) + [last];
        assert w[..|w| - 1] == Without(front, a);
      } else {
        assert Without(cache, a) == Without(front, a);
      }
    }
  }

  lemma {:induction false} WithoutConcat(a: seq<Entry>, b: seq<Entry>, requests: set<string>)
    ensures Without(a + b, requests) == Without(a, requests) + Without(b, requests)
    decreases |b|
  {
    if b == [] {
      assert a + b == a;
    } else {
      var front, last := b[..|b| - 1], b[|b| - 1];
      assert (a + b)[..|a + b| - 1] == a + front;
      WithoutConcat(a, front, requests);
    }
  }

  lemma {:induction false} WithoutShrinks(cache: seq<Entry>, requests: set<string>)
    ensures |Without(cache, requests)| <= |cache|
  {
    if cache == [] {
    } else {
      WithoutShrinks(cache[..|cache| - 1], requests);
    }
  }

  lemma {:induction false} WithoutDistinct(cache: seq<Entry>, requests: set<string>)
    requires DistinctKeys(cache)
    ensures DistinctKeys(Without(cache, requests))
  {
    if cache == [] {
    } else {
      var front, last := cache[..|cache| - 1], cache[|cache| - 1];
      var w := Without(front, requests);
      WithoutDistinct(front, requests);
      forall i | 0 <= i < |w| ensures w[i].request != last.request {
        WithoutHas(front, requests, w[i]);
        var j :| 0 <= j < |front| && front[j] == w[i];
        assert cache[j].request != cache[|cache| - 1].request;
      }
    }
  }

  lemma {:induction false} WithoutAll(cache: seq<Entry>, requests: set<string>)
    requires forall i :: 0 <= i < |cache| ==> cache[i].request in requests
    ensures Without(cache, requests) == []
  {
    if cache == [] {
    } else {
      WithoutAll(cache[..|cache| - 1], requests);
    }
  }

  lemma {:induction false} WithoutNone(cache: seq<Entry>, requests: set<string>)
    requires forall i :: 0 <= i < |cache| ==> cache[i].request !in requests
    ensures Without(cache, requests) == cache
  {
    if cache == [] {
    } else {
      WithoutNone(cache[..|cache| - 1], requests);
    }
  }

  /** Without its oldest entries a cache is its newest ones, in order. */
  lemma WithoutOldest(cache: seq<Entry>)
    requires DistinctKeys(cache) && |cache| > TILE_LIMIT
    ensures Without(cache, Oldest(cache)) == cache[|cache| - TILE_LIMIT..]
  {
    var n := |cache| - TILE_LIMIT;
    var gone, kept := cache[..n], cache[n..];
    assert cache == gone + kept;
    WithoutConcat(gone, kept, Oldest(cache));
    WithoutAll(gone, Oldest(cache));
    forall i | 0 <= i < |kept| ensures kept[i].request !in Oldest(cache) {
      forall j | 0 <= j < n ensures gone[j].request != kept[i].request {
        assert cache[j].request != cache[n + i].request;
      }
    }
    WithoutNone(kept, Oldest(cache));
  }

  lemma PutDistinct(cache: seq<Entry>, entry: Entry)
    requires DistinctKeys(cache)
    ensures DistinctKeys(Put(cache, entry))
  {
    var rest := Without(cache, {entry.request});
    WithoutDistinct(cache, {entry.request});
    forall i | 0 <= i < |rest| ensures rest[i].request != entry.request {
      WithoutHas(cache, {entry.request}, rest[i]);
    }
  }

  lemma WithoutCommutes(cache: seq<Entry>, a: set<string>, b: set<string>)
    ensures Without(Without(cache, a), b) == Without(Without(cache, b), a)
    ensures |Without(Without(cache, a), b)| <= |Without(cache, b)|
  {
    WithoutTwice(cache, a, b);
    WithoutTwice(cache, b, a);
    assert a + b == b + a;
    WithoutShrinks(Without(cache, b), a);
  }

  lemma PutAddsOne(cache: seq<Entry>, entry: Entry, requests: set<string>)
    ensures |Without(Put(cache, entry), requests)| <= |Without(cache, requests)| + 1
  {
    WithoutConcat(Without(cache, {entry.request}), [entry], requests);
    WithoutShrinks([entry], requests);
    WithoutCommutes(cache, {entry.request}, requests);
  }

  // ---------------------------------------------------------------------
  // The bound
  // ---------------------------------------------------------------------

  /** Puts that have landed and trims that are not done. */
  predicate IsBusy(op: Op) {
    op.Landed? || op.Reading? || op.Deleting?
  }

  function Busy(s: State): set<nat> {
    set o | o in s.ops && IsBusy(s.ops[o])
  }

  /** Of those, the ones a trim that read at time `t` knows nothing of. */
  function Newer(s: State, t: nat): set<nat> {
    set o | o in s.ops && IsBusy(s.ops[o]) && (s.ops[o].Deleting? ==> s.ops[o].readAt > t)
  }

  /** What the cache will hold once this trim has deleted what it set out to. */
  ghost predicate TrimHolds(s: State, o: nat)
    requires o in s.ops && s.ops[o].Deleting?
  {
    s.ops[o].readAt < s.clock && |Without(s.cache, s.ops[o].remaining)| <= TILE_LIMIT + |Newer(s, s.ops[o].readAt)|
  }

  ghost predicate Inv(s: State) {
    && DistinctKeys(s.cache)
    && |s.cache| <= TILE_LIMIT + |Busy(s)|
    && (forall o | o in s.ops && s.ops[o].Deleting? :: TrimHolds(s, o))
    && (forall o, p | o in s.ops && p in s.ops && s.ops[o].Deleting? && s.ops[p].Deleting? && o != p ::
          s.ops[o].readAt != s.ops[p].readAt)
  }

  lemma SubsetSize(a: set<nat>, b: set<nat>)
    requires a <= b
    ensures |a| <= |b|
  {
    assert b == a + (b - a);
  }

  lemma StoreKeepsInv(s: State, o: nat)
    requires Inv(s) && o in s.ops && s.ops[o].Putting?
    ensures Inv(Stores(s, o, s.ops[o].entry))
  {
    var t := Stores(s, o, s.ops[o].entry);
    PutDistinct(s.cache, s.ops[o].entry);
    WithoutShrinks(s.cache, {s.ops[o].entry.request});
    assert Busy(t) == Busy(s) + {o};
    forall p | p in t.ops && t.ops[p].Deleting? ensures TrimHolds(t, p) {
      PutAddsOne(s.cache, s.ops[o].entry, s.ops[p].remaining);
      assert TrimHolds(s, p);
      assert Newer(t, s.ops[p].readAt) == Newer(s, s.ops[p].readAt) + {o};
    }
  }

  /** An operation that was not busy ends or moves on without becoming so. */
  lemma IdleKeepsInv(s: State, t: State)
    requires Inv(s) && t.cache == s.cache && t.clock == s.clock
    requires forall o :: o in t.ops && IsBusy(t.ops[o]) ==> o in s.ops && s.ops[o] == t.ops[o]
    requires forall o :: o in s.ops && IsBusy(s.ops[o]) ==> o in t.ops && s.ops[o] == t.ops[o]
    ensures Inv(t)
  {
    assert Busy(t) == Busy(s);
    forall p | p in t.ops && t.ops[p].Deleting? ensures TrimHolds(t, p) {
      assert TrimHolds(s, p);
      assert Newer(t, s.ops[p].readAt) == Newer(s, s.ops[p].readAt);
    }
  }

  lemma ContinueKeepsInv(s: State, o: nat)
    requires Inv(s) && o in s.ops && s.ops[o].Landed?
    ensures Inv(Set(Answered(s, s.ops[o].entry), o, Reading))
  {
    var t := Set(Answered(s, s.ops[o].entry), o, Reading);
    assert Busy(t) == Busy(s);
    forall p | p in t.ops && t.ops[p].Deleting? ensures TrimHolds(t, p) {
      assert TrimHolds(s, p);
      assert Newer(t, s.ops[p].readAt) == Newer(s, s.ops[p].readAt);
    }
  }

  lemma ReadKeepsInv(s: State, o: nat)
    requires Inv(s) && o in s.ops && s.ops[o].Reading?
    ensures Inv(Reads(s, o))
  {
    var t := Reads(s, o);
    if |s.cache| <= TILE_LIMIT {
      forall p | p in t.ops && t.ops[p].Deleting? ensures TrimHolds(t, p) {
        assert TrimHolds(s, p);
        WithoutShrinks(s.cache, s.ops[p].remaining);
      }
    } else {
      assert Busy(t) == Busy(s);
      WithoutOldest(s.cache);
      forall p | p in t.ops && t.ops[p].Deleting? ensures TrimHolds(t, p) {
        if p != o {
          assert TrimHolds(s, p);
          assert Newer(t, s.ops[p].readAt) == Newer(s, s.ops[p].readAt);
        }
      }
      forall p | p in t.ops && t.ops[p].Deleting? && p != o ensures t.ops[p].readAt != t.ops[o].readAt {
        assert TrimHolds(s, p);
      }
    }
  }

  lemma DeleteKeepsInv(s: State, o: nat, request: string)
    requires Inv(s) && o in s.ops && s.ops[o].Deleting? && request in s.ops[o].remaining
    ensures Inv(Deletes(s, o, s.ops[o], request))
  {
    var t := Deletes(s, o, s.ops[o], request);
    assert Busy(t) == Busy(s);
    WithoutShrinks(s.cache, {request});
    WithoutDistinct(s.cache, {request});
    forall p | p in t.ops && t.ops[p].Deleting? ensures TrimHolds(t, p) {
      assert TrimHolds(s, p);
      assert Newer(t, s.ops[p].readAt) == Newer(s, s.ops[p].readAt);
      if p == o {
        WithoutTwice(s.cache, {request}, s.ops[o].remaining - {request});
        assert {request} + (s.ops[o].remaining - {request}) == s.ops[o].remaining;
      } else {
        WithoutCommutes(s.cache, {request}, s.ops[p].remaining);
      }
    }
  }

  /** What a finished trim leaves is covered by the operations it knew nothing of. */
  lemma FinishKeepsInv(s: State, o: nat)
    requires Inv(s) && o in s.ops && s.ops[o].Deleting? && s.ops[o].remaining == {}
    ensures Inv(End(s, o))
  {
    var t := End(s, o);
    WithoutNothing(s.cache);
    assert TrimHolds(s, o);
    SubsetSize(Newer(s, s.ops[o].readAt), Busy(t));
    forall p | p in t.ops && t.ops[p].Deleting? ensures TrimHolds(t, p) {
      assert TrimHolds(s, p);
      if s.ops[p].readAt < s.ops[o].readAt {
        WithoutShrinks(s.cache, s.ops[p].remaining);
        SubsetSize(Newer(s, s.ops[o].readAt), Newer(t, s.ops[p].readAt));
      } else {
        assert s.ops[p].readAt != s.ops[o].readAt;
        assert Newer(t, s.ops[p].readAt) == Newer(s, s.ops[p].readAt);
      }
    }
  }

  lemma StepKeepsInv(s: State, step: Step)
    requires Inv(s) && Enabled(s, step)
    ensures Inv(Apply(s, step))
  {
    hide Inv;
    match step {
      case Arrive(o, request) => IdleKeepsInv(s, Arrives(s, o, request));
      case Respond(o, response) => IdleKeepsInv(s, Responds(s, o, Entry(s.ops[o].request, response)));
      case FetchFails(o) => IdleKeepsInv(s, End(s, o));
      case PutFails(o) => IdleKeepsInv(s, End(s, o));
      case Store(o) => StoreKeepsInv(s, o);
      case Continue(o) => ContinueKeepsInv(s, o);
      case Read(o) => ReadKeepsInv(s, o);
      case Delete(o, request) => DeleteKeepsInv(s, o, request);
      case Finish(o) => FinishKeepsInv(s, o);
    }
  }

  lemma {:induction false} RunKeepsInv(s: State, run: seq<Step>)
    requires Inv(s) && ValidRun(s, run)
    ensures Inv(After(s, run))
    decreases |run|
  {
    hide Inv;
    if run == [] {
    } else {
      StepKeepsInv(s, run[0]);
      RunKeepsInv(Apply(s, run[0]), run[1..]);
    }
  }

  /** In every run the cache exceeds its limit by no more than the number of landed puts and unfinished
      trims, so whenever none is in progress it holds at most 300 tiles. */
  lemma CacheStaysNearItsLimit(run: seq<Step>)
    requires ValidRun(Initial(), run)
    ensures var s := After(Initial(), run);
      |s.cache| <= TILE_LIMIT + |Busy(s)| && (Busy(s) == {} ==> |s.cache| <= TILE_LIMIT)
  {
    RunKeepsInv(Initial(), run);
  }

  // ---------------------------------------------------------------------
  // A trim on its own
  // ---------------------------------------------------------------------

  /** Only the trim `o` takes steps. */
  predicate Alone(run: seq<Step>, o: nat) {
    forall i :: 0 <= i < |run| ==> run[i] == Read(o) || run[i] == Finish(o) || (run[i].Delete? && run[i].op == o)
  }

  /** Once it has ended there is nothing left for it to do. */
  lemma NothingAfterTheEnd(s: State, o: nat, run: seq<Step>)
    requires ValidRun(s, run) && Alone(run, o) && o !in s.ops
    ensures run == []
  {
    if run != [] {
      assert false;
    }
  }

  lemma {:induction false} LoneDeletes(s: State, o: nat, run: seq<Step>)
    requires ValidRun(s, run) && Alone(run, o) && o in s.ops && s.ops[o].Deleting?
    requires o !in After(s, run).ops
    ensures After(s, run).cache == Without(s.cache, s.ops[o].remaining)
    decreases |run|
  {
    assert run != [];
    assert run[0] != Read(o);
    var t, rest := Apply(s, run[0]), run[1..];
    assert forall i :: 0 <= i < |rest| ==> rest[i] == run[i + 1];
    if run[0].Delete? {
      var request := run[0].request;
      LoneDeletes(t, o, rest);
      WithoutTwice(s.cache, {request}, s.ops[o].remaining - {request});
      assert {request} + (s.ops[o].remaining - {request}) == s.ops[o].remaining;
    } else {
      WithoutNothing(s.cache);
      NothingAfterTheEnd(t, o, rest);
    }
  }

  /** A trim that runs alone, deleting in any order, leaves exactly the newest 300 entries in order. */
  lemma LoneTrimKeepsTheNewest(s: State, o: nat, run: seq<Step>)
    requires DistinctKeys(s.cache) && o in s.ops && s.ops[o].Reading?
    requires ValidRun(s, run) && Alone(run, o) && o !in After(s, run).ops
    ensures After(s, run).cache == if |s.cache| <= TILE_LIMIT then s.cache else s.cache[|s.cache| - TILE_LIMIT..]
  {
    assert run != [];
    assert Enabled(s, run[0]) && run[0] == Read(o);
    var t, rest := Apply(s, run[0]), run[1..];
    assert forall i :: 0 <= i < |rest| ==> rest[i] == run[i + 1];
    if |s.cache| <= TILE_LIMIT {
      NothingAfterTheEnd(t, o, rest);
    } else {
      LoneDeletes(t, o, rest);
      WithoutOldest(s.cache);
    }
  }

  // ---------------------------------------------------------------------
  // Answers
  // ---------------------------------------------------------------------

  predicate FromNetwork(s: State) {
    && (forall i :: 0 <= i < |s.cache| ==> s.cache[i] in s.fetched && Storable(s.cache[i]))
    && (forall o :: o in s.ops && (s.ops[o].Putting? || s.ops[o].Landed?) ==>
      s.ops[o].entry in s.fetched && Storable(s.ops[o].entry))
    && (forall i :: 0 <= i < |s.answers| ==> s.answers[i] in s.fetched)
  }

  predicate Storable(entry: Entry) {
    entry.response.ok || entry.response.opaqueType
  }

  lemma StepKeepsFromNetwork(s: State, step: Step)
    requires FromNetwork(s) && Enabled(s, step)
    ensures FromNetwork(Apply(s, step))
  {
    var t := Apply(s, step);
    if step.Store? || step.Delete? {
      forall i | 0 <= i < |t.cache| ensures t.cache[i] in t.fetched && Storable(t.cache[i]) {
        var request := if step.Store? then s.ops[step.op].entry.request else step.request;
        WithoutHas(s.cache, {request}, t.cache[i]);
        assert t.cache[i] in t.cache;
      }
    }
  }

  lemma {:induction false} RunKeepsFromNetwork(s: State, run: seq<Step>)
    requires FromNetwork(s) && ValidRun(s, run)
    ensures FromNetwork(After(s, run))
    decreases |run|
  {
    if run == [] {
    } else {
      StepKeepsFromNetwork(s, run[0]);
      RunKeepsFromNetwork(Apply(s, run[0]), run[1..]);
    }
  }

  /** The network answers this request with this response. */
  predicate IsFetch(s: State, step: Step, e: Entry) {
    && step.Respond? && step.op in s.ops && s.ops[step.op].Fetching?
    && s.ops[step.op].request == e.request && step.response == e.response
  }

  predicate FetchedIn(s: State, run: seq<Step>, e: Entry)
    requires ValidRun(s, run)
    decreases |run|
  {
    run != [] && (IsFetch(s, run[0], e) || FetchedIn(Apply(s, run[0]), run[1..], e))
  }

  lemma {:induction false} FetchedIff(s: State, run: seq<Step>, e: Entry)
    requires ValidRun(s, run)
    ensures e in After(s, run).fetched <==> e in s.fetched || FetchedIn(s, run, e)
    decreases |run|
  {
    if run == [] {
    } else {
      assert e in Apply(s, run[0]).fetched <==> e in s.fetched || IsFetch(s, run[0], e);
      hide Enabled, Apply, IsFetch;
      FetchedIff(Apply(s, run[0]), run[1..], e);
    }
  }

  /** Whatever a page is given, from the cache or not, the network answered to that very request at some step before,
      and only good or opaque answers are ever kept. */
  lemma AnswersComeFromTheNetwork(run: seq<Step>, e: Entry)
    requires ValidRun(Initial(), run)
    ensures var s := After(Initial(), run);
      && (e in s.answers ==> FetchedIn(Initial(), run, e))
      && (e in s.cache ==> FetchedIn(Initial(), run, e) && (e.response.ok || e.response.opaqueType))
  {
    RunKeepsFromNetwork(Initial(), run);
    FetchedIff(Initial(), run, e);
  }

  // ---------------------------------------------------------------------
  // Every request gets one answer, or fails
  // ---------------------------------------------------------------------

  /** The page still waits for it. */
  predicate IsWaiting(op: Op) {
    op.Fetching? || op.Putting? || op.Landed?
  }

  function Waiting(s: State): set<nat> {
    set o | o in s.ops && IsWaiting(s.ops[o])
  }

  function Asked(run: seq<Step>): nat {
    if run == [] then 0 else (if run[0].Arrive? then 1 else 0) + Asked(run[1..])
  }

  function Failed(run: seq<Step>): nat {
    if run == [] then 0 else (if run[0].FetchFails? || run[0].PutFails? then 1 else 0) + Failed(run[1..])
  }

  predicate WaitsIn(s: State, o: nat) {
    o in s.ops && IsWaiting(s.ops[o])
  }

  lemma WaitingWithout(s: State, o: nat)
    ensures |Waiting(s)| == |Waiting(s) - {o}| + if WaitsIn(s, o) then 1 else 0
  {
    if WaitsIn(s, o) {
      assert o in Waiting(s);
    } else {
      assert Waiting(s) - {o} == Waiting(s);
    }
  }

  predicate SameOp(s: State, t: State, o: nat) {
    (o in t.ops <==> o in s.ops) && (o in s.ops ==> t.ops[o] == s.ops[o])
  }

  lemma OneChanges(s: State, t: State, o: nat)
    requires forall p :: p != o ==> SameOp(s, t, p)
    ensures |Waiting(t)| + (if WaitsIn(s, o) then 1 else 0) == |Waiting(s)| + if WaitsIn(t, o) then 1 else 0
  {
    WaitingWithout(s, o);
    WaitingWithout(t, o);
    var a, b := Waiting(s) - {o}, Waiting(t) - {o};
    forall p ensures p in a <==> p in b {
      assert p != o ==> SameOp(s, t, p);
    }
    assert a == b;
  }

  lemma StepAnswers(s: State, step: Step)
    requires Enabled(s, step)
    ensures var t := Apply(s, step);
      |t.answers| + |Waiting(t)| + (if step.FetchFails? || step.PutFails? then 1 else 0) ==
        |s.answers| + |Waiting(s)| + if step.Arrive? then 1 else 0
  {
    OneChanges(s, Apply(s, step), step.op);
    hide Waiting;
  }

  /** Each request of the page was answered once, failed, or still waits, at every moment of every run. */
  lemma {:induction false} EveryRequestIsAnsweredOnce(s: State, run: seq<Step>)
    requires ValidRun(s, run)
    ensures var t := After(s, run);
      |t.answers| + |Waiting(t)| + Failed(run) == |s.answers| + |Waiting(s)| + Asked(run)
    decreases |run|
  {
    if run == [] {
    } else {
      StepAnswers(s, run[0]);
      hide Enabled, Apply, Waiting;
      EveryRequestIsAnsweredOnce(Apply(s, run[0]), run[1..]);
    }
  }

  // ---------------------------------------------------------------------
  // A request on its own
  // ---------------------------------------------------------------------

  /** Only request `o` takes steps; the network, if asked, gives this response, and nothing fails. */
  predicate AloneGets(run: seq<Step>, o: nat, response: Response) {
    forall i :: 0 <= i < |run| ==>
      run[i].op == o && !run[i].FetchFails? && !run[i].PutFails? && (run[i].Respond? ==> run[i].response == response)
  }

  function Newest(cache: seq<Entry>): seq<Entry> {
    if |cache| <= 300 then cache else cache[|cache| - 300..]
  }

  /** What is left of a request after its put is the trim. */
  lemma TrimIsAlone(s: State, o: nat, run: seq<Step>, response: Response)
    requires ValidRun(s, run) && AloneGets(run, o, response) && o !in After(s, run).ops
    requires o in s.ops ==> s.ops[o].Reading? || s.ops[o].Deleting?
    requires forall i :: 0 <= i < |run| ==> !run[i].Arrive?
    ensures Alone(run, o) && After(s, run).answers == s.answers
    decreases |run|
  {
    if run == [] {
    } else {
      assert run[0].op == o && o in s.ops;
      var t, rest := Apply(s, run[0]), run[1..];
      assert forall i :: 0 <= i < |rest| ==> rest[i] == run[i + 1];
      TrimIsAlone(t, o, rest, response);
      assert run[0] == Read(o) || run[0] == Finish(o) || run[0].Delete?;
      forall i | 0 <= i < |run| ensures run[i] == Read(o) || run[i] == Finish(o) || (run[i].Delete? && run[i].op == o) {
        assert i > 0 ==> run[i] == rest[i - 1];
      }
    }
  }

  lemma StoredThenTrimmed(s: State, o: nat, run: seq<Step>, e: Entry)
    requires DistinctKeys(s.cache) && o in s.ops && s.ops[o] == Putting(e)
    requires ValidRun(s, run) && AloneGets(run, o, e.response) && o !in After(s, run).ops
    requires forall i :: 0 <= i < |run| ==> !run[i].Arrive?
    ensures After(s, run).answers == s.answers + [e] && After(s, run).cache == Newest(Put(s.cache, e))
  {
    assert run != [] && run[0] == Store(o);
    var t, rest := Apply(s, run[0]), run[1..];
    assert forall i :: 0 <= i < |rest| ==> rest[i] == run[i + 1];
    assert rest != [] && rest[0].op == o && rest[0] == Continue(o);
    var u, trim := Apply(t, rest[0]), rest[1..];
    assert forall i :: 0 <= i < |trim| ==> trim[i] == rest[i + 1];
    PutDistinct(s.cache, e);
    TrimIsAlone(u, o, trim, e.response);
    LoneTrimKeepsTheNewest(u, o, trim);
  }

  /** Cache first: a request that nothing interferes with is answered from the cache, if the tile is there, and
      nothing changes. Otherwise it is answered from the network, and the tile is kept, as the newest of the newest
      300, if and only if the response is good or opaque. */
  lemma {:induction false} LoneRequest(s: State, o: nat, request: string, response: Response, run: seq<Step>)
    requires DistinctKeys(s.cache) && o !in s.ops && run != [] && run[0] == Arrive(o, request)
    requires ValidRun(s, run) && AloneGets(run, o, response) && o !in After(s, run).ops
    requires forall i :: 0 < i < |run| ==> !run[i].Arrive?
    ensures var t, e := After(s, run), Entry(request, response);
      if HasKey(s.cache, request)
      then
        t.cache == s.cache &&
        exists i :: 0 <= i < |s.cache| && s.cache[i].request == request && t.answers == s.answers + [s.cache[i]]
      else
        && t.answers == s.answers + [e]
        && t.cache == if response.ok || response.opaqueType then Newest(Put(s.cache, e)) else s.cache
  {
    var t, rest := Apply(s, run[0]), run[1..];
    assert forall i :: 0 <= i < |rest| ==> rest[i] == run[i + 1];
    if HasKey(s.cache, request) {
      OverAtOnce(t, o, rest, response);
      var hit := Match(s.cache, request).value;
      var i :| 0 <= i < |s.cache| && s.cache[i] == hit;
      assert t.answers == s.answers + [s.cache[i]];
    } else {
      assert rest != [] && rest[0].op == o && rest[0] == Respond(o, response);
      FetchedThenKept(t, o, request, response, rest);
    }
  }

  lemma OverAtOnce(s: State, o: nat, run: seq<Step>, response: Response)
    requires o !in s.ops && ValidRun(s, run) && AloneGets(run, o, response)
    requires forall i :: 0 <= i < |run| ==> !run[i].Arrive?
    ensures run == []
  {
    if run != [] {
      assert false;
    }
  }

  lemma {:induction false} FetchedThenKept(s: State, o: nat, request: string, response: Response, run: seq<Step>)
    requires DistinctKeys(s.cache) && o in s.ops && s.ops[o] == Fetching(request)
    requires run != [] && run[0] == Respond(o, response)
    requires ValidRun(s, run) && AloneGets(run, o, response) && o !in After(s, run).ops
    requires forall i :: 0 <= i < |run| ==> !run[i].Arrive?
    ensures var t, e := After(s, run), Entry(request, response);
      && t.answers == s.answers + [e]
      && t.cache == if response.ok || response.opaqueType then Newest(Put(s.cache, e)) else s.cache
  {
    var u, more := Apply(s, run[0]), run[1..];
    assert forall i :: 0 <= i < |more| ==> more[i] == run[i + 1];
    if response.ok || response.opaqueType {
      StoredThenTrimmed(u, o, more, Entry(request, response));
    } else {
      OverAtOnce(u, o, more, response);
    }
  }
}
