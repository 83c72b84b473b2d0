/** The driver's offline write queue, one flush at a time
    (apps/driver/lib/actionQueue.ts, apps/driver/lib/syncClient.ts). */
module ActionQueue {
  import opened Prelude
  import opened MediaSubstitution

  const MAX_ATTEMPTS: nat := 8

  datatype Blob = Blob(placeholder: string, data: seq<bv8>, fileName: string, contentType: string)

  datatype QueuedAction = QueuedAction(
    id: string,
    path: string,
    body: Json,
    queuedAt: int,
    attempts: nat,
    blob: Option<Blob>)

  datatype FlushResult = FlushResult(sent: nat, pending: nat, discarded: nat)

  /** The row a failed try puts back. */
  function Charged(a: QueuedAction): QueuedAction {
    a.(attempts := a.attempts + 1)
  }

  // ---------------------------------------------------------------------
  // The store: a database per driver
  // ---------------------------------------------------------------------

  /** The database is named by the stored token's `driver_id` claim at each call; here a token is that claim. */
  function Key(token: Option<string>): string {
    if token.Some? && token.value != "" then token.value else ANONYMOUS
  }

  type Databases = map<string, map<string, QueuedAction>>

  function Db(dbs: Databases, key: string): map<string, QueuedAction> {
    if key in dbs then dbs[key] else map[]
  }

  function Put(dbs: Databases, key: string, row: QueuedAction): Databases {
    dbs[key := Db(dbs, key)[row.id := row]]
  }

  function Delete(dbs: Databases, key: string, id: string): Databases {
    if key in dbs then dbs[key := dbs[key] - {id}] else dbs
  }

  // ---------------------------------------------------------------------
  // What counts as a connectivity failure
  // ---------------------------------------------------------------------

  function FoldCase(c: char): char {
    if 'A' <= c <= 'Z' then (c as int + 32) as char else c
  }

  function FoldText(s: string): string {
    seq(|s|, i requires 0 <= i < |s| => FoldCase(s[i]))
  }

  predicate IsConnectivityFailure(message: string) {
    || message == "NETWORK_UNREACHABLE"
    || message == "Failed to fetch"
    || message == "Load failed"
    || message == "SESSION_EXPIRED"
    || Contains(FoldText(message), "networkerror")
    || Contains(FoldText(message), "network request failed")
  }

  /** A letter of a lower-case pattern, in either case. */
  predicate SameLetter(c: char, letter: char) {
    c == letter || ('a' <= letter <= 'z' && c as int == letter as int - 'a' as int + 'A' as int)
  }

  predicate ReadsAt(message: string, text: string, i: nat) {
    i + |text| <= |message| && forall k :: 0 <= k < |text| ==> SameLetter(message[i + k], text[k])
  }

  ghost predicate Reads(message: string, text: string) {
    exists i: nat :: ReadsAt(message, text, i)
  }

  predicate LowerCase(text: string) {
    forall k :: 0 <= k < |text| ==> !('A' <= text[k] <= 'Z')
  }

  lemma FoldedReadsAt(message: string, text: string, i: nat)
    requires LowerCase(text)
    ensures OccursAt(FoldText(message), text, i) <==> ReadsAt(message, text, i)
  {
    var folded := FoldText(message);
    if i + |text| <= |message| {
      var part := folded[i..i + |text|];
      assert forall k :: 0 <= k < |text| ==> (part[k] == text[k] <==> SameLetter(message[i + k], text[k]));
      if ReadsAt(message, text, i) {
        assert part == text;
      }
    }
  }

  lemma FoldedReads(message: string, text: string)
    requires LowerCase(text)
    ensures Contains(FoldText(message), text) <==> Reads(message, text)
  {
    var folded := FoldText(message);
    forall i: nat ensures OccursAt(folded, text, i) <==> ReadsAt(message, text, i) {
      FoldedReadsAt(message, text, i);
    }
    hide FoldText, OccursAt;
    if Contains(folded, text) {
      var i :| 0 <= i <= |folded| && OccursAt(folded, text, i);
      assert ReadsAt(message, text, i);
    }
    if Reads(message, text) {
      var i: nat :| ReadsAt(message, text, i);
      assert OccursAt(folded, text, i) && |folded| == |message|;
    }
  }

  /** Which errors keep an action: four messages as they are, and any message in which one of two texts can be read in
      capitals, small letters or both. Every other error is taken for an answer. */
  lemma ConnectivityIff(message: string)
    ensures IsConnectivityFailure(message) <==>
      || message in {"NETWORK_UNREACHABLE", "Failed to fetch", "Load failed", "SESSION_EXPIRED"}
      || Reads(message, "networkerror") || Reads(message, "network request failed")
  {
    FoldedReads(message, "networkerror");
    FoldedReads(message, "network request failed");
  }

  /** So a browser's own error counts, whatever follows its name, */
  lemma BrowserErrorCounts(before: string, after: string)
    ensures IsConnectivityFailure(before + "NetworkError" + after)
  {
    var message, text, name := before + "NetworkError" + after, "networkerror", "NetworkError";
    ConnectivityIff(message);
    hide IsConnectivityFailure;
    forall k | 0 <= k < 12 ensures SameLetter(message[|before| + k], text[k]) {
      assert message[|before| + k] == name[k];
      assert SameLetter(name[k], text[k]);
    }
    assert ReadsAt(message, text, |before|);
  }

  /** and what the server says does not. */
  lemma RefusalsDoNotCount()
    ensures !IsConnectivityFailure("OTP_MISMATCH") && !IsConnectivityFailure("CONFLICT")
    ensures !IsConnectivityFailure("TASK_NOT_ASSIGNED")
  {
    RefusalDoesNotCount("OTP_MISMATCH");
    RefusalDoesNotCount("CONFLICT");
    RefusalDoesNotCount("TASK_NOT_ASSIGNED");
  }

  lemma RefusalDoesNotCount(message: string)
    requires message in {"OTP_MISMATCH", "CONFLICT", "TASK_NOT_ASSIGNED"}
    ensures !IsConnectivityFailure(message)
  {
    assert |message| < 21 && forall i :: 0 <= i < |message| ==> message[i] != 'W' && message[i] != 'w';
    assert message[0] == 'O' || message[0] == 'C' || message[0] == 'T';
    NotRead(message, "networkerror", 3);
    NotRead(message, "network request failed", 3);
    ConnectivityIff(message);
    hide IsConnectivityFailure;
  }

  lemma NotRead(message: string, text: string, k: nat)
    requires k < |text| && text[k] == 'w' && forall i :: 0 <= i < |message| ==> message[i] != 'W' && message[i] != 'w'
    ensures !Reads(message, text)
  {
    forall i: nat | i + |text| <= |message| ensures !ReadsAt(message, text, i) {
      assert !SameLetter(message[i + k], text[k]);
    }
  }

  // ---------------------------------------------------------------------
  // Replay order
  // ---------------------------------------------------------------------

  predicate IdLess(a: string, b: string) {
    b != [] && (a == [] || a[0] < b[0] || (a[0] == b[0] && IdLess(a[1..], b[1..])))
  }

  predicate Before(a: QueuedAction, b: QueuedAction) {
    a.queuedAt < b.queuedAt || (a.queuedAt == b.queuedAt && IdLess(a.id, b.id))
  }

  lemma {:induction false} IdLessTotal(a: string, b: string)
    ensures a != b ==> IdLess(a, b) || IdLess(b, a)
  {
    if a != [] && b != [] && a[0] == b[0] {
      IdLessTotal(a[1..], b[1..]);
      assert a[1..] == b[1..] ==> a == [a[0]] + a[1..] == b;
    }
  }

  lemma {:induction false} IdLessAsymmetric(a: string, b: string)
    ensures !(IdLess(a, b) && IdLess(b, a))
  {
    if a != [] && b != [] {
      IdLessAsymmetric(a[1..], b[1..]);
    }
  }

  lemma {:induction false} IdLessTransitive(a: string, b: string, c: string)
    requires IdLess(a, b) && IdLess(b, c)
    ensures IdLess(a, c)
  {
    if a != [] && a[0] == b[0] && b[0] == c[0] {
      IdLessTransitive(a[1..], b[1..], c[1..]);
    }
  }

  lemma BeforeTransitive(a: QueuedAction, b: QueuedAction, c: QueuedAction)
    requires Before(a, b) && Before(b, c)
    ensures Before(a, c)
  {
    if a.queuedAt == b.queuedAt == c.queuedAt {
      IdLessTransitive(a.id, b.id, c.id);
    }
  }

  lemma BeforeAsymmetric(a: QueuedAction, b: QueuedAction)
    ensures !(Before(a, b) && Before(b, a))
  {
    IdLessAsymmetric(a.id, b.id);
  }

  predicate Sorted(s: seq<QueuedAction>) {
    forall i, j :: 0 <= i < j < |s| ==> Before(s[i], s[j])
  }

  predicate Keyed(rows: map<string, QueuedAction>) {
    forall id :: id in rows ==> rows[id].id == id
  }

  predicate DistinctIds(s: seq<QueuedAction>) {
    forall i, j :: 0 <= i < j < |s| ==> s[i].id != s[j].id
  }

  ghost predicate Holds(s: seq<QueuedAction>, id: string) {
    exists i :: 0 <= i < |s| && s[i].id == id
  }

  /** `s` holds every row exactly once. */
  ghost predicate IsListing(s: seq<QueuedAction>, rows: map<string, QueuedAction>) {
    && (forall i :: 0 <= i < |s| ==> s[i].id in rows && rows[s[i].id] == s[i])
    && DistinctIds(s)
    && (forall id :: id in rows ==> Holds(s, id))
  }

  /** `s` is the rows, oldest first. */
  ghost predicate IsReplayOrder(s: seq<QueuedAction>, rows: map<string, QueuedAction>) {
    IsListing(s, rows) && Sorted(s)
  }

  function Insert(a: QueuedAction, s: seq<QueuedAction>): seq<QueuedAction> {
    if s == [] || Before(a, s[0]) then [a] + s else [s[0]] + Insert(a, s[1..])
  }

  function Order(s: seq<QueuedAction>): seq<QueuedAction> {
    if s == [] then [] else Insert(s[0], Order(s[1..]))
  }

  lemma {:induction false} InsertElements(a: QueuedAction, s: seq<QueuedAction>)
    ensures multiset(Insert(a, s)) == multiset{a} + multiset(s)
  {
    if s == [] || Before(a, s[0]) {
    } else {
      InsertElements(a, s[1..]);
      assert s == [s[0]] + s[1..];
    }
  }

  lemma {:induction false} InsertSorted(a: QueuedAction, s: seq<QueuedAction>)
    requires Sorted(s)
    requires forall i :: 0 <= i < |s| ==> s[i].id != a.id
    ensures Sorted(Insert(a, s))
  {
    if s == [] {
    } else if Before(a, s[0]) {
      forall i | 1 <= i < |s| ensures Before(a, s[i]) {
        BeforeTransitive(a, s[0], s[i]);
      }
    } else {
      IdLessTotal(a.id, s[0].id);
      var tail := Insert(a, s[1..]);
      InsertSorted(a, s[1..]);
      InsertElements(a, s[1..]);
      forall x | x in tail ensures Before(s[0], x) {
        assert x in multiset(tail);
        if x != a {
          assert x in multiset(s[1..]);
          var k :| 1 <= k < |s| && s[k] == x;
        }
      }
    }
  }

  lemma {:induction false} OrderElements(s: seq<QueuedAction>)
    ensures multiset(Order(s)) == multiset(s)
  {
    if s == [] {
    } else {
      OrderElements(s[1..]);
      InsertElements(s[0], Order(s[1..]));
      assert s == [s[0]] + s[1..];
    }
  }

  lemma {:induction false} OrderSorted(s: seq<QueuedAction>)
    requires DistinctIds(s)
    ensures Sorted(Order(s))
  {
    if s == [] {
    } else {
      var tail := Order(s[1..]);
      OrderSorted(s[1..]);
      OrderElements(s[1..]);
      forall i | 0 <= i < |tail| ensures tail[i].id != s[0].id {
        assert tail[i] in multiset(tail);
        assert tail[i] in multiset(s[1..]);
        var k :| 1 <= k < |s| && s[k] == tail[i];
      }
      InsertSorted(s[0], tail);
    }
  }

  lemma SortedDistinct(s: seq<QueuedAction>)
    requires Sorted(s)
    requires forall i, j :: 0 <= i < j < |s| && s[i].id == s[j].id ==> s[i] == s[j]
    ensures DistinctIds(s)
  {
    forall i, j | 0 <= i < j < |s| ensures s[i].id != s[j].id {
      BeforeAsymmetric(s[i], s[j]);
    }
  }

  /** Sorting any listing of the store gives the replay order. */
  lemma OrderIsReplayOrder(s: seq<QueuedAction>, rows: map<string, QueuedAction>)
    requires IsListing(s, rows)
    ensures IsReplayOrder(Order(s), rows)
  {
    var q := Order(s);
    OrderElements(s);
    OrderSorted(s);
    forall i | 0 <= i < |q| ensures q[i].id in rows && rows[q[i].id] == q[i] {
      assert q[i] in multiset(q);
      assert q[i] in multiset(s);
    }
    SortedDistinct(q);
    forall id | id in rows ensures Holds(q, id) {
      var i :| 0 <= i < |s| && s[i].id == id;
      assert s[i] in multiset(s);
      assert s[i] in multiset(q);
      var j :| 0 <= j < |q| && q[j] == s[i];
    }
  }

  lemma TailIsReplayOrder(s: seq<QueuedAction>, rows: map<string, QueuedAction>)
    requires s != [] && IsReplayOrder(s, rows)
    ensures IsReplayOrder(s[1..], rows - {s[0].id})
  {
    var tail, rest := s[1..], rows - {s[0].id};
    forall id | id in rest ensures Holds(tail, id) {
      var k :| 0 <= k < |s| && s[k].id == id;
      assert tail[k - 1].id == id;
    }
  }

  lemma {:induction false} ReplayOrderSize(s: seq<QueuedAction>, rows: map<string, QueuedAction>)
    requires IsReplayOrder(s, rows)
    ensures |s| == |rows|
  {
    if s == [] {
      assert rows == map[];
    } else {
      TailIsReplayOrder(s, rows);
      ReplayOrderSize(s[1..], rows - {s[0].id});
      assert rows.Keys == (rows - {s[0].id}).Keys + {s[0].id};
      assert |rows.Keys| == |(rows - {s[0].id}).Keys| + 1;
    }
  }

  lemma OldestAgree(s: seq<QueuedAction>, t: seq<QueuedAction>, rows: map<string, QueuedAction>)
    requires s != [] && t != []
    requires IsReplayOrder(s, rows) && IsReplayOrder(t, rows)
    ensures s[0] == t[0]
  {
    assert Holds(t, s[0].id) && Holds(s, t[0].id);
    var i :| 0 <= i < |t| && t[i].id == s[0].id;
    var j :| 0 <= j < |s| && s[j].id == t[0].id;
    assert t[i] == s[0] && s[j] == t[0];
    BeforeAsymmetric(s[0], t[0]);
  }

  /** The replay order is unique: the store's own iteration order cannot show. */
  lemma {:induction false} ReplayOrderUnique(s: seq<QueuedAction>, t: seq<QueuedAction>,
                                             rows: map<string, QueuedAction>)
    requires IsReplayOrder(s, rows) && IsReplayOrder(t, rows)
    ensures s == t
    decreases |s|
  {
    ReplayOrderSize(s, rows);
    ReplayOrderSize(t, rows);
    if s == [] {
    } else {
      OldestAgree(s, t, rows);
      TailIsReplayOrder(s, rows);
      TailIsReplayOrder(t, rows);
      ReplayOrderUnique(s[1..], t[1..], rows - {s[0].id});
      assert s == [s[0]] + s[1..] && t == [t[0]] + t[1..];
    }
  }

  ghost function Listing(rows: map<string, QueuedAction>): (s: seq<QueuedAction>)
    requires Keyed(rows)
    ensures IsListing(s, rows)
    decreases |rows|
  {
    if rows == map[] then []
    else
      var id :| id in rows;
      var rest := rows - {id};
      assert rows.Keys == rest.Keys + {id};
      ListingGrows(Listing(rest), rows, id);
      [rows[id]] + Listing(rest)
  }

  lemma ListingGrows(s: seq<QueuedAction>, rows: map<string, QueuedAction>, id: string)
    requires Keyed(rows) && id in rows && IsListing(s, rows - {id})
    ensures IsListing([rows[id]] + s, rows)
  {
    var t := [rows[id]] + s;
    assert forall i :: 1 <= i < |t| ==> t[i] == s[i - 1];
    forall x | x in rows ensures Holds(t, x) {
      if x == id {
        assert t[0].id == x;
      } else {
        assert Holds(s, x);
        var i :| 0 <= i < |s| && s[i].id == x;
        assert t[i + 1].id == x;
      }
    }
  }

  /** The rows of a store, oldest first. */
  ghost function ReplayOrder(rows: map<string, QueuedAction>): (q: seq<QueuedAction>)
    requires Keyed(rows)
    ensures IsReplayOrder(q, rows)
  {
    OrderIsReplayOrder(Listing(rows), rows);
    Order(Listing(rows))
  }

  lemma OrderIgnoresListing(s: seq<QueuedAction>, t: seq<QueuedAction>, rows: map<string, QueuedAction>)
    requires IsListing(s, rows) && IsListing(t, rows)
    ensures Order(s) == Order(t)
  {
    OrderIsReplayOrder(s, rows);
    OrderIsReplayOrder(t, rows);
    ReplayOrderUnique(Order(s), Order(t), rows);
  }
}
