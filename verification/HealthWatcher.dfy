/** The health watcher and its incident table (workers/src/healthWatcher.ts, incidents.ts in packages/observability). */
module HealthWatcher {
  import opened Prelude

  const FAILURE_THRESHOLD := 2

  datatype Incident = Incident(service: string, resolved: bool)

  /** `refused`: a transaction opened after this check would fail. */
  datatype Check = Check(service: string, healthy: bool, refused: bool)

  /** `incidents` is ops.incidents, oldest first. */
  datatype Watch = Watch(failures: map<string, nat>, incidents: seq<Incident>)

  function CountOf(failures: map<string, nat>, service: string): nat {
    if service in failures then failures[service] else 0
  }

  /** `where service = $1 and resolved_at is null order by opened_at desc limit 1`. */
  function FindOpen(incidents: seq<Incident>, service: string): (r: Option<nat>)
    ensures r.Some? ==> r.value < |incidents| && incidents[r.value] == Incident(service, false)
    ensures forall i :: (if r.Some? then r.value + 1 else 0) <= i < |incidents| ==>
      incidents[i] != Incident(service, false)
  {
    if incidents == [] then None
    else
      var last := |incidents| - 1;
      if incidents[last] == Incident(service, false) then Some(last) else FindOpen(incidents[..last], service)
  }

  /** Whether a check starts a transaction. */
  predicate Transacts(w: Watch, c: Check) {
    var n := CountOf(w.failures, c.service);
    if c.healthy then n >= FAILURE_THRESHOLD else n + 1 == FAILURE_THRESHOLD
  }

  function Resolved(incidents: seq<Incident>, service: string): seq<Incident> {
    var open := FindOpen(incidents, service);
    if open.None? then incidents else incidents[open.value := Incident(service, true)]
  }

  function Opened(incidents: seq<Incident>, service: string): seq<Incident> {
    if FindOpen(incidents, service).Some? then incidents else incidents + [Incident(service, false)]
  }

  function Checked(w: Watch, c: Check): Watch {
    var failures := w.failures[c.service := if c.healthy then 0 else CountOf(w.failures, c.service) + 1];
    if !Transacts(w, c) || c.refused then Watch(failures, w.incidents)
    else Watch(failures, if c.healthy then Resolved(w.incidents, c.service) else Opened(w.incidents, c.service))
  }

  function After(w: Watch, h: seq<Check>): Watch {
    if h == [] then w else Checked(After(w, h[..|h| - 1]), h[|h| - 1])
  }

  class Watcher {
    const targets: seq<string>
    var consecutiveFailures: map<string, nat>
    var incidents: seq<Incident>

    function Contents(): Watch reads this {
      Watch(consecutiveFailures, incidents)
    }

    /** A fresh process over the table as it stands. */
    constructor (services: seq<string>, table: seq<Incident>)
      ensures targets == services && Contents() == Watch(map[], table)
    {
      targets, consecutiveFailures, incidents := services, map[], table;
    }

    /** The transaction that resolves or opens an incident; a failing one changes nothing. */
    method Transact(service: string, healthy: bool, refused: bool) returns (threw: bool)
      modifies this`incidents
      ensures threw == refused
      ensures incidents ==
        if refused then old(incidents)
        else if healthy then Resolved(old(incidents), service)
        else Opened(old(incidents), service)
    {
      if refused {
        return true;
      }
      var open := FindOpen(incidents, service);
      if healthy && open.Some? {
        incidents := incidents[open.value := Incident(service, true)];
      } else if !healthy && open.None? {
        incidents := incidents + [Incident(service, false)];
      }
      return false;
    }

    /** The loop's body. */
    method CheckTarget(c: Check) returns (threw: bool)
      modifies this
      ensures Contents() == Checked(old(Contents()), c)
      ensures threw <==> Transacts(old(Contents()), c) && c.refused
    {
      threw := false;
      if c.healthy {
        var hadFailures := CountOf(consecutiveFailures, c.service) >= FAILURE_THRESHOLD;
        consecutiveFailures := consecutiveFailures[c.service := 0];
        if hadFailures {
          threw := Transact(c.service, true, c.refused);
        }
      } else {
        var nextFailures := CountOf(consecutiveFailures, c.service) + 1;
        consecutiveFailures := consecutiveFailures[c.service := nextFailures];
        if nextFailures == FAILURE_THRESHOLD {
          threw := Transact(c.service, false, c.refused);
        }
      }
    }

    /** Checks the targets in order; a failing transaction ends the poll, with its counter updated and
        the targets behind it unchecked. */
    method PollOnce(checks: seq<Check>) returns (checked: nat, threw: bool)
      requires |checks| == |targets| && forall i :: 0 <= i < |targets| ==> checks[i].service == targets[i]
      modifies this
      ensures checked <= |checks| && Contents() == After(old(Contents()), checks[..checked])
      ensures forall i :: 0 <= i < checked ==> (ThrowsAt(old(Contents()), checks, i) <==> threw && i == checked - 1)
      ensures !threw ==> checked == |checks|
    {
      checked, threw := 0, false;
      while checked < |targets| && !threw
        invariant checked <= |targets|
        invariant Contents() == After(old(Contents()), checks[..checked])
        invariant forall i :: 0 <= i < checked ==> (ThrowsAt(old(Contents()), checks, i) <==> threw && i == checked - 1)
      {
        assert checks[..checked + 1][..checked] == checks[..checked];
        threw := CheckTarget(checks[checked]);
        checked := checked + 1;
      }
    }
  }

  /** The transaction of check number `i` is wanted and refused. */
  predicate ThrowsAt(w: Watch, checks: seq<Check>, i: nat)
    requires i < |checks|
  {
    Transacts(After(w, checks[..i]), checks[i]) && checks[i].refused
  }

  // ---------------------------------------------------------------------
  // What a history of checks says by itself
  // ---------------------------------------------------------------------

  /** The outcomes of one service's checks. */
  function Results(h: seq<Check>, service: string): seq<bool> {
    if h == [] then []
    else Results(h[..|h| - 1], service) + if h[|h| - 1].service == service then [h[|h| - 1].healthy] else []
  }

  /** The last `k` checks failed, and no more than those. */
  predicate FailingSuffix(results: seq<bool>, k: nat) {
    && k <= |results|
    && (forall i :: |results| - k <= i < |results| ==> !results[i])
    && (k < |results| ==> results[|results| - k - 1])
  }

  /** A maximal run of failures, at least two long, starts at `i`. */
  predicate StartsOutage(results: seq<bool>, i: nat) {
    && i + 1 < |results|
    && !results[i] && !results[i + 1]
    && (i > 0 ==> results[i - 1])
  }

  function Outages(results: seq<bool>): set<nat> {
    set i: nat | 0 <= i < |results| && StartsOutage(results, i)
  }

  function RowsOf(incidents: seq<Incident>, service: string): nat {
    multiset(incidents)[Incident(service, true)] + multiset(incidents)[Incident(service, false)]
  }

  function OpenRowsOf(incidents: seq<Incident>, service: string): nat {
    multiset(incidents)[Incident(service, false)]
  }

  predicate NoneRefused(h: seq<Check>) {
    forall i :: 0 <= i < |h| ==> !h[i].refused
  }

  lemma OutageStarts(results: seq<bool>, healthy: bool, k: nat, i: nat)
    requires FailingSuffix(results, k)
    ensures StartsOutage(results + [healthy], i) <==>
      StartsOutage(results, i) || (!healthy && k == 1 && i == |results| - 1)
  {
    var now := results + [healthy];
    if i + 1 < |results| {
      assert now[i] == results[i] && now[i + 1] == results[i + 1];
    } else if i + 1 == |results| {
      assert now[i] == results[i] && now[i + 1] == healthy;
    }
  }

  lemma SuffixGrows(results: seq<bool>, healthy: bool, k: nat)
    requires FailingSuffix(results, k)
    ensures FailingSuffix(results + [healthy], if healthy then 0 else k + 1)
  {
  }

  lemma OutagesGrow(results: seq<bool>, healthy: bool, k: nat)
    requires FailingSuffix(results, k)
    ensures |Outages(results + [healthy])| == |Outages(results)| + if !healthy && k == 1 then 1 else 0
  {
    var now, last := results + [healthy], |results| - 1;
    forall i: nat ensures i in Outages(now) <==> i in Outages(results) || (!healthy && k == 1 && i == last) {
      OutageStarts(results, healthy, k, i);
    }
    if !healthy && k == 1 {
      assert last !in Outages(results);
      assert Outages(now) == Outages(results) + {last};
    } else {
      assert Outages(now) == Outages(results);
    }
  }

  lemma FindOpenFinds(incidents: seq<Incident>, service: string)
    ensures FindOpen(incidents, service).None? <==> OpenRowsOf(incidents, service) == 0
  {
    assert Incident(service, false) in multiset(incidents) <==> Incident(service, false) in incidents;
  }

  lemma ResolvedCounts(incidents: seq<Incident>, service: string, other: string)
    ensures var t := Resolved(incidents, service);
      && RowsOf(t, other) == RowsOf(incidents, other)
      && OpenRowsOf(t, other) == OpenRowsOf(incidents, other) -
           if other == service && OpenRowsOf(incidents, service) > 0 then 1 else 0
  {
    FindOpenFinds(incidents, service);
    var open := FindOpen(incidents, service);
    if open.Some? {
      var i := open.value;
      assert incidents == incidents[..i] + [incidents[i]] + incidents[i + 1..];
      assert Resolved(incidents, service) == incidents[..i] + [Incident(service, true)] + incidents[i + 1..];
    }
  }

  lemma OpenedCounts(incidents: seq<Incident>, service: string, other: string)
    requires OpenRowsOf(incidents, service) == 0
    ensures var t := Opened(incidents, service);
      && RowsOf(t, other) == RowsOf(incidents, other) + (if other == service then 1 else 0)
      && OpenRowsOf(t, other) == OpenRowsOf(incidents, other) + if other == service then 1 else 0
  {
    FindOpenFinds(incidents, service);
  }

  /** What the counter and the table of a service have to do with its checks. */
  predicate Tells(w: Watch, results: seq<bool>, service: string) {
    var k := CountOf(w.failures, service);
    && FailingSuffix(results, k)
    && OpenRowsOf(w.incidents, service) == (if k >= FAILURE_THRESHOLD then 1 else 0)
    && RowsOf(w.incidents, service) == |Outages(results)|
  }

  lemma CheckTells(w: Watch, results: seq<bool>, c: Check)
    requires Tells(w, results, c.service) && !c.refused
    ensures Tells(Checked(w, c), results + [c.healthy], c.service)
  {
    SuffixGrows(results, c.healthy, CountOf(w.failures, c.service));
    OutagesGrow(results, c.healthy, CountOf(w.failures, c.service));
    if Transacts(w, c) {
      if c.healthy {
        ResolvedCounts(w.incidents, c.service, c.service);
      } else {
        OpenedCounts(w.incidents, c.service, c.service);
      }
    }
  }

  lemma OthersUntouched(w: Watch, c: Check, service: string)
    requires service != c.service
    ensures var t := Checked(w, c);
      && CountOf(t.failures, service) == CountOf(w.failures, service)
      && OpenRowsOf(t.incidents, service) == OpenRowsOf(w.incidents, service)
      && RowsOf(t.incidents, service) == RowsOf(w.incidents, service)
  {
    ResolvedCounts(w.incidents, c.service, service);
    if OpenRowsOf(w.incidents, c.service) == 0 {
      OpenedCounts(w.incidents, c.service, service);
    } else {
      FindOpenFinds(w.incidents, c.service);
    }
  }

  /** From a clean start, with no refused transaction, for every service at every time: the counter is
      the length of the failing suffix of its checks, exactly one incident is open if that is at least
      two and none otherwise, and it has had as many incidents as maximal failing runs of two or more. */
  lemma {:induction false} TableTellsTheHistory(h: seq<Check>, service: string)
    requires NoneRefused(h)
    ensures Tells(After(Watch(map[], []), h), Results(h, service), service)
  {
    if h == [] {
      assert Outages([]) == {};
    } else {
      var front, c := h[..|h| - 1], h[|h| - 1];
      TableTellsTheHistory(front, service);
      if c.service == service {
        CheckTells(After(Watch(map[], []), front), Results(front, service), c);
      } else {
        assert Results(h, service) == Results(front, service);
        OthersUntouched(After(Watch(map[], []), front), c, service);
      }
    }
  }

  // ---------------------------------------------------------------------
  // What failing transactions do
  // ---------------------------------------------------------------------

  /** An outage: two failing checks of the service and any number more, among checks of others. */
  predicate Outage(h: seq<Check>, service: string) {
    FailingSuffix(Results(h, service), |Results(h, service)|)
  }

  /** The check that makes it two failures. */
  function SecondFailure(h: seq<Check>, service: string): (r: Option<Check>)
    ensures r.Some? <==> |Results(h, service)| >= 2
  {
    if h == [] then None
    else if h[|h| - 1].service == service && |Results(h[..|h| - 1], service)| == 1 then Some(h[|h| - 1])
    else SecondFailure(h[..|h| - 1], service)
  }

  lemma FrontOfOutage(h: seq<Check>, service: string)
    requires h != [] && Outage(h, service)
    ensures Outage(h[..|h| - 1], service)
    ensures h[|h| - 1].service == service ==> !h[|h| - 1].healthy
  {
    var front := Results(h[..|h| - 1], service);
    var all := Results(h, service);
    assert forall i :: 0 <= i < |front| ==> front[i] == all[i];
    if h[|h| - 1].service == service {
      assert all[|front|] == h[|h| - 1].healthy;
    }
  }

  /** An outage is on record if and only if the transaction at its second failure went through: the
      threshold is met once, and never tried again however long the outage lasts. */
  lemma {:induction false} OutageIsRecordedOnceOrNever(w: Watch, h: seq<Check>, service: string)
    requires CountOf(w.failures, service) == 0 && OpenRowsOf(w.incidents, service) == 0
    requires Outage(h, service)
    ensures var t := After(w, h); var second := SecondFailure(h, service);
      && CountOf(t.failures, service) == |Results(h, service)|
      && OpenRowsOf(t.incidents, service) == if second.Some? && !second.value.refused then 1 else 0
  {
    if h == [] {
    } else {
      var front, c := h[..|h| - 1], h[|h| - 1];
      FrontOfOutage(h, service);
      OutageIsRecordedOnceOrNever(w, front, service);
      if c.service != service {
        OthersUntouched(After(w, front), c, service);
      } else if |Results(front, service)| == 1 && !c.refused {
        OpenedCounts(After(w, front).incidents, service, service);
      }
    }
  }

  /** A service never has two open incidents: whatever the checks, the failing transactions and the counters a restart
      left, none is opened while one is open. */
  lemma {:induction false} NeverTwoOpen(w: Watch, h: seq<Check>, service: string)
    requires OpenRowsOf(w.incidents, service) <= 1
    ensures OpenRowsOf(After(w, h).incidents, service) <= 1
  {
    if h == [] {
    } else {
      var front, c := h[..|h| - 1], h[|h| - 1];
      NeverTwoOpen(w, front, service);
      var v := After(w, front);
      if c.service != service {
        OthersUntouched(v, c, service);
      } else {
        FindOpenFinds(v.incidents, service);
        ResolvedCounts(v.incidents, service, service);
        if OpenRowsOf(v.incidents, service) == 0 {
          OpenedCounts(v.incidents, service, service);
        }
      }
    }
  }

  predicate AllPass(h: seq<Check>, service: string) {
    forall i :: 0 <= i < |h| && h[i].service == service ==> h[i].healthy
  }

  /** After a restart the counters are empty, so an incident left open by the last process stays open
      through any number of passing checks. */
  lemma {:induction false} RestartForgetsOpenIncidents(table: seq<Incident>, h: seq<Check>, service: string)
    requires AllPass(h, service)
    ensures var t := After(Watch(map[], table), h);
      CountOf(t.failures, service) == 0 && OpenRowsOf(t.incidents, service) == OpenRowsOf(table, service)
  {
    if h == [] {
    } else {
      var front, c := h[..|h| - 1], h[|h| - 1];
      assert forall i :: 0 <= i < |front| ==> front[i] == h[i];
      RestartForgetsOpenIncidents(table, front, service);
      if c.service != service {
        OthersUntouched(After(Watch(map[], table), front), c, service);
      }
    }
  }
}
