/** Masking of e-mail addresses in log text: leftmost matches of a greedy pattern
    (packages/observability/src/piiMask.ts:7, :12-19). */
module EmailMask {
  import opened Prelude

  predicate Letter(c: char) {
    'a' <= c <= 'z' || 'A' <= c <= 'Z'
  }

  predicate Digit(c: char) {
    '0' <= c <= '9'
  }

  /** `[a-zA-Z0-9._%+-]` */
  predicate Local(c: char) {
    Letter(c) || Digit(c) || c == '.' || c == '_' || c == '%' || c == '+' || c == '-'
  }

  /** `[a-zA-Z0-9.-]` */
  predicate Domain(c: char) {
    Letter(c) || Digit(c) || c == '.' || c == '-'
  }

  /** How far a greedy `[..]*` gets. */
  function Run(kind: char -> bool, t: string): (n: nat)
    ensures n <= |t|
    ensures forall i :: 0 <= i < n ==> kind(t[i])
    ensures n < |t| ==> !kind(t[n])
  {
    if t == [] || !kind(t[0]) then 0 else 1 + Run(kind, t[1..])
  }

  /** `\.[a-zA-Z]{2,}` can match at `q`. */
  predicate DotAt(d: string, q: nat) {
    q + 2 < |d| && d[q] == '.' && Letter(d[q + 1]) && Letter(d[q + 2])
  }

  /** Backtracking: the last such dot in front of `p`, with at least one character before it. */
  function LastDot(d: string, p: nat): (r: Option<nat>)
    ensures r.Some? ==> 1 <= r.value < p && DotAt(d, r.value)
    ensures forall q :: (if r.Some? then r.value + 1 else 1) <= q < p ==> !DotAt(d, q)
  {
    if p <= 1 then None
    else if DotAt(d, p - 1) then Some(p - 1)
    else LastDot(d, p - 1)
  }

  /** `at` is the place of the '@', `end` the end of the match. */
  datatype Match = Match(at: nat, end: nat)

  /** The match of the pattern at the start of the text, as a backtracking matcher finds it. */
  function EmailAt(t: string): (r: Option<Match>)
    ensures r.Some? ==> 0 < r.value.at < r.value.end <= |t| && t[r.value.at] == '@'
  {
    var at := Run(Local, t);
    if at == 0 || at == |t| || t[at] != '@' then None
    else
      var d := t[at + 1..];
      var dot := LastDot(d, Run(Domain, d));
      if dot.None? then None
      else Some(Match(at, at + 1 + (dot.value + 1 + Run(Letter, d[dot.value + 1..]))))
  }

  /** `${local.slice(0, 1)}***${domain}`. */
  function Masked(t: string, m: Match): string
    requires m.at < m.end <= |t|
  {
    [t[0], '*', '*', '*'] + t[m.at..m.end]
  }

  function MaskEmail(t: string): string
    decreases |t|
  {
    if t == [] then []
    else
      var m := EmailAt(t);
      if m.Some? then Masked(t, m.value) + MaskEmail(t[m.value.end..])
      else [t[0]] + MaskEmail(t[1..])
  }

  // ---------------------------------------------------------------------
  // The pattern's language
  // ---------------------------------------------------------------------

  /** The text starts with some word of the pattern's language: local part up to `at`, domain up to
      the dot at `dot`, two letters more. */
  predicate Spells(t: string, at: nat, dot: nat) {
    && 0 < at && at + 1 < dot && DotAt(t, dot)
    && (forall i :: 0 <= i < at ==> Local(t[i]))
    && t[at] == '@'
    && (forall i :: at < i < dot ==> Domain(t[i]))
  }

  predicate StartsEmail(t: string) {
    exists at: nat, dot: nat | at < |t| && dot < |t| :: Spells(t, at, dot)
  }

  lemma SpelledFrom(t: string, at: nat, d: string, q: nat)
    requires 0 < at < |t| && t[at] == '@' && d == t[at + 1..] && 0 < q && DotAt(d, q)
    requires forall i :: 0 <= i < at ==> Local(t[i])
    requires forall i :: 0 <= i < q ==> Domain(d[i])
    ensures Spells(t, at, at + 1 + q)
  {
    hide Local, Domain, Letter;
    forall i | at < i < at + 1 + q ensures Domain(t[i]) {
      assert t[i] == d[i - at - 1];
    }
  }

  lemma MatcherIsSound(t: string)
    requires EmailAt(t).Some?
    ensures StartsEmail(t)
  {
    var a := Run(Local, t);
    var d := t[a + 1..];
    var q := LastDot(d, Run(Domain, d)).value;
    SpelledFrom(t, a, d, q);
  }

  lemma RunIs(kind: char -> bool, t: string, n: nat)
    requires n <= |t| && (forall i :: 0 <= i < n ==> kind(t[i])) && (n < |t| ==> !kind(t[n]))
    ensures Run(kind, t) == n
  {
  }

  lemma SpelledIsFound(t: string, at: nat, dot: nat)
    requires at < |t| && dot < |t| && Spells(t, at, dot)
    ensures EmailAt(t).Some?
  {
    RunIs(Local, t, at);
    var d := t[at + 1..];
    var q := dot - at - 1;
    assert forall i :: 0 <= i < q ==> d[i] == t[at + 1 + i];
    assert DotAt(d, q) && Domain(d[q]);
    assert q < Run(Domain, d);
    hide Run, Local, Domain, Spells;
    assert LastDot(d, Run(Domain, d)).Some?;
  }

  /** The greedy matcher matches at the start if and only if the language has a word there. */
  lemma MatcherIsComplete(t: string)
    ensures EmailAt(t).Some? <==> StartsEmail(t)
  {
    hide EmailAt, Spells;
    if EmailAt(t).Some? {
      MatcherIsSound(t);
    }
    if StartsEmail(t) {
      var at: nat, dot: nat :| at < |t| && dot < |t| && Spells(t, at, dot);
      SpelledIsFound(t, at, dot);
    }
  }

  // ---------------------------------------------------------------------
  // Read from the left, one character at a time
  // ---------------------------------------------------------------------

  /** More domain, then a dot and two letters. */
  predicate Tail(x: string) {
    x != [] && (DotAt(x, 0) || (Domain(x[0]) && Tail(x[1..])))
  }

  predicate DomainOk(d: string) {
    d != [] && Domain(d[0]) && Tail(d[1..])
  }

  /** One character of a local part, an '@' and a domain. */
  predicate ShortEmail(t: string) {
    |t| >= 2 && Local(t[0]) && t[1] == '@' && DomainOk(t[2..])
  }

  predicate HasEmail(t: string) {
    t != [] && (ShortEmail(t) || HasEmail(t[1..]))
  }

  lemma {:induction false} TailIs(x: string, q: nat)
    requires DotAt(x, q) && forall i :: 0 <= i < q ==> Domain(x[i])
    ensures Tail(x)
  {
    if q > 0 {
      assert DotAt(x[1..], q - 1);
      TailIs(x[1..], q - 1);
    }
  }

  lemma {:induction false} TailHasDot(x: string) returns (q: nat)
    requires Tail(x)
    ensures DotAt(x, q) && forall i :: 0 <= i < q ==> Domain(x[i])
  {
    if DotAt(x, 0) {
      q := 0;
    } else {
      q := TailHasDot(x[1..]);
      q := q + 1;
      assert forall i :: 1 <= i < q ==> x[i] == x[1..][i - 1];
    }
  }

  lemma DotIff(d: string)
    ensures LastDot(d, Run(Domain, d)).Some? <==> DomainOk(d)
  {
    var dot := LastDot(d, Run(Domain, d));
    if dot.Some? {
      assert DotAt(d[1..], dot.value - 1);
      TailIs(d[1..], dot.value - 1);
    }
    if DomainOk(d) {
      var q := TailHasDot(d[1..]);
      assert forall i :: 1 <= i <= q ==> d[i] == d[1..][i - 1];
      assert DotAt(d, q + 1) && Domain(d[q + 1]);
      assert q + 1 < Run(Domain, d);
    }
  }

  /** A match needs no more of a local part than a run of its characters. */
  lemma EmailAtIff(t: string)
    ensures EmailAt(t).Some? <==>
      var at := Run(Local, t); 0 < at < |t| && t[at] == '@' && DomainOk(t[at + 1..])
  {
    hide LastDot, DomainOk, Run, Local, Domain;
    var at := Run(Local, t);
    if 0 < at < |t| && t[at] == '@' {
      DotIff(t[at + 1..]);
    }
  }

  lemma RunOfTail(t: string)
    requires t != [] && Local(t[0])
    ensures Run(Local, t) == 1 + Run(Local, t[1..])
  {
  }

  /** Dropping a character of the local part does not lose a match, unless it is the last. */
  lemma EmailAtStep(t: string)
    requires t != []
    ensures EmailAt(t).Some? <==> Local(t[0]) && (ShortEmail(t) || EmailAt(t[1..]).Some?)
  {
    EmailAtIff(t);
    EmailAtIff(t[1..]);
    if Local(t[0]) {
      RunOfTail(t);
      var at := Run(Local, t[1..]);
      if at == 0 {
        assert |t| > 1 ==> t[1..][0] == t[1];
      } else {
        assert t[1..][0] == t[1] && Local(t[1]);
        if at < |t[1..]| {
          assert t[1..][at + 1..] == t[at + 2..];
        }
      }
    }
  }

  lemma {:induction false} MatchMeansEmail(t: string)
    requires EmailAt(t).Some?
    ensures HasEmail(t)
  {
    EmailAtStep(t);
    if !ShortEmail(t) {
      MatchMeansEmail(t[1..]);
    }
  }

  /** A text without addresses is not changed. */
  lemma {:induction false} MaskEmailIdentity(t: string)
    requires !HasEmail(t)
    ensures MaskEmail(t) == t
  {
    if t == [] {
    } else {
      if EmailAt(t).Some? {
        MatchMeansEmail(t);
      }
      MaskEmailIdentity(t[1..]);
    }
  }

  // ---------------------------------------------------------------------
  // What masking leaves
  // ---------------------------------------------------------------------

  lemma {:induction false} TailAfterMask(x: string)
    requires EmailAt(x).None?
    ensures Tail(MaskEmail(x)) <==> Tail(x)
  {
    if x != [] && Domain(x[0]) {
      EmailAtStep(x);
      TailAfterMask(x[1..]);
      var y := MaskEmail(x);
      assert y[1..] == MaskEmail(x[1..]);
      if |x| > 1 {
        assert y[1] == x[1];
        if Local(x[1]) {
          EmailAtStep(x[1..]);
          assert x[1..][1..] == x[2..];
          if |x| > 2 {
            assert y[2] == MaskEmail(x[1..])[1] == MaskEmail(x[2..])[0] == x[2];
          }
        }
      }
      assert DotAt(y, 0) <==> DotAt(x, 0);
    }
  }

  /** A domain survives masking unless it is itself taken for a local part. */
  lemma DomainAfterMask(d: string)
    ensures DomainOk(MaskEmail(d)) <==> DomainOk(d) && EmailAt(d).None?
  {
    if d != [] {
      var y := MaskEmail(d);
      if EmailAt(d).Some? {
        assert y[1] == '*' && y[1..][0] == '*';
      } else if Domain(d[0]) {
        EmailAtStep(d);
        assert y[1..] == MaskEmail(d[1..]);
        TailAfterMask(d[1..]);
      }
    }
  }

  /** Characters without an '@' add an address only where the text behind them starts with one. */
  lemma {:induction false} PlainPrefix(a: string, b: string)
    requires forall i :: 0 <= i < |a| ==> a[i] != '@'
    ensures HasEmail(a + b) <==>
      HasEmail(b) || (a != [] && Local(a[|a| - 1]) && b != [] && b[0] == '@' && DomainOk(b[1..]))
  {
    if a == [] {
      assert a + b == b;
    } else {
      assert (a + b)[1..] == a[1..] + b;
      PlainPrefix(a[1..], b);
      if |a| == 1 {
        if b != [] {
          assert (a + b)[2..] == b[1..];
        }
      } else {
        assert (a + b)[1] == a[1];
        assert a[1..][|a| - 2] == a[|a| - 1];
      }
    }
  }

  /** A match goes on with domain characters to its end. */
  lemma MatchSpan(t: string)
    requires EmailAt(t).Some?
    ensures var m := EmailAt(t).value; forall i :: m.at < i < m.end ==> Domain(t[i])
  {
    var m := EmailAt(t).value;
    var d := t[m.at + 1..];
    var q := LastDot(d, Run(Domain, d)).value;
    forall i | m.at < i < m.end ensures Domain(t[i]) {
      assert t[i] == d[i - m.at - 1];
      if i - m.at - 1 > q {
        assert d[i - m.at - 1] == d[q + 1..][i - m.at - 1 - q - 1];
      }
    }
  }

  lemma MatchEnd(t: string)
    requires EmailAt(t).Some?
    ensures var m := EmailAt(t).value; m.at + 1 < m.end && Letter(t[m.end - 1])
  {
    var m := EmailAt(t).value;
    var d := t[m.at + 1..];
    var q := LastDot(d, Run(Domain, d)).value;
    var n := Run(Letter, d[q + 1..]);
    assert d[q + 1..][0] == d[q + 1];
    assert n > 0 && d[q + 1..][n - 1] == d[q + n] == t[m.at + 1 + q + n];
  }

  /** A match ends right in front of an '@' whose domain is not taken for a local part in turn. */
  predicate Chained(rest: string) {
    rest != [] && rest[0] == '@' && DomainOk(rest[1..]) && EmailAt(rest[1..]).None?
  }

  predicate Chains(t: string)
    decreases |t|
  {
    if t == [] then false
    else
      var m := EmailAt(t);
      if m.Some? then Chained(t[m.value.end..]) || Chains(t[m.value.end..]) else Chains(t[1..])
  }

  lemma AtSignStays(rest: string)
    requires rest != [] && rest[0] == '@'
    ensures MaskEmail(rest) == ['@'] + MaskEmail(rest[1..])
  {
    assert Run(Local, rest) == 0;
  }

  lemma AtFirstAfterMask(rest: string)
    ensures MaskEmail(rest) != [] && MaskEmail(rest)[0] == '@' && DomainOk(MaskEmail(rest)[1..]) <==> Chained(rest)
  {
    if rest != [] {
      if rest[0] == '@' {
        AtSignStays(rest);
        DomainAfterMask(rest[1..]);
        assert MaskEmail(rest)[1..] == MaskEmail(rest[1..]);
      } else {
        assert MaskEmail(rest)[0] == rest[0];
      }
    }
  }

  lemma MatchStart(t: string)
    requires EmailAt(t).Some?
    ensures t[0] != '@'
  {
    assert Run(Local, t) > 0;
  }

  lemma MaskOfMatch(t: string)
    requires EmailAt(t).Some?
    ensures var m := EmailAt(t).value;
      MaskEmail(t) == [t[0], '*', '*', '*'] + (['@'] + (t[m.at + 1..m.end] + MaskEmail(t[m.end..])))
  {
    hide EmailAt;
    var m := EmailAt(t).value;
    var domain, r := t[m.at + 1..m.end], MaskEmail(t[m.end..]);
    assert t[m.at..m.end] == ['@'] + domain;
    ConcatAssociative([t[0], '*', '*', '*'], ['@'] + domain, r);
    ConcatAssociative(['@'], domain, r);
  }

  lemma MatchedPart(t: string)
    requires EmailAt(t).Some?
    ensures var rest := t[EmailAt(t).value.end..];
      HasEmail(MaskEmail(t)) <==> HasEmail(MaskEmail(rest)) || Chained(rest)
  {
    hide EmailAt, MaskEmail, Chained, DomainOk;
    var m := EmailAt(t).value;
    var r := MaskEmail(t[m.end..]);
    var domain := t[m.at + 1..m.end];
    MatchSpan(t);
    MatchEnd(t);
    MatchStart(t);
    MaskOfMatch(t);
    PlainPrefix([t[0], '*', '*', '*'], ['@'] + (domain + r));
    assert (['@'] + (domain + r))[1..] == domain + r;
    assert domain[|domain| - 1] == t[m.end - 1];
    PlainPrefix(domain, r);
    AtFirstAfterMask(t[m.end..]);
  }

  lemma UnmatchedPart(t: string)
    requires t != [] && EmailAt(t).None?
    ensures HasEmail(MaskEmail(t)) <==> HasEmail(MaskEmail(t[1..]))
  {
    var y := MaskEmail(t);
    assert y[1..] == MaskEmail(t[1..]);
    EmailAtStep(t);
    AtFirstAfterMask(t[1..]);
    if |y| >= 2 {
      assert y[2..] == MaskEmail(t[1..])[1..];
      assert t[1..][1..] == t[2..];
    }
  }

  /** The masked text still holds an address if and only if two of them are chained in the original,
      as in `a@b.co@c.co`. */
  lemma {:induction false} MaskLeavesAddressIff(t: string)
    ensures HasEmail(MaskEmail(t)) <==> Chains(t)
    decreases |t|
  {
    if t == [] {
    } else {
      if EmailAt(t).Some? {
        MatchedPart(t);
        MaskLeavesAddressIff(t[EmailAt(t).value.end..]);
      } else {
        UnmatchedPart(t);
        MaskLeavesAddressIff(t[1..]);
      }
    }
  }

  lemma {:induction false} MaskingChanges(t: string)
    requires HasEmail(t)
    ensures MaskEmail(t) != t
    decreases |t|
  {
    if EmailAt(t).Some? {
      var m := EmailAt(t).value;
      assert MaskEmail(t)[1] == '*';
      assert t[1] != '*' by {
        assert m.at == Run(Local, t);
        assert m.at == 1 ==> t[1] == '@';
        assert m.at > 1 ==> Local(t[1]);
      }
    } else {
      EmailAtStep(t);
      assert !ShortEmail(t);
      MaskingChanges(t[1..]);
      assert MaskEmail(t)[1..] == MaskEmail(t[1..]);
    }
  }

  /** So masking twice is masking once if and only if no two addresses are chained. */
  lemma MaskEmailIdempotentIff(t: string)
    ensures MaskEmail(MaskEmail(t)) == MaskEmail(t) <==> !Chains(t)
  {
    MaskLeavesAddressIff(t);
    if HasEmail(MaskEmail(t)) {
      MaskingChanges(MaskEmail(t));
    } else {
      MaskEmailIdentity(MaskEmail(t));
    }
  }

  predicate Blank(c: char) {
    c == ' ' || c == '\t' || c == '\n' || c == '\r'
  }

  /** No word of the text has two '@'. */
  predicate OneAtPerWord(t: string) {
    forall i, j :: 0 <= i < j < |t| && t[i] == '@' && t[j] == '@' ==> exists k | i < k < j :: Blank(t[k])
  }

  lemma OneAtInRest(t: string, n: nat)
    requires OneAtPerWord(t) && n <= |t|
    ensures OneAtPerWord(t[n..])
  {
    var r := t[n..];
    forall i, j | 0 <= i < j < |r| && r[i] == '@' && r[j] == '@' ensures exists k | i < k < j :: Blank(r[k]) {
      var k :| n + i < k < n + j && Blank(t[k]);
      assert Blank(r[k - n]);
    }
  }

  lemma NoAtBehindMatch(t: string)
    requires OneAtPerWord(t) && EmailAt(t).Some? && EmailAt(t).value.end < |t|
    ensures t[EmailAt(t).value.end] != '@'
  {
    var m := EmailAt(t).value;
    MatchSpan(t);
    hide EmailAt;
    forall k | m.at < k < m.end ensures !Blank(t[k]) {
      assert Domain(t[k]);
    }
  }

  /** A condition on words alone that rules chains out. */
  lemma {:induction false} OneAtPerWordMeansNoChain(t: string)
    requires OneAtPerWord(t)
    ensures !Chains(t)
    decreases |t|
  {
    hide OneAtPerWord, EmailAt, DomainOk;
    if t == [] {
    } else {
      var m := EmailAt(t);
      OneAtInRest(t, 1);
      if m.Some? {
        OneAtInRest(t, m.value.end);
        OneAtPerWordMeansNoChain(t[m.value.end..]);
        if m.value.end < |t| {
          NoAtBehindMatch(t);
        }
      } else {
        OneAtPerWordMeansNoChain(t[1..]);
      }
    }
  }

  lemma MatchIs(t: string, at: nat, dot: nat, end: nat)
    requires 0 < at && at + 1 < dot < end <= |t|
    requires Run(Local, t) == at && t[at] == '@'
    requires LastDot(t[at + 1..], Run(Domain, t[at + 1..])) == Some(dot - at - 1) &&
      Run(Letter, t[dot + 1..]) == end - dot - 1
    ensures EmailAt(t) == Some(Match(at, end))
  {
    hide Run, LastDot, Local, Domain, Letter;
    assert t[at + 1..][dot - at..] == t[dot + 1..];
  }

  lemma LastDotOfBCo(d: string)
    requires d == "b.co@c.co"
    ensures LastDot(d, Run(Domain, d)) == Some(1)
  {
    RunIs(Domain, d, 4);
    assert LastDot(d, 2) == Some(1);
    assert LastDot(d, 4) == LastDot(d, 3) == LastDot(d, 2);
  }

  lemma SecondOfTwoAts(rest: string, d: string)
    requires d == "c.co" && rest == ['@'] + d
    ensures Chained(rest)
  {
    assert rest[1..] == d;
    RunIs(Local, d, 4);
    assert DotAt(d[1..], 0);
  }

  lemma RunOfA(t: string)
    requires |t| > 1 && t[0] == 'a' && t[1] == '@'
    ensures Run(Local, t) == 1
  {
    RunIs(Local, t, 1);
  }

  lemma RunOfCo(d: string)
    requires |d| > 2 && d[0] == 'c' && d[1] == 'o' && d[2] == '@'
    ensures Run(Letter, d) == 2
  {
    RunIs(Letter, d, 2);
  }

  lemma FirstOfTwoAts(t: string)
    requires t == "a@b.co@c.co"
    ensures EmailAt(t) == Some(Match(1, 6))
  {
    hide Run, LastDot, Local, Domain, Letter, EmailAt;
    RunOfA(t);
    LastDotOfBCo(t[2..]);
    RunOfCo(t[4..]);
    MatchIs(t, 1, 3, 6);
  }

  /** The condition matters. */
  lemma TwoAtsInOneWord(t: string)
    requires t == "a@b.co@c.co"
    ensures HasEmail(MaskEmail(t))
  {
    hide Run, LastDot, Local, Domain, Letter, EmailAt, Chained, MaskEmail, HasEmail;
    FirstOfTwoAts(t);
    SecondOfTwoAts(t[6..], t[7..]);
    MaskLeavesAddressIff(t);
  }
}
