/** Both masks, one after the other (packages/observability/src/piiMask.ts:25-27). */
module PiiMask {
  import opened Prelude
  import opened EmailMask
  import opened PhoneMask

  function MaskPii(t: string): string {
    MaskPhone(MaskEmail(t))
  }

  // ---------------------------------------------------------------------
  // Masking numbers makes no address
  // ---------------------------------------------------------------------

  lemma {:induction false} TailPastDigits(a: string, b: string)
    requires forall i :: 0 <= i < |a| ==> Digit(a[i])
    requires Tail(a + b)
    ensures Tail(b)
  {
    if a == [] {
      assert a + b == b;
    } else {
      assert (a + b)[1..] == a[1..] + b && (a + b)[0] == a[0];
      TailPastDigits(a[1..], b);
    }
  }

  lemma MaskOfNumber(t: string)
    requires PhoneAt(t).Some?
    ensures var end := PhoneAt(t).value; MaskPhone(t) == t[..4] + ("***" + (t[end - 2..end] + MaskPhone(t[end..])))
  {
    var end := PhoneAt(t).value;
    hide PhoneAt, NumberAt;
    var last, r := t[end - 2..end], MaskPhone(t[end..]);
    assert t[..end][end - 2..] == last && t[..end][..4] == t[..4];
    ConcatAssociative(t[..4] + "***", last, r);
    ConcatAssociative(t[..4], "***", last + r);
  }

  lemma NoTailInNumber(t: string)
    requires PhoneAt(t).Some?
    ensures !Tail(MaskPhone(t)) && !DomainOk(MaskPhone(t))
  {
    MaskOfNumber(t);
    var y, end := MaskPhone(t), PhoneAt(t).value;
    var b := "***" + (t[end - 2..end] + MaskPhone(t[end..]));
    assert y == [t[0]] + (t[1..4] + b);
    assert y[1..] == t[1..4] + b;
    if Tail(y[1..]) {
      TailPastDigits(t[1..4], b);
    }
  }

  lemma {:induction false} TailOfMasked(x: string)
    requires Tail(MaskPhone(x))
    ensures Tail(x)
    decreases |x|
  {
    if PhoneAt(x).Some? {
      NoTailInNumber(x);
    } else {
      var y := MaskPhone(x);
      assert y[1..] == MaskPhone(x[1..]) && y[0] == x[0];
      if DotAt(y, 0) {
        assert x[1..] != [];
        FirstCharStays(x[1..]);
        assert x[1] == y[1] && PhoneAt(x[1..]).None?;
        assert y[2] == MaskPhone(x[1..])[1] == MaskPhone(x[1..][1..])[0];
        assert x[1..][1..] == x[2..] != [];
        FirstCharStays(x[2..]);
      } else {
        TailOfMasked(x[1..]);
      }
    }
  }

  lemma DomainOfMasked(d: string)
    requires DomainOk(MaskPhone(d))
    ensures DomainOk(d)
  {
    if PhoneAt(d).Some? {
      NoTailInNumber(d);
    } else {
      assert MaskPhone(d)[1..] == MaskPhone(d[1..]);
      TailOfMasked(d[1..]);
    }
  }

  /** One character of a local part, an '@' and a domain that the mask of numbers leaves one. */
  predicate KeptAt(t: string) {
    |t| >= 2 && Local(t[0]) && t[1] == '@' && DomainOk(MaskPhone(t[2..]))
  }

  predicate KeepsEmail(t: string) {
    t != [] && (KeptAt(t) || KeepsEmail(t[1..]))
  }

  /** An '@' at the start is kept. */
  lemma AtIsKept(t: string)
    ensures MaskPhone(t) != [] && MaskPhone(t)[0] == '@' && DomainOk(MaskPhone(t)[1..]) <==>
      t != [] && t[0] == '@' && DomainOk(MaskPhone(t[1..]))
  {
    if t != [] {
      FirstCharStays(t);
      if t[0] == '@' {
        assert PhoneAt(t).None?;
        assert MaskPhone(t)[1..] == MaskPhone(t[1..]);
      }
    }
  }

  /** Characters without an '@' add an address only where the text behind them starts with one. */
  lemma {:induction false} PlainPrefixKeeps(a: string, b: string)
    requires forall i :: 0 <= i < |a| ==> a[i] != '@'
    ensures KeepsEmail(a + b) <==>
      KeepsEmail(b) || (a != [] && Local(a[|a| - 1]) && b != [] && b[0] == '@' && DomainOk(MaskPhone(b[1..])))
  {
    hide DomainOk, MaskPhone;
    if a == [] {
      assert a + b == b;
    } else {
      assert (a + b)[1..] == a[1..] + b;
      PlainPrefixKeeps(a[1..], b);
      if |a| == 1 {
        if b != [] {
          assert (a + b)[2..] == b[1..];
        }
      } else {
        assert (a + b)[1] == a[1];
        assert a[1..][|a| - 2] == a[|a| - 1];
      }
    }
  }

  lemma StarredIsPlain(number: string)
    requires |number| >= 4 && forall i :: 0 <= i < |number| ==> Digit(number[i]) || number[i] == '+'
    ensures forall i :: 0 <= i < |Starred(number)| ==> Starred(number)[i] != '@'
    ensures Local(Starred(number)[|Starred(number)| - 1]) && Local(number[|number| - 1])
  {
  }

  lemma NumberKeeps(t: string)
    requires PhoneAt(t).Some?
    ensures var rest := t[PhoneAt(t).value..];
      && (HasEmail(MaskPhone(t)) <==>
          HasEmail(MaskPhone(rest)) || (rest != [] && rest[0] == '@' && DomainOk(MaskPhone(rest[1..]))))
      && (KeepsEmail(t) <==> KeepsEmail(rest) || (rest != [] && rest[0] == '@' && DomainOk(MaskPhone(rest[1..]))))
  {
    var end := PhoneAt(t).value;
    var number, rest := t[..end], t[end..];
    StarredIsPlain(number);
    assert MaskPhone(t) == Starred(number) + MaskPhone(rest) && t == number + rest;
    hide MaskPhone, DomainOk, PhoneAt, Starred, HasEmail, KeepsEmail;
    PlainPrefix(Starred(number), MaskPhone(rest));
    PlainPrefixKeeps(number, rest);
    AtIsKept(rest);
  }

  /** The mask of numbers leaves an address where there was one whose domain it leaves one. */
  lemma {:induction false} KeepsEmailIff(t: string)
    ensures HasEmail(MaskPhone(t)) <==> KeepsEmail(t)
    decreases |t|
  {
    if t == [] {
    } else {
      if PhoneAt(t).Some? {
        NumberKeeps(t);
        KeepsEmailIff(t[PhoneAt(t).value..]);
      } else {
        var y := MaskPhone(t);
        assert y[1..] == MaskPhone(t[1..]) && y[0] == t[0];
        AtIsKept(t[1..]);
        assert |t| >= 2 ==> t[1..][1..] == t[2..];
        assert |y| >= 2 ==> y[1..][1..] == y[2..];
        KeepsEmailIff(t[1..]);
      }
    }
  }

  // ---------------------------------------------------------------------
  // Where a text can be cut
  // ---------------------------------------------------------------------

  /** No number goes across: a letter stands before the cut, or no word character behind it. */
  predicate Cut(a: string, b: string) {
    a == [] || Letter(a[|a| - 1]) || b == [] || !WordChar(b[0])
  }

  lemma CutNumber(a: string, b: string)
    requires a != [] && Cut(a, b)
    ensures NumberAt(a + b) == NumberAt(a) && PhoneAt(a + b) == PhoneAt(a)
  {
    assert (a + b)[..|a|] == a;
    if NumberAt(a).Some? {
      NumberIsLocal(a, a + b, |a|);
    }
    if NumberAt(a + b).Some? {
      var end := NumberAt(a + b).value;
      assert end <= |a| by {
        assert (a + b)[|a| - 1] == a[|a| - 1];
        assert b != [] ==> (a + b)[|a|] == b[0];
      }
      NumberIsLocal(a + b, a, end);
      if end < |a| {
        assert (a + b)[end] == a[end];
      } else {
        assert !Letter(a[|a| - 1]);
        assert b != [] ==> (a + b)[end] == b[0];
      }
    }
  }

  lemma CutRest(a: string, b: string, n: nat)
    requires Cut(a, b) && n <= |a|
    ensures Cut(a[n..], b) && (a + b)[n..] == a[n..] + b
  {
  }

  lemma {:induction false} CutMask(a: string, b: string)
    requires Cut(a, b)
    ensures MaskPhone(a + b) == MaskPhone(a) + MaskPhone(b)
    decreases |a|
  {
    if a == [] {
      assert a + b == b;
    } else {
      CutNumber(a, b);
      var n := if PhoneAt(a).Some? then PhoneAt(a).value else 1;
      CutRest(a, b, n);
      CutMask(a[n..], b);
      assert (a + b)[..n] == a[..n];
      var front := if PhoneAt(a).Some? then Starred(a[..n]) else [a[0]];
      ConcatAssociative(front, MaskPhone(a[n..]), MaskPhone(b));
    }
  }

  lemma {:induction false} CutNext(a: string, b: string)
    requires Cut(a, b)
    ensures NextPhone(a).Some? ==> NextPhone(a + b) == NextPhone(a)
    ensures NextPhone(a).None? && NextPhone(a + b).Some? ==> NextPhone(a + b).value >= |a|
  {
    if a == [] {
    } else {
      CutNumber(a, b);
      CutRest(a, b, 1);
      CutNext(a[1..], b);
    }
  }

  lemma CutFused(a: string, b: string)
    requires a != [] && Cut(a, b)
    ensures Fused(a + b) <==> Fused(a)
  {
    CutNumber(a, b);
    CutNext(a, b);
  }

  /** What is fused is fused on one side. */
  lemma {:induction false} CutFuses(a: string, b: string)
    requires Cut(a, b)
    ensures Fuses(a + b) <==> Fuses(a) || Fuses(b)
    decreases |a|
  {
    if a == [] {
      assert a + b == b;
    } else {
      CutNumber(a, b);
      CutFused(a, b);
      var n := if PhoneAt(a).Some? then PhoneAt(a).value else 1;
      CutRest(a, b, n);
      CutFuses(a[n..], b);
    }
  }

  lemma UnmatchedHead(t: string)
    requires t != [] && EmailAt(t).None?
    ensures MaskEmail(t) == [t[0]] + MaskEmail(t[1..])
    ensures Local(t[0]) ==> EmailAt(t[1..]).None? && Run(Local, t) == 1 + Run(Local, t[1..])
  {
    EmailAtStep(t);
  }

  /** Outside an address the mask keeps a run of local characters and what stands behind it. */
  lemma {:induction false} RunIsKept(t: string)
    requires EmailAt(t).None?
    ensures var n := Run(Local, t);
      && MaskEmail(t) == t[..n] + MaskEmail(t[n..])
      && (n < |t| ==> MaskEmail(t[n..]) != [] && MaskEmail(t[n..])[0] == t[n])
      && (n == |t| ==> MaskEmail(t[n..]) == [])
  {
    var n := Run(Local, t);
    assert t[0..] == t && t[..0] == [];
    if t == [] {
    } else {
      UnmatchedHead(t);
    }
    if n > 0 {
      hide Run, EmailAt, MaskEmail, Local;
      var r := t[1..];
      RunIsKept(r);
      assert r[n - 1..] == t[n..] && [t[0]] + r[..n - 1] == t[..n];
      ConcatAssociative([t[0]], r[..n - 1], MaskEmail(t[n..]));
    }
  }

  predicate NoLocalFirst(b: string) {
    b != [] ==> !Local(b[0])
  }

  /** So the text and its mask are that run, cut off from what follows. */
  lemma RunIsCut(t: string) returns (a: string, b: string, c: string)
    requires EmailAt(t).None?
    ensures a == t[..Run(Local, t)] && b == t[Run(Local, t)..] && c == MaskEmail(b)
    ensures t == a + b && MaskEmail(t) == a + c
    ensures Cut(a, b) && NoLocalFirst(b) && Cut(a, c) && NoLocalFirst(c)
  {
    RunIsKept(t);
    hide MaskEmail, EmailAt;
    var n := Run(Local, t);
    a, b, c := t[..n], t[n..], MaskEmail(t[n..]);
    assert n < |t| ==> b[0] == t[n];
  }

  // ---------------------------------------------------------------------
  // Addresses that both masks leave
  // ---------------------------------------------------------------------

  lemma {:induction false} TailCut(u: string, v: string)
    requires v != [] ==> !Domain(v[0])
    ensures Tail(u + v) <==> Tail(u)
  {
    if u == [] {
      assert u + v == v;
    } else {
      assert (u + v)[1..] == u[1..] + v;
      TailCut(u[1..], v);
      assert DotAt(u + v, 0) <==> DotAt(u, 0);
    }
  }

  lemma DomainCut(u: string, v: string)
    requires v != [] ==> !Domain(v[0])
    ensures DomainOk(u + v) <==> DomainOk(u)
  {
    if u == [] {
      assert u + v == v;
    } else {
      assert (u + v)[1..] == u[1..] + v;
      TailCut(u[1..], v);
    }
  }

  lemma MaskedDomainCut(a: string, b: string)
    requires Cut(a, b) && NoLocalFirst(b)
    ensures DomainOk(MaskPhone(a + b)) <==> DomainOk(MaskPhone(a))
  {
    CutMask(a, b);
    if b != [] {
      FirstCharStays(b);
    }
    DomainCut(MaskPhone(a), MaskPhone(b));
  }

  lemma StarsEndDomain(y: string)
    requires |y| >= 2 && y[1] == '*'
    ensures !DomainOk(MaskPhone(y))
  {
    NoNumberAcross(y, 1);
    FirstCharStays(y[1..]);
    assert MaskPhone(y)[1..] == MaskPhone(y[1..]);
  }

  lemma SameDomain(a: string, b: string, c: string)
    requires Cut(a, b) && NoLocalFirst(b) && Cut(a, c) && NoLocalFirst(c)
    ensures DomainOk(MaskPhone(a + b)) <==> DomainOk(MaskPhone(a + c))
  {
    hide *;
    MaskedDomainCut(a, b);
    MaskedDomainCut(a, c);
  }

  lemma OutsideAddress(d: string)
    requires EmailAt(d).None?
    ensures DomainOk(MaskPhone(MaskEmail(d))) <==> DomainOk(MaskPhone(d))
  {
    hide *;
    var a, b, c := RunIsCut(d);
    SameDomain(a, b, c);
  }

  /** A domain survives both masks if it survives the second, unless it is itself taken for a local part. */
  lemma DomainAfterBoth(d: string)
    ensures DomainOk(MaskPhone(MaskEmail(d))) <==> DomainOk(MaskPhone(d)) && EmailAt(d).None?
  {
    if EmailAt(d).Some? {
      hide MaskPhone, DomainOk;
      StarsEndDomain(MaskEmail(d));
    } else {
      OutsideAddress(d);
    }
  }

  /** A match ends right in front of an '@' whose domain neither mask breaks. */
  predicate ChainKept(rest: string) {
    rest != [] && rest[0] == '@' && EmailAt(rest[1..]).None? && DomainOk(MaskPhone(rest[1..]))
  }

  predicate ChainsKept(t: string)
    decreases |t|
  {
    if t == [] then false
    else
      var m := EmailAt(t);
      if m.Some? then ChainKept(t[m.value.end..]) || ChainsKept(t[m.value.end..]) else ChainsKept(t[1..])
  }

  lemma AtFirstAfterBoth(rest: string)
    ensures MaskEmail(rest) != [] && MaskEmail(rest)[0] == '@' && DomainOk(MaskPhone(MaskEmail(rest)[1..])) <==>
      ChainKept(rest)
  {
    if rest != [] {
      if rest[0] == '@' {
        AtSignStays(rest);
        DomainAfterBoth(rest[1..]);
        assert MaskEmail(rest)[1..] == MaskEmail(rest[1..]);
      } else {
        assert MaskEmail(rest)[0] == rest[0];
      }
    }
  }

  lemma MatchedKeeps(t: string)
    requires EmailAt(t).Some?
    ensures var rest := t[EmailAt(t).value.end..];
      KeepsEmail(MaskEmail(t)) <==> KeepsEmail(MaskEmail(rest)) || ChainKept(rest)
  {
    hide EmailAt, MaskEmail, ChainKept, DomainOk, MaskPhone;
    var m := EmailAt(t).value;
    var r := MaskEmail(t[m.end..]);
    var domain := t[m.at + 1..m.end];
    MatchSpan(t);
    MatchEnd(t);
    MatchStart(t);
    MaskOfMatch(t);
    PlainPrefixKeeps([t[0], '*', '*', '*'], ['@'] + (domain + r));
    assert (['@'] + (domain + r))[1..] == domain + r;
    assert domain[|domain| - 1] == t[m.end - 1];
    PlainPrefixKeeps(domain, r);
    AtFirstAfterBoth(t[m.end..]);
  }

  lemma UnmatchedKeeps(t: string)
    requires t != [] && EmailAt(t).None?
    ensures KeepsEmail(MaskEmail(t)) <==> KeepsEmail(MaskEmail(t[1..]))
  {
    var y := MaskEmail(t);
    assert y[1..] == MaskEmail(t[1..]);
    EmailAtStep(t);
    AtFirstAfterBoth(t[1..]);
    if |y| >= 2 {
      assert y[2..] == MaskEmail(t[1..])[1..];
      assert t[1..][1..] == t[2..];
      if KeptAt(y) {
        DomainOfMasked(t[2..]);
      }
    }
  }

  lemma {:induction false} ChainsKeptIff(t: string)
    ensures KeepsEmail(MaskEmail(t)) <==> ChainsKept(t)
    decreases |t|
  {
    if t == [] {
    } else {
      if EmailAt(t).Some? {
        MatchedKeeps(t);
        ChainsKeptIff(t[EmailAt(t).value.end..]);
      } else {
        UnmatchedKeeps(t);
        ChainsKeptIff(t[1..]);
      }
    }
  }

  // ---------------------------------------------------------------------
  // Numbers that both masks leave
  // ---------------------------------------------------------------------

  /** How far the text is kept as it is, from a place where no address starts. */
  function Kept(t: string): (n: nat)
    requires t != []
    ensures 0 < n <= |t|
  {
    if Run(Local, t) == 0 then 1 else Run(Local, t)
  }

  /** Some piece that the mask of addresses keeps, a domain or a run outside addresses, holds a fused number. */
  predicate PieceFuses(t: string)
    decreases |t|
  {
    if t == [] then false
    else
      var m := EmailAt(t);
      if m.Some? then Fuses(t[m.value.at + 1..m.value.end]) || PieceFuses(t[m.value.end..])
      else Fuses(t[..Kept(t)]) || PieceFuses(t[Kept(t)..])
  }

  lemma FusesPast(y: string)
    requires y != [] && NumberAt(y).None?
    ensures Fuses(y) <==> Fuses(y[1..])
  {
  }

  lemma StarredFuses(c: char, x: string)
    ensures Fuses([c, '*', '*', '*'] + (['@'] + x)) <==> Fuses(x)
  {
    var y := [c, '*', '*', '*'] + (['@'] + x);
    assert y[1] == '*' && y[1..][0] == '*' && y[2..][0] == '*' && y[3..][0] == '*' && y[4..][0] == '@';
    NoNumberAcross(y, 1);
    assert y[1..][1..] == y[2..] && y[2..][1..] == y[3..] && y[3..][1..] == y[4..] && y[4..][1..] == x;
    FusesPast(y);
    FusesPast(y[1..]);
    FusesPast(y[2..]);
    FusesPast(y[3..]);
    FusesPast(y[4..]);
  }

  lemma MatchedFuses(t: string)
    requires EmailAt(t).Some?
    ensures var m := EmailAt(t).value;
      Fuses(MaskEmail(t)) <==> Fuses(t[m.at + 1..m.end]) || Fuses(MaskEmail(t[m.end..]))
  {
    MatchEnd(t);
    MaskOfMatch(t);
    hide EmailAt, MaskEmail, Fuses;
    var m := EmailAt(t).value;
    var domain, r := t[m.at + 1..m.end], MaskEmail(t[m.end..]);
    StarredFuses(t[0], domain + r);
    assert domain[|domain| - 1] == t[m.end - 1];
    CutFuses(domain, r);
  }

  lemma FirstFuses(t: string)
    requires t != [] && !Local(t[0])
    ensures Fuses(MaskEmail(t)) <==> Fuses(t[..1]) || Fuses(MaskEmail(t[1..]))
  {
    assert Run(Local, t) == 0;
    UnmatchedHead(t);
    hide MaskEmail, EmailAt, Run;
    var y := MaskEmail(t);
    assert y[1..] == MaskEmail(t[1..]) && t[..1][1..] == [];
    FusesPast(y);
    FusesPast(t[..1]);
  }

  lemma UnmatchedFuses(t: string)
    requires t != [] && EmailAt(t).None?
    ensures Fuses(MaskEmail(t)) <==> Fuses(t[..Kept(t)]) || Fuses(MaskEmail(t[Kept(t)..]))
  {
    var n := Run(Local, t);
    if n == 0 {
      FirstFuses(t);
    } else {
      var a, _, c := RunIsCut(t);
      hide MaskEmail, EmailAt, Fuses, Cut, Run;
      CutFuses(a, c);
    }
  }

  lemma {:induction false} PieceFusesIff(t: string)
    ensures Fuses(MaskEmail(t)) <==> PieceFuses(t)
    decreases |t|
  {
    if t == [] {
    } else {
      if EmailAt(t).Some? {
        MatchedFuses(t);
        PieceFusesIff(t[EmailAt(t).value.end..]);
      } else {
        UnmatchedFuses(t);
        PieceFusesIff(t[Kept(t)..]);
      }
    }
  }

  // ---------------------------------------------------------------------
  // Masking addresses moves no number into a word
  // ---------------------------------------------------------------------

  lemma NoNewNumber(t: string)
    requires EmailAt(t).None? && PhoneAt(MaskEmail(t)).Some?
    ensures PhoneAt(t).Some?
  {
    hide MaskEmail, EmailAt, Cut;
    var a, b, c := RunIsCut(t);
    if a == [] {
      assert a + c == c;
    } else {
      CutNumber(a, b);
      CutNumber(a, c);
    }
  }

  lemma NumberInA(a: string, b: string, c: string)
    requires a != [] && Letter(a[|a| - 1]) && PhoneAt(a + b).Some?
    ensures PhoneAt(a + c).Some?
  {
    var end := PhoneAt(a + b).value;
    assert end < |a| by {
      assert (a + b)[|a| - 1] == a[|a| - 1];
    }
    assert (a + b)[..|a|] == a == (a + c)[..|a|];
    NumberIsLocal(a + b, a + c, |a|);
    assert (a + b)[end] == a[end] == (a + c)[end];
  }

  /** A text that ends in a letter keeps its numbers to itself. */
  lemma {:induction false} BehindLetters(inWord: bool, a: string, b: string, c: string)
    requires a != [] && Letter(a[|a| - 1]) && StartsWords(inWord, a + b)
    requires StartsWords(true, b) ==> StartsWords(true, c)
    ensures StartsWords(inWord, a + c)
    decreases |a|
  {
    assert (a + b)[1..] == a[1..] + b && (a + c)[1..] == a[1..] + c;
    if PhoneAt(a + c).Some? {
      NumberInA(a, c, b);
    }
    if |a| == 1 {
      assert a[1..] + b == b && a[1..] + c == c;
    } else {
      BehindLetters(WordChar(a[0]), a[1..], b, c);
    }
  }

  lemma StarredStart(inWord: bool, c: char, x: string)
    requires StartsWords(false, x)
    ensures StartsWords(inWord, [c, '*', '*', '*'] + (['@'] + x))
  {
    var y := [c, '*', '*', '*'] + (['@'] + x);
    assert y[1] == '*' && y[1..][0] == '*' && y[2..][0] == '*' && y[3..][0] == '*' && y[4..][0] == '@';
    NoNumberAcross(y, 1);
    assert y[1..][1..] == y[2..] && y[2..][1..] == y[3..] && y[3..][1..] == y[4..] && y[4..][1..] == x;
    assert StartsWords(false, y[4..]);
    assert StartsWords(false, y[3..]);
    assert StartsWords(false, y[2..]);
    assert StartsWords(WordChar(c), y[1..]);
  }

  lemma DomainStartsWords(inWord: bool, t: string)
    requires EmailAt(t).Some? && StartsWords(inWord, t)
    ensures var m := EmailAt(t).value; StartsWords(false, t[m.at + 1..m.end] + t[m.end..])
  {
    hide EmailAt, StartsWords;
    var m := EmailAt(t).value;
    RestStartsWords(inWord, t, m.at + 1);
    assert t[m.at + 1..] == t[m.at + 1..m.end] + t[m.end..];
  }

  lemma MatchedWords(inWord: bool, t: string, rest: string)
    requires EmailAt(t).Some? && rest == t[EmailAt(t).value.end..] && StartsWords(inWord, t)
    requires StartsWords(true, rest) ==> StartsWords(true, MaskEmail(rest))
    ensures StartsWords(inWord, MaskEmail(t))
  {
    MatchEnd(t);
    hide EmailAt, MaskEmail, StartsWords;
    var m := EmailAt(t).value;
    var domain := t[m.at + 1..m.end];
    DomainStartsWords(inWord, t);
    assert domain[|domain| - 1] == t[m.end - 1];
    BehindLetters(false, domain, rest, MaskEmail(rest));
    StarredStart(inWord, t[0], domain + MaskEmail(rest));
    MaskOfMatch(t);
  }

  lemma {:induction false} WordsAfterMask(inWord: bool, t: string)
    requires StartsWords(inWord, t)
    ensures StartsWords(inWord, MaskEmail(t))
    decreases |t|
  {
    if t == [] {
    } else {
      if EmailAt(t).Some? {
        var rest := t[EmailAt(t).value.end..];
        if StartsWords(true, rest) {
          WordsAfterMask(true, rest);
        }
        MatchedWords(inWord, t, rest);
      } else {
        WordsAfterMask(WordChar(t[0]), t[1..]);
        assert MaskEmail(t)[1..] == MaskEmail(t[1..]);
        if PhoneAt(MaskEmail(t)).Some? {
          NoNewNumber(t);
        }
      }
    }
  }

  // ---------------------------------------------------------------------
  // Both
  // ---------------------------------------------------------------------

  /** What is left after both masks, read off the text: a number if and only if some piece that the mask of
      addresses keeps holds a fused one, an address if and only if two were chained and the second's domain is broken
      by neither mask. */
  lemma WhatMaskPiiLeaves(t: string)
    ensures HasPhone(MaskPii(t)) <==> PieceFuses(t)
    ensures HasEmail(MaskPii(t)) <==> ChainsKept(t)
  {
    MaskLeavesNumberIff(MaskEmail(t));
    PieceFusesIff(t);
    KeepsEmailIff(MaskEmail(t));
    ChainsKeptIff(t);
  }

  /** In particular two addresses are chained in it. */
  lemma {:induction false} KeptIsChained(t: string)
    requires ChainsKept(t)
    ensures Chains(t)
    decreases |t|
  {
    if EmailAt(t).Some? {
      var rest := t[EmailAt(t).value.end..];
      if ChainKept(rest) {
        DomainOfMasked(rest[1..]);
      } else {
        KeptIsChained(rest);
      }
    } else {
      KeptIsChained(t[1..]);
    }
  }

  /** If no word has two '@' and every number starts its word or with a '+', the masked text matches
      neither pattern and masking it again changes nothing. */
  lemma MaskPiiLeavesNothing(t: string)
    requires OneAtPerWord(t) && NumbersStartWords(t)
    ensures !HasEmail(MaskPii(t)) && !HasPhone(MaskPii(t)) && MaskPii(MaskPii(t)) == MaskPii(t)
  {
    OneAtPerWordMeansNoChain(t);
    FromPlaces(false, t);
    WordsAfterMask(false, t);
    StartsWordsMeansNoFuse(false, MaskEmail(t));
    PieceFusesIff(t);
    WhatMaskPiiLeaves(t);
    if ChainsKept(t) {
      KeptIsChained(t);
    }
    MaskEmailIdentity(MaskPii(t));
    MaskPhoneIdentity(MaskPii(t));
  }
}
