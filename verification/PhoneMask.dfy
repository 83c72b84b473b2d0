/** Masking of Saudi mobile numbers in log text (packages/observability/src/piiMask.ts:10, :21-23). */
module PhoneMask {
  import opened Prelude
  import opened EmailMask

  /** `\w`, for the boundary at the end of the pattern. */
  predicate WordChar(c: char) {
    Letter(c) || Digit(c) || c == '_'
  }

  /** `\+?966|0`: the length of what it matches at the start, 0 for nothing. */
  function PrefixLength(t: string): nat {
    if |t| >= 4 && t[0] == '+' && t[1] == '9' && t[2] == '6' && t[3] == '6' then 4
    else if |t| >= 3 && t[0] == '9' && t[1] == '6' && t[2] == '6' then 3
    else if |t| >= 1 && t[0] == '0' then 1
    else 0
  }

  predicate Digits(t: string, from: nat, to: nat) {
    from <= to <= |t| && forall i :: from <= i < to ==> Digit(t[i])
  }

  /** The length of the number at the start, before the boundary is looked at. */
  function NumberAt(t: string): (r: Option<nat>)
    ensures r.Some? ==> 10 <= r.value <= |t|
    ensures r.Some? ==> forall i :: 0 <= i < r.value ==> Digit(t[i]) || (i == 0 && t[i] == '+')
  {
    var n := PrefixLength(t);
    if n > 0 && Digits(t, n, n + 9) && t[n] == '5' then Some(n + 9) else None
  }

  function PhoneAt(t: string): Option<nat> {
    var end := NumberAt(t);
    if end.Some? && (end.value == |t| || !WordChar(t[end.value])) then end else None
  }

  /** `${match.slice(0, 4)}***${match.slice(-2)}`. */
  function Starred(number: string): string
    requires |number| >= 4
  {
    number[..4] + "***" + number[|number| - 2..]
  }

  function MaskPhone(t: string): string
    decreases |t|
  {
    if t == [] then []
    else
      var end := PhoneAt(t);
      if end.Some? then Starred(t[..end.value]) + MaskPhone(t[end.value..])
      else [t[0]] + MaskPhone(t[1..])
  }

  predicate HasPhone(t: string) {
    t != [] && (PhoneAt(t).Some? || HasPhone(t[1..]))
  }

  // ---------------------------------------------------------------------
  // What masking leaves
  // ---------------------------------------------------------------------

  /** Where the first match starts. */
  function NextPhone(t: string): Option<nat> {
    if t == [] then None
    else if PhoneAt(t).Some? then Some(0)
    else
      var next := NextPhone(t[1..]);
      if next.None? then None else Some(next.value + 1)
  }

  /** The text starts with a number that lacks only a boundary, and gets one when the next match's
      fifth character is starred out. */
  predicate Fused(t: string) {
    NextPhone(t).Some? && NumberAt(t) == Some(NextPhone(t).value + 4)
  }

  predicate Fuses(t: string)
    decreases |t|
  {
    if t == [] then false
    else
      var end := PhoneAt(t);
      if end.Some? then Fuses(t[end.value..]) else Fused(t) || Fuses(t[1..])
  }

  /** A number is there or not whatever stands behind it. */
  lemma NumberIsLocal(a: string, b: string, n: nat)
    requires n <= |a| && n <= |b| && a[..n] == b[..n]
    requires NumberAt(a).Some? && NumberAt(a).value <= n
    ensures NumberAt(b) == NumberAt(a)
  {
    assert forall i :: 0 <= i < n ==> a[i] == a[..n][i] == b[i];
  }

  lemma NoNumberAcross(t: string, k: nat)
    requires 0 < k < |t| && !Digit(t[k]) && k < 10
    ensures NumberAt(t).None?
  {
  }

  lemma {:induction false} FirstCharStays(t: string)
    requires t != []
    ensures MaskPhone(t) != [] && MaskPhone(t)[0] == t[0]
  {
  }

  lemma {:induction false} NothingToMask(t: string)
    requires NextPhone(t).None?
    ensures MaskPhone(t) == t
  {
    if t == [] {
    } else {
      NothingToMask(t[1..]);
    }
  }

  lemma MaskedMatch(t: string)
    requires PhoneAt(t).Some?
    ensures 4 < |t| && Digit(t[4]) && 4 < |MaskPhone(t)| && MaskPhone(t)[4] == '*' && MaskPhone(t)[..4] == t[..4]
  {
  }

  /** The text is kept up to the fourth character of the first match; then comes a star. */
  lemma {:induction false} MaskedAtTheNext(t: string)
    requires NextPhone(t).Some?
    ensures var n := NextPhone(t).value + 4;
      n < |t| && Digit(t[n]) && n < |MaskPhone(t)| && MaskPhone(t)[n] == '*' && MaskPhone(t)[..n] == t[..n]
  {
    hide NumberAt, PhoneAt;
    if PhoneAt(t).Some? {
      MaskedMatch(t);
    } else {
      var r, n := t[1..], NextPhone(t).value + 4;
      MaskedAtTheNext(r);
      assert t[..n] == [t[0]] + r[..n - 1];
      assert MaskPhone(t)[..n] == [t[0]] + MaskPhone(r)[..n - 1];
    }
  }

  lemma UnmatchedPart(t: string)
    requires t != [] && PhoneAt(t).None?
    ensures PhoneAt(MaskPhone(t)).Some? <==> Fused(t)
  {
    var y := MaskPhone(t);
    if NextPhone(t).None? {
      NothingToMask(t);
    } else {
      MaskedAtTheNext(t);
      var n := NextPhone(t).value + 4;
      if NumberAt(t).Some? && NumberAt(t).value <= n {
        NumberIsLocal(t, y, n);
      }
      if NumberAt(y).Some? {
        assert NumberAt(y).value <= n by {
          assert !Digit(y[n]);
        }
        NumberIsLocal(y, t, n);
        assert NumberAt(y).value < n ==> y[NumberAt(y).value] == y[..n][NumberAt(y).value] == t[NumberAt(y).value];
      }
    }
  }

  lemma {:induction false} NoPhoneInPrefix(a: string, b: string)
    requires forall i :: 0 <= i < |a| ==> NumberAt(a[i..] + b).None?
    ensures HasPhone(a + b) <==> HasPhone(b)
  {
    if a == [] {
      assert a + b == b;
    } else {
      assert a[0..] + b == a + b;
      assert (a + b)[1..] == a[1..] + b;
      assert forall i :: 0 <= i < |a[1..]| ==> a[1..][i..] == a[i + 1..];
      NoPhoneInPrefix(a[1..], b);
    }
  }

  lemma MatchedPart(t: string)
    requires PhoneAt(t).Some?
    ensures HasPhone(MaskPhone(t)) <==> HasPhone(MaskPhone(t[PhoneAt(t).value..]))
  {
    var end := PhoneAt(t).value;
    var a, rest := Starred(t[..end]), t[end..];
    var b := MaskPhone(rest);
    assert b != [] ==> b[0] == rest[0] && !WordChar(b[0]) by {
      if rest != [] {
        FirstCharStays(rest);
      }
    }
    forall i | 0 <= i < |a| ensures NumberAt(a[i..] + b).None? {
      var w := a[i..] + b;
      if i < 4 {
        assert w[4 - i] == a[4] == '*';
        NoNumberAcross(w, 4 - i);
      } else if i < 7 {
        assert w[0] == a[i] == '*';
      } else if b != [] {
        assert w[9 - i] == b[0];
        NoNumberAcross(w, 9 - i);
      }
    }
    NoPhoneInPrefix(a, b);
  }

  /** The masked text still holds a number if and only if a match in the original is fused to a longer
      run of digits before it, as in `0512340501234567`. */
  lemma {:induction false} MaskLeavesNumberIff(t: string)
    ensures HasPhone(MaskPhone(t)) <==> Fuses(t)
    decreases |t|
  {
    if t == [] {
    } else {
      if PhoneAt(t).Some? {
        MatchedPart(t);
        MaskLeavesNumberIff(t[PhoneAt(t).value..]);
      } else {
        UnmatchedPart(t);
        MaskLeavesNumberIff(t[1..]);
        assert MaskPhone(t)[1..] == MaskPhone(t[1..]);
      }
    }
  }

  lemma {:induction false} MaskPhoneIdentity(t: string)
    requires !HasPhone(t)
    ensures MaskPhone(t) == t
  {
    if t == [] {
    } else {
      MaskPhoneIdentity(t[1..]);
    }
  }

  lemma {:induction false} MaskingChanges(t: string)
    requires HasPhone(t)
    ensures MaskPhone(t) != t
    decreases |t|
  {
    if PhoneAt(t).Some? {
      assert MaskPhone(t)[4] == '*' && Digit(t[4]);
    } else {
      MaskingChanges(t[1..]);
      assert MaskPhone(t)[1..] == MaskPhone(t[1..]);
    }
  }

  lemma MaskPhoneIdempotentIff(t: string)
    ensures MaskPhone(MaskPhone(t)) == MaskPhone(t) <==> !Fuses(t)
  {
    MaskLeavesNumberIff(t);
    if HasPhone(MaskPhone(t)) {
      MaskingChanges(MaskPhone(t));
    } else {
      MaskPhoneIdentity(MaskPhone(t));
    }
  }

  // ---------------------------------------------------------------------
  // Numbers that start their word
  // ---------------------------------------------------------------------

  /** Every number in the text starts a word or with a '+'. */
  predicate NumbersStartWords(t: string) {
    forall i :: 0 < i < |t| && PhoneAt(t[i..]).Some? && WordChar(t[i - 1]) ==> t[i] == '+'
  }

  /** The same from left to right; `inWord` says whether a word character stands before the text. */
  predicate StartsWords(inWord: bool, t: string)
    decreases |t|
  {
    t != [] ==>
      && (PhoneAt(t).Some? && inWord ==> t[0] == '+')
      && StartsWords(WordChar(t[0]), t[1..])
  }

  lemma {:induction false} FromPlaces(inWord: bool, t: string)
    requires NumbersStartWords(t) && (t != [] && PhoneAt(t).Some? && inWord ==> t[0] == '+')
    ensures StartsWords(inWord, t)
    decreases |t|
  {
    if t == [] {
    } else {
      var r := t[1..];
      assert forall i :: 0 <= i < |r| ==> r[i..] == t[i + 1..];
      assert r != [] ==> r[0..] == r == t[1..] && t[1..][0] == t[1];
      FromPlaces(WordChar(t[0]), r);
    }
  }

  lemma {:induction false} AtPlace(inWord: bool, t: string, i: nat)
    requires StartsWords(inWord, t) && 0 < i < |t| && PhoneAt(t[i..]).Some? && WordChar(t[i - 1])
    ensures t[i] == '+'
    decreases |t|
  {
    assert t[1..][i - 1..] == t[i..];
    if i > 1 {
      AtPlace(WordChar(t[0]), t[1..], i - 1);
    }
  }

  lemma {:induction false} NextIsThere(t: string)
    requires NextPhone(t).Some?
    ensures NextPhone(t).value < |t| && PhoneAt(t[NextPhone(t).value..]).Some?
  {
    if PhoneAt(t).Some? {
      assert t[0..] == t;
    } else {
      NextIsThere(t[1..]);
      assert t[1..][NextPhone(t).value - 1..] == t[NextPhone(t).value..];
    }
  }

  lemma {:induction false} RestStartsWords(inWord: bool, t: string, n: nat)
    requires StartsWords(inWord, t) && n <= |t|
    ensures StartsWords(if n == 0 then inWord else WordChar(t[n - 1]), t[n..])
    decreases |t|
  {
    if n > 0 {
      assert t[1..][n - 1..] == t[n..];
      RestStartsWords(WordChar(t[0]), t[1..], n - 1);
    }
  }

  /** A condition on places alone that rules fusing out. */
  lemma {:induction false} StartsWordsMeansNoFuse(inWord: bool, t: string)
    requires StartsWords(inWord, t)
    ensures !Fuses(t)
    decreases |t|
  {
    if t == [] {
    } else {
      if PhoneAt(t).Some? {
        var end := PhoneAt(t).value;
        RestStartsWords(inWord, t, end);
        StartsWordsMeansNoFuse(WordChar(t[end - 1]), t[end..]);
      } else {
        StartsWordsMeansNoFuse(WordChar(t[0]), t[1..]);
        if Fused(t) {
          var m := NextPhone(t).value;
          NextIsThere(t);
          AtPlace(inWord, t, m);
        }
      }
    }
  }

  /** The condition matters. */
  lemma NumberInsideDigits(t: string)
    requires t == "0512340501234567"
    ensures HasPhone(MaskPhone(t))
  {
    assert NumberAt(t) == Some(10) && PhoneAt(t).None?;
    NextPhoneIs(t, 6);
    MaskLeavesNumberIff(t);
  }

  lemma {:induction false} NextPhoneIs(t: string, n: nat)
    requires n < |t| && PhoneAt(t[n..]).Some? && forall i :: 0 <= i < n ==> PhoneAt(t[i..]).None?
    ensures NextPhone(t) == Some(n)
  {
    assert t[0..] == t;
    if n > 0 {
      var r := t[1..];
      assert forall i :: 0 <= i < n ==> r[i..] == t[i + 1..];
      NextPhoneIs(r, n - 1);
    }
  }
}
