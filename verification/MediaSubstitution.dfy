/** Late substitution of a media id into a request body
    (apps/driver/lib/actionQueue.ts, `substitute` and `QUEUED_MEDIA`). */
module MediaSubstitution {
  import opened Prelude

  const QUEUED_MEDIA: string := "__ps-queued-media__"

  /** What stands between the placeholder's two pairs of underscores. */
  const STEM: string := "ps-queued-media"

  /** A JSON value. An object is its entries in order. */
  datatype Json =
    | Null
    | Bool(flag: bool)
    | Number(number: real)
    | Str(text: string)
    | Arr(items: seq<Json>)
    | Obj(fields: seq<Field>)

  datatype Field = Field(key: string, value: Json)

  // ---------------------------------------------------------------------
  // String.prototype.split and Array.prototype.join
  // ---------------------------------------------------------------------

  /** The first index at which `sep` occurs in `s`, scanning from `from`. */
  function IndexOf(s: string, sep: string, from: nat := 0): (r: Option<nat>)
    ensures r.Some? ==> from <= r.value && OccursAt(s, sep, r.value)
    ensures forall i :: from <= i < (if r.Some? then r.value else |s| + 1) ==> !OccursAt(s, sep, i)
    decreases |s| - from
  {
    if from + |sep| > |s| then None
    else if OccursAt(s, sep, from) then Some(from)
    else IndexOf(s, sep, from + 1)
  }

  function Split(s: string, sep: string): (parts: seq<string>)
    ensures sep != "" ==> parts != []
    decreases |s|
  {
    if sep == "" then
      seq(|s|, i requires 0 <= i < |s| => [s[i]])
    else
      match IndexOf(s, sep)
      case None => [s]
      case Some(k) => [s[..k]] + Split(s[k + |sep|..], sep)
  }

  function Join(parts: seq<string>, glue: string): string {
    if parts == [] then ""
    else if |parts| == 1 then parts[0]
    else parts[0] + glue + Join(parts[1..], glue)
  }

  function ReplaceAll(s: string, placeholder: string, value: string): string {
    Join(Split(s, placeholder), value)
  }

  function Substitute(node: Json, placeholder: string, value: string): Json {
    match node
    case Str(text) => Str(ReplaceAll(text, placeholder, value))
    case Arr(items) =>
      Arr(seq(|items|, i requires 0 <= i < |items| => Substitute(items[i], placeholder, value)))
    case Obj(fields) =>
      Obj(seq(|fields|, i requires 0 <= i < |fields| =>
        Field(fields[i].key, Substitute(fields[i].value, placeholder, value))))
    case _ => node
  }

  // ---------------------------------------------------------------------
  // Strings
  // ---------------------------------------------------------------------

  lemma JoinCons(first: string, rest: seq<string>, glue: string)
    requires rest != []
    ensures Join([first] + rest, glue) == first + glue + Join(rest, glue)
  {
    assert ([first] + rest)[1..] == rest;
  }

  /** Split-and-join rewrites the text around the first occurrence and goes on behind it. */
  lemma ReplaceUnfolds(s: string, p: string, v: string, k: nat)
    requires p != "" && IndexOf(s, p) == Some(k)
    ensures ReplaceAll(s, p, v) == s[..k] + v + ReplaceAll(s[k + |p|..], p, v)
  {
    hide IndexOf, Contains;
    JoinCons(s[..k], Split(s[k + |p|..], p), v);
  }

  /** A text without the placeholder is left alone. */
  lemma ReplaceIdentity(s: string, p: string, v: string)
    requires p != "" && !Contains(s, p)
    ensures ReplaceAll(s, p, v) == s
  {
    assert forall i :: 0 <= i <= |s| ==> !OccursAt(s, p, i);
    assert IndexOf(s, p).None?;
    assert Split(s, p) == [s];
  }

  lemma PlaceholderShape()
    ensures QUEUED_MEDIA == "__" + STEM + "__"
    ensures |QUEUED_MEDIA| == 19 && |STEM| == 15
    ensures '_' !in STEM
    ensures forall k :: 0 <= k < |QUEUED_MEDIA| ==> (QUEUED_MEDIA[k] == '_' <==> k < 2 || k >= 17)
  {
  }

  /** Underscores stand alone and inside. Object keys such as `pod_photo-<uuid>` are of this form. */
  predicate Plain(v: string) {
    && (v != "" ==> v[0] != '_' && v[|v| - 1] != '_')
    && forall i :: 0 < i < |v| ==> v[i - 1] != '_' || v[i] != '_'
  }

  /** One different character is enough to rule an occurrence out. */
  lemma Differs(s: string, p: string, i: int, k: nat)
    requires k < |p|
    requires 0 <= i && i + |p| <= |s| ==> s[i + k] != p[k]
    ensures !OccursAt(s, p, i)
  {
    if 0 <= i <= |s| - |p| {
      assert s[i..i + |p|][k] == s[i + k];
    }
  }

  /** A plain piece of the placeholder is a piece of its stem. */
  lemma ValueInsideStem(v: string, lo: nat)
    requires lo + |v| <= |QUEUED_MEDIA| && QUEUED_MEDIA[lo..lo + |v|] == v
    requires Plain(v)
    ensures Contains(STEM, v)
  {
    PlaceholderShape();
    if v == "" {
      assert OccursAt(STEM, v, 0);
    } else {
      assert v[0] == QUEUED_MEDIA[lo] && v[|v| - 1] == QUEUED_MEDIA[lo + |v| - 1];
      assert 2 <= lo && lo + |v| <= 17;
      assert STEM == QUEUED_MEDIA[2..17];
      assert OccursAt(STEM, v, lo - 2);
    }
  }

  /** The heart of the safety argument: an occurrence in the output that touches a copied
      value would put a piece of the placeholder inside that value. */
  lemma NoStraddle(head: string, v: string, tail: string, i: nat)
    requires Plain(v) && !Contains(STEM, v)
    requires i < |head| + |v|
    requires |head| < i + |QUEUED_MEDIA|
    ensures !OccursAt(head + v + tail, QUEUED_MEDIA, i)
  {
    var p := QUEUED_MEDIA;
    var out := head + v + tail;
    PlaceholderShape();
    if |head| <= i {
      var d := i - |head|;
      assert out[i] == v[d];
      if v[d] == '_' {
        assert v[d + 1] != '_' && out[i + 1] == v[d + 1];
        Differs(out, p, i, 1);
      } else {
        Differs(out, p, i, 0);
      }
    } else if i + |p| <= |head| + |v| {
      var e := i + |p| - 1 - |head|;
      assert out[i + |p| - 1] == v[e];
      if v[e] == '_' {
        assert v[e - 1] != '_' && out[i + |p| - 2] == v[e - 1];
        Differs(out, p, i, |p| - 2);
      } else {
        Differs(out, p, i, |p| - 1);
      }
    } else {
      var lo := |head| - i;
      if p[lo..lo + |v|] == v {
        ValueInsideStem(v, lo);
        assert false;
      } else {
        var k :| 0 <= k < |v| && p[lo..lo + |v|][k] != v[k];
        assert out[i + (lo + k)] == v[k];
        Differs(out, p, i, lo + k);
      }
    }
  }

  lemma {:induction false} ReplaceLeavesNone(s: string, v: string)
    requires Plain(v) && !Contains(STEM, v)
    ensures !Contains(ReplaceAll(s, QUEUED_MEDIA, v), QUEUED_MEDIA)
    decreases |s|
  {
    var p := QUEUED_MEDIA;
    match IndexOf(s, p)
    case None =>
      assert Split(s, p) == [s];
    case Some(k) =>
      var tail := ReplaceAll(s[k + |p|..], p, v);
      ReplaceLeavesNone(s[k + |p|..], v);
      ReplaceUnfolds(s, p, v, k);
      var out := s[..k] + v + tail;
      forall i | 0 <= i <= |out| ensures !OccursAt(out, p, i) {
        if i + |p| > k && i < k + |v| {
          NoStraddle(s[..k], v, tail, i);
        } else {
          OutsideTheValue(s, k, v, tail, p, i);
        }
      }
  }

  /** In front of the value the output is the input, behind it the rest of the output. */
  lemma OutsideTheValue(s: string, k: nat, v: string, tail: string, p: string, i: nat)
    requires k <= |s| && (i + |p| <= k || k + |v| <= i)
    requires i + |p| <= k ==> !OccursAt(s, p, i)
    requires !Contains(tail, p)
    ensures !OccursAt(s[..k] + v + tail, p, i)
  {
    var out := s[..k] + v + tail;
    if i + |p| <= k {
      assert out[i..i + |p|] == s[i..i + |p|];
    } else {
      var j := i - k - |v|;
      assert !OccursAt(tail, p, j);
      assert i + |p| <= |out| ==> out[i..i + |p|] == tail[j..j + |p|];
    }
  }

  /** The start of the placeholder up to a stem position, put in front of it, makes no earlier occurrence. */
  lemma NotInFront(s: string, j: nat, i: nat)
    requires j < |STEM| && 2 + j + |QUEUED_MEDIA| <= |s|
    requires forall k :: 0 <= k < 2 + j ==> s[k] == QUEUED_MEDIA[k]
    requires forall k :: 0 <= k < |QUEUED_MEDIA| ==> s[2 + j + k] == QUEUED_MEDIA[k]
    requires i < 2 + j
    ensures !OccursAt(s, QUEUED_MEDIA, i)
  {
    PlaceholderShape();
    var p := QUEUED_MEDIA;
    if i == 0 {
      assert s[2 + j + 0] == p[0];
      Differs(s, p, i, 2 + j);
    } else if i == 1 && j == 0 {
      assert s[2 + j + 1] == p[1];
      Differs(s, p, i, 2);
    } else if i == 1 {
      Differs(s, p, i, 1);
    } else {
      Differs(s, p, i, 0);
    }
  }

  lemma FirstAfterFront(j: nat, rest: string)
    requires j < |STEM|
    ensures IndexOf(QUEUED_MEDIA[..2 + j] + QUEUED_MEDIA + rest, QUEUED_MEDIA) == Some(2 + j)
  {
    var p := QUEUED_MEDIA;
    var s := p[..2 + j] + p + rest;
    assert s[2 + j..2 + j + |p|] == p;
    forall i | 0 <= i < 2 + j ensures !OccursAt(s, p, i) {
      NotInFront(s, j, i);
    }
    assert OccursAt(s, p, 2 + j);
  }

  lemma ReplaceOnlyOccurrence(front: string, p: string, back: string, v: string)
    requires |back| < |p|
    requires IndexOf(front + p + back, p) == Some(|front|)
    ensures ReplaceAll(front + p + back, p, v) == front + v + back
  {
    var s := front + p + back;
    ReplaceUnfolds(s, p, v, |front|);
    assert s[|front| + |p|..] == back && s[..|front|] == front;
    assert forall i :: !OccursAt(back, p, i);
    ReplaceIdentity(back, p, v);
  }

  /** The converse: a value that is a piece of the stem can rebuild the placeholder. */
  lemma StemPieceRebuilds(v: string, j: nat) returns (s: string)
    requires OccursAt(STEM, v, j) && j < |STEM|
    ensures ReplaceAll(s, QUEUED_MEDIA, v) == QUEUED_MEDIA
  {
    PlaceholderShape();
    var p := QUEUED_MEDIA;
    var front, back := p[..2 + j], p[2 + j + |v|..];
    s := front + p + back;
    FirstAfterFront(j, back);
    ReplaceOnlyOccurrence(front, p, back, v);
    PieceInPlace(p, STEM, v, j);
  }

  lemma PieceInPlace(p: string, stem: string, v: string, j: nat)
    requires p == "__" + stem + "__" && OccursAt(stem, v, j)
    ensures p[..2 + j] + v + p[2 + j + |v|..] == p
  {
    assert v == p[2 + j..2 + j + |v|];
  }

  lemma UnsafeText(v: string) returns (s: string)
    requires Contains(STEM, v)
    ensures Contains(ReplaceAll(s, QUEUED_MEDIA, v), QUEUED_MEDIA)
  {
    var j :| 0 <= j <= |STEM| && OccursAt(STEM, v, j);
    if j == |STEM| {
      j := 0;
    }
    assert OccursAt(STEM, v, j);
    s := StemPieceRebuilds(v, j);
    assert OccursAt(QUEUED_MEDIA, QUEUED_MEDIA, 0);
  }

  /** For a plain id: no text can end up holding the placeholder
      exactly when the id is not a piece of the placeholder's stem. */
  lemma SafeIds(v: string)
    requires Plain(v)
    ensures (forall s :: !Contains(ReplaceAll(s, QUEUED_MEDIA, v), QUEUED_MEDIA)) <==> !Contains(STEM, v)
  {
    if Contains(STEM, v) {
      var s := UnsafeText(v);
    } else {
      forall s ensures !Contains(ReplaceAll(s, QUEUED_MEDIA, v), QUEUED_MEDIA) {
        ReplaceLeavesNone(s, v);
      }
    }
  }

  // ---------------------------------------------------------------------
  // Trees
  // ---------------------------------------------------------------------

  /** The tree with every string value blanked: shape, keys and other leaves. */
  function Skeleton(node: Json): Json {
    match node
    case Str(_) => Str("")
    case Arr(items) => Arr(seq(|items|, i requires 0 <= i < |items| => Skeleton(items[i])))
    case Obj(fields) =>
      Obj(seq(|fields|, i requires 0 <= i < |fields| => Field(fields[i].key, Skeleton(fields[i].value))))
    case _ => node
  }

  /** No string value of the tree holds `p`. */
  predicate Clean(node: Json, p: string) {
    match node
    case Str(text) => !Contains(text, p)
    case Arr(items) => forall i :: 0 <= i < |items| ==> Clean(items[i], p)
    case Obj(fields) => forall i :: 0 <= i < |fields| ==> Clean(fields[i].value, p)
    case _ => true
  }

  lemma {:induction false} SubstituteKeepsShape(node: Json, p: string, v: string)
    ensures Skeleton(Substitute(node, p, v)) == Skeleton(node)
  {
    match node
    case Arr(items) =>
      forall i | 0 <= i < |items| ensures Skeleton(Substitute(items[i], p, v)) == Skeleton(items[i]) {
        SubstituteKeepsShape(items[i], p, v);
      }
      assert Skeleton(Substitute(node, p, v)).items == Skeleton(node).items;
    case Obj(fields) =>
      forall i | 0 <= i < |fields|
        ensures Skeleton(Substitute(fields[i].value, p, v)) == Skeleton(fields[i].value)
      {
        SubstituteKeepsShape(fields[i].value, p, v);
      }
      assert Skeleton(Substitute(node, p, v)).fields == Skeleton(node).fields;
    case _ =>
  }

  lemma {:induction false} SubstituteIdentity(node: Json, p: string, v: string)
    requires p != "" && Clean(node, p)
    ensures Substitute(node, p, v) == node
  {
    match node
    case Str(text) => ReplaceIdentity(text, p, v);
    case Arr(items) =>
      forall i | 0 <= i < |items| ensures Substitute(items[i], p, v) == items[i] {
        SubstituteIdentity(items[i], p, v);
      }
      assert Substitute(node, p, v).items == items;
    case Obj(fields) =>
      forall i | 0 <= i < |fields| ensures Substitute(fields[i].value, p, v) == fields[i].value {
        SubstituteIdentity(fields[i].value, p, v);
      }
      assert Substitute(node, p, v).fields == fields;
    case _ =>
  }

  lemma {:induction false} SubstituteCleans(node: Json, v: string)
    requires Plain(v) && !Contains(STEM, v)
    ensures Clean(Substitute(node, QUEUED_MEDIA, v), QUEUED_MEDIA)
  {
    match node
    case Str(text) => ReplaceLeavesNone(text, v);
    case Arr(items) =>
      forall i | 0 <= i < |items| ensures Clean(Substitute(items[i], QUEUED_MEDIA, v), QUEUED_MEDIA) {
        SubstituteCleans(items[i], v);
      }
    case Obj(fields) =>
      forall i | 0 <= i < |fields| ensures Clean(Substitute(fields[i].value, QUEUED_MEDIA, v), QUEUED_MEDIA) {
        SubstituteCleans(fields[i].value, v);
      }
    case _ =>
  }

  lemma UnsafeBody(v: string) returns (body: Json)
    requires Contains(STEM, v)
    ensures !Clean(Substitute(body, QUEUED_MEDIA, v), QUEUED_MEDIA)
  {
    var s := UnsafeText(v);
    body := Str(s);
    assert Substitute(body, QUEUED_MEDIA, v) == Str(ReplaceAll(s, QUEUED_MEDIA, v));
  }

  /** The same equivalence for whole request bodies. */
  lemma SafeIdsForBodies(v: string)
    requires Plain(v)
    ensures (forall body :: Clean(Substitute(body, QUEUED_MEDIA, v), QUEUED_MEDIA)) <==> !Contains(STEM, v)
  {
    if Contains(STEM, v) {
      var body := UnsafeBody(v);
    } else {
      forall body ensures Clean(Substitute(body, QUEUED_MEDIA, v), QUEUED_MEDIA) {
        SubstituteCleans(body, v);
      }
    }
  }

  /** A second substitution, with whatever id, changes nothing. */
  lemma SubstituteOnceIsEnough(body: Json, v: string, w: string)
    requires Plain(v) && !Contains(STEM, v)
    ensures Substitute(Substitute(body, QUEUED_MEDIA, v), QUEUED_MEDIA, w) == Substitute(body, QUEUED_MEDIA, v)
  {
    SubstituteCleans(body, v);
    SubstituteIdentity(Substitute(body, QUEUED_MEDIA, v), QUEUED_MEDIA, w);
  }

  /** The api hands out `<purpose>-<uuid>` as media ids; for a driver's photo the purpose is `pod_photo`. */
  lemma MediaKeysAreSafe(uuid: string)
    requires uuid != "" && '_' !in uuid
    ensures Plain("pod_photo-" + uuid) && !Contains(STEM, "pod_photo-" + uuid)
  {
    var v := "pod_photo-" + uuid;
    assert forall i :: 10 <= i < |v| ==> v[i] == uuid[i - 10];
    PlaceholderShape();
    forall i | 0 <= i <= |STEM| ensures !OccursAt(STEM, v, i) {
      assert v[3] == '_';
      Differs(STEM, v, i, 3);
    }
  }
}
