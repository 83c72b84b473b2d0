/** The name of a driver's queue database, read off the token (apps/driver/lib/actionQueue.ts:227-246). */
module DriverKey {
  // The encodings are those of RFC 4648, sections 4 and 5; `atob` is the Infra standard's forgiving decode.
  import opened Prelude

  type Byte = x: int | 0 <= x < 256
  type Six = x: int | 0 <= x < 64

  // ---------------------------------------------------------------------
  // Alphabets
  // ---------------------------------------------------------------------

  /** The character of a six-bit value; section 5 differs from section 4 in the last two. */
  function Symbol(v: Six, url: bool): char {
    if v < 26 then ('A' as int + v) as char
    else if v < 52 then ('a' as int + v - 26) as char
    else if v < 62 then ('0' as int + v - 52) as char
    else if v == 62 then if url then '-' else '+'
    else if url then '_' else '/'
  }

  /** The section 4 value of a character, or -1. */
  function Value(c: char): (r: int)
    ensures -1 <= r < 64
  {
    if 'A' <= c <= 'Z' then c as int - 'A' as int
    else if 'a' <= c <= 'z' then c as int - 'a' as int + 26
    else if '0' <= c <= '9' then c as int - '0' as int + 52
    else if c == '+' then 62
    else if c == '/' then 63
    else -1
  }

  predicate Whitespace(c: char) {
    c == '\t' || c == '\n' || c == 12 as char || c == '\r' || c == ' '
  }

  /** The characters a rewritten section 5 text may hold. */
  predicate InAlphabet(text: string) {
    forall i :: 0 <= i < |text| ==> Value(text[i]) >= 0
  }

  lemma SymbolValue(v: Six)
    ensures Value(Symbol(v, false)) == v && Symbol(v, true) != '.'
    ensures Symbol(v, false) == Slashed(Symbol(v, true))
  {
  }

  // ---------------------------------------------------------------------
  // Encoding
  // ---------------------------------------------------------------------

  /** Bytes regrouped six bits at a time, the last group filled up with zeros. */
  function Sextets(bytes: seq<Byte>): (r: seq<Six>)
    ensures |r| % 4 != 1
    decreases |bytes|
  {
    if bytes == [] then []
    else if |bytes| == 1 then [bytes[0] / 4, bytes[0] % 4 * 16]
    else if |bytes| == 2 then [bytes[0] / 4, bytes[0] % 4 * 16 + bytes[1] / 16, bytes[1] % 16 * 4]
    else
      [bytes[0] / 4, bytes[0] % 4 * 16 + bytes[1] / 16, bytes[1] % 16 * 4 + bytes[2] / 64, bytes[2] % 64]
      + Sextets(bytes[3..])
  }

  function Letters(sextets: seq<Six>, url: bool): (r: string)
    ensures |r| == |sextets| && forall i :: 0 <= i < |r| ==> r[i] == Symbol(sextets[i], url)
  {
    seq(|sextets|, i requires 0 <= i < |sextets| => Symbol(sextets[i], url))
  }

  /** Fills the last four characters. */
  function Padding(length: nat): string {
    if length % 4 == 0 then [] else if length % 4 == 1 then "===" else if length % 4 == 2 then "==" else "="
  }

  /** Section 4, padded. */
  function Base64(bytes: seq<Byte>): string {
    Letters(Sextets(bytes), false) + Padding(|Sextets(bytes)|)
  }

  /** Section 5, unpadded. */
  function Base64Url(bytes: seq<Byte>): string {
    Letters(Sextets(bytes), true)
  }

  // ---------------------------------------------------------------------
  // The rewrite in driverIdFromToken
  // ---------------------------------------------------------------------

  function Replace(text: string, from: char, to: char): (r: string)
    ensures |r| == |text| && forall i :: 0 <= i < |r| ==> r[i] == if text[i] == from then to else text[i]
  {
    seq(|text|, i requires 0 <= i < |text| => if text[i] == from then to else text[i])
  }

  function Slashed(c: char): char {
    if c == '-' then '+' else if c == '_' then '/' else c
  }

  function PadEnd(text: string, length: nat): string
    decreases length - |text|
  {
    if |text| >= length then text else PadEnd(text + "=", length)
  }

  /** `replace(/-/g, "+").replace(/_/g, "/").padEnd(Math.ceil(length / 4) * 4, "=")`. */
  function Rewrite(payload: string): string {
    PadEnd(Replace(Replace(payload, '-', '+'), '_', '/'), (|payload| + 3) / 4 * 4)
  }

  function Plus(payload: string): (r: string)
    ensures |r| == |payload| && forall i :: 0 <= i < |r| ==> r[i] == Slashed(payload[i])
  {
    seq(|payload|, i requires 0 <= i < |payload| => Slashed(payload[i]))
  }

  lemma RewriteIs(payload: string)
    ensures Rewrite(payload) == Plus(payload) + Padding(|payload|)
  {
    var text, n := Replace(Replace(payload, '-', '+'), '_', '/'), |payload|;
    assert text == Plus(payload);
    var length := (n + 3) / 4 * 4;
    if n % 4 == 0 {
      assert length == n;
      assert text + [] == text;
    } else if n % 4 == 1 {
      assert length == n + 3;
      assert PadEnd(text, length) == PadEnd(text + "=", length) == PadEnd((text + "=") + "=", length)
        == PadEnd(((text + "=") + "=") + "=", length) == ((text + "=") + "=") + "=";
      assert ((text + "=") + "=") + "=" == text + "===";
    } else if n % 4 == 2 {
      assert length == n + 2;
      assert PadEnd(text, length) == PadEnd(text + "=", length) == PadEnd((text + "=") + "=", length) ==
        (text + "=") + "=";
      assert (text + "=") + "=" == text + "==";
    } else {
      assert length == n + 1;
      assert PadEnd(text, length) == PadEnd(text + "=", length) == text + "=";
    }
  }

  /** Rewriting the unpadded section 5 text of any bytes gives their padded section 4 text. */
  lemma RewriteGivesSection4(bytes: seq<Byte>)
    ensures Rewrite(Base64Url(bytes)) == Base64(bytes)
  {
    RewriteIs(Base64Url(bytes));
    forall i | 0 <= i < |Sextets(bytes)| ensures Plus(Base64Url(bytes))[i] == Letters(Sextets(bytes), false)[i] {
      SymbolValue(Sextets(bytes)[i]);
    }
    assert Plus(Base64Url(bytes)) == Letters(Sextets(bytes), false);
  }

  // ---------------------------------------------------------------------
  // atob
  // ---------------------------------------------------------------------

  function Stripped(text: string): string {
    if text == [] then []
    else Stripped(text[..|text| - 1]) + if Whitespace(text[|text| - 1]) then [] else [text[|text| - 1]]
  }

  function Unpadded(text: string): string {
    var n := |text|;
    if n % 4 != 0 || n == 0 || text[n - 1] != '=' then text
    else if text[n - 2] != '=' then text[..n - 1]
    else text[..n - 2]
  }

  function First(a: int, b: int): Byte
    requires 0 <= a < 64 && 0 <= b < 64
  {
    a * 4 + b / 16
  }

  function Second(b: int, c: int): Byte
    requires 0 <= b < 64 && 0 <= c < 64
  {
    b % 16 * 16 + c / 4
  }

  function Third(c: int, d: int): Byte
    requires 0 <= c < 64 && 0 <= d < 64
  {
    c % 4 * 64 + d
  }

  /** The bytes of whole groups of eight bits; leftover bits are dropped. */
  function Octets(s: seq<Six>): seq<Byte>
    decreases |s|
  {
    if |s| <= 1 then []
    else if |s| == 2 then [First(s[0], s[1])]
    else if |s| == 3 then [First(s[0], s[1]), Second(s[1], s[2])]
    else [First(s[0], s[1]), Second(s[1], s[2]), Third(s[2], s[3])] + Octets(s[4..])
  }

  /** None is an InvalidCharacterError. */
  function Decode(text: string): Option<seq<Byte>> {
    if |text| % 4 == 1 || !InAlphabet(text) then None
    else Some(Octets(seq(|text|, i requires 0 <= i < |text| => Value(text[i]))))
  }

  function Atob(text: string): Option<seq<Byte>> {
    Decode(Unpadded(Stripped(text)))
  }

  lemma {:induction false} NothingToStrip(text: string)
    requires forall i :: 0 <= i < |text| ==> !Whitespace(text[i])
    ensures Stripped(text) == text
  {
    if text == [] {
    } else {
      NothingToStrip(text[..|text| - 1]);
      assert text[..|text| - 1] + [text[|text| - 1]] == text;
    }
  }

  lemma Regrouped(a: Byte, b: Byte, c: Byte)
    ensures First(a / 4, a % 4 * 16 + b / 16) == a
    ensures Second(a % 4 * 16 + b / 16, b % 16 * 4 + c / 64) == b
    ensures Third(b % 16 * 4 + c / 64, c % 64) == c
  {
  }

  lemma {:induction false} OctetsOfSextets(bytes: seq<Byte>)
    ensures Octets(Sextets(bytes)) == bytes
    decreases |bytes|
  {
    hide First, Second, Third;
    if bytes == [] {
    } else {
      Regrouped(bytes[0], if |bytes| > 1 then bytes[1] else 0, if |bytes| > 2 then bytes[2] else 0);
    }
    if |bytes| >= 3 {
      OctetsOfSextets(bytes[3..]);
      assert Sextets(bytes)[4..] == Sextets(bytes[3..]);
      assert bytes == [bytes[0], bytes[1], bytes[2]] + bytes[3..];
    }
  }

  lemma DecodeLetters(bytes: seq<Byte>)
    ensures Decode(Letters(Sextets(bytes), false)) == Some(bytes)
  {
    var text := Letters(Sextets(bytes), false);
    forall i | 0 <= i < |text| ensures Value(text[i]) == Sextets(bytes)[i] {
      SymbolValue(Sextets(bytes)[i]);
    }
    assert seq(|text|, i requires 0 <= i < |text| => Value(text[i])) == Sextets(bytes);
    OctetsOfSextets(bytes);
  }

  lemma UnpadsPadding(text: string)
    requires |text| > 0 ==> text[|text| - 1] != '='
    ensures Unpadded(text + Padding(|text|)) == if |text| % 4 == 1 then text + "=" else text
  {
    var n := |text|;
    if n % 4 == 0 {
      assert text + Padding(n) == text;
    } else if n % 4 == 1 {
      assert (text + "===")[..n + 1] == text + "=";
      assert (text + "===")[n + 1] == '=' == (text + "===")[n + 2];
    } else if n % 4 == 2 {
      assert (text + "==")[..n] == text;
      assert (text + "==")[n] == '=' == (text + "==")[n + 1];
    } else {
      assert (text + "=")[..n] == text;
      assert (text + "=")[n] == '=' && (text + "=")[n - 1] == text[n - 1];
    }
  }

  /** No character of the text is dropped by `atob`. */
  predicate Dense(text: string) {
    forall i :: 0 <= i < |text| ==> !Whitespace(text[i]) && text[i] != '='
  }

  lemma AtobOfPadded(text: string)
    requires Dense(text)
    ensures Atob(text + Padding(|text|)) == if |text| % 4 == 1 then None else Decode(text)
  {
    NothingToStrip(text + Padding(|text|));
    UnpadsPadding(text);
    if |text| % 4 == 1 {
      assert (text + "=")[|text|] == '=' && Value('=') < 0;
      assert !InAlphabet(text + "=");
    }
  }

  /** Decoding a rewritten payload gives back the bytes that were encoded, for every byte string. */
  lemma PayloadRoundTrip(bytes: seq<Byte>)
    ensures Atob(Rewrite(Base64Url(bytes))) == Some(bytes)
  {
    var text := Letters(Sextets(bytes), false);
    RewriteGivesSection4(bytes);
    forall i | 0 <= i < |text| ensures !Whitespace(text[i]) && text[i] != '=' {
      SymbolValue(Sextets(bytes)[i]);
    }
    AtobOfPadded(text);
    DecodeLetters(bytes);
  }

  /** Which payloads decode at all: those in either alphabet whose length is not one more than a
      multiple of four. */
  lemma PayloadDecodesIff(payload: string)
    requires Dense(payload)
    ensures Atob(Rewrite(payload)).Some? <==> |payload| % 4 != 1 && InAlphabet(Plus(payload))
  {
    RewriteIs(payload);
    AtobOfPadded(Plus(payload));
  }

  // ---------------------------------------------------------------------
  // The key
  // ---------------------------------------------------------------------

  /** JSON.parse and the read of driver_id: it throws (also on `null`), or finds a string, or not. */
  datatype Claims = Throws | DriverId(id: string) | NoDriverId

  const DB_PREFIX := "ps-driver-queue"

  /** The part of the text from its first '.' on. */
  function FirstDot(text: string): (r: nat)
    ensures r <= |text|
    ensures forall i :: 0 <= i < r ==> text[i] != '.'
    ensures r < |text| ==> text[r] == '.'
  {
    if text == [] || text[0] == '.' then 0 else 1 + FirstDot(text[1..])
  }

  /** `token.split(".")[1]`. */
  function SecondPart(token: string): Option<string> {
    var dot := FirstDot(token);
    if dot == |token| then None
    else
      var rest := token[dot + 1..];
      Some(rest[..FirstDot(rest)])
  }

  /** The claim in a payload, or the fallback where anything throws or is missing. */
  function KeyOfPayload(payload: string, parse: seq<Byte> -> Claims): string {
    var bytes := Atob(Rewrite(payload));
    if payload == [] || bytes.None? then ANONYMOUS
    else
      var claims := parse(bytes.value);
      if claims.DriverId? && claims.id != [] then claims.id else ANONYMOUS
  }

  function DriverIdFromToken(token: Option<string>, parse: seq<Byte> -> Claims): string {
    var payload := if token.Some? then SecondPart(token.value) else None;
    if payload.None? then ANONYMOUS else KeyOfPayload(payload.value, parse)
  }

  function DbName(key: string): string {
    DB_PREFIX + ("-" + key)
  }

  /** A token as RFC 7519 and RFC 7515 write it: header, claims and signature, each in section 5 text. */
  function Jwt(header: seq<Byte>, claims: seq<Byte>, signature: seq<Byte>): string {
    Base64Url(header) + ("." + (Base64Url(claims) + ("." + Base64Url(signature))))
  }

  lemma NoDot(bytes: seq<Byte>)
    ensures forall i :: 0 <= i < |Base64Url(bytes)| ==> Base64Url(bytes)[i] != '.'
    ensures bytes != [] ==> Base64Url(bytes) != []
  {
    forall i | 0 <= i < |Sextets(bytes)| ensures Base64Url(bytes)[i] != '.' {
      SymbolValue(Sextets(bytes)[i]);
    }
  }

  lemma FirstDotIs(a: string, b: string)
    requires forall i :: 0 <= i < |a| ==> a[i] != '.'
    ensures FirstDot(a + ("." + b)) == |a| && (a + ("." + b))[|a| + 1..] == b
  {
    var text := a + ("." + b);
    assert text[|a|] == '.';
    assert forall i :: 0 <= i < |a| ==> text[i] == a[i];
    assert text[|a| + 1..] == b;
  }

  lemma SecondPartOfJwt(header: seq<Byte>, claims: seq<Byte>, signature: seq<Byte>)
    ensures SecondPart(Jwt(header, claims, signature)) == Some(Base64Url(claims))
  {
    var h, c, s := Base64Url(header), Base64Url(claims), Base64Url(signature);
    NoDot(header);
    NoDot(claims);
    hide Base64Url, FirstDot;
    FirstDotIs(h, c + ("." + s));
    FirstDotIs(c, s);
    assert (c + ("." + s))[..|c|] == c;
  }

  /** From a well-formed token the key is its driver_id claim, if that is a non-empty string. */
  lemma KeyIsTheClaim(header: seq<Byte>, claims: seq<Byte>, signature: seq<Byte>, parse: seq<Byte> -> Claims)
    requires claims != []
    ensures DriverIdFromToken(Some(Jwt(header, claims, signature)), parse) ==
      if parse(claims).DriverId? && parse(claims).id != [] then parse(claims).id else ANONYMOUS
  {
    hide Rewrite, Atob, Base64Url, SecondPart, Jwt;
    SecondPartOfJwt(header, claims, signature);
    NoDot(claims);
    PayloadRoundTrip(claims);
  }

  predicate Names(parse: seq<Byte> -> Claims, claims: seq<Byte>, id: string) {
    claims != [] && parse(claims) == DriverId(id) && id != []
  }

  /** Two drivers' tokens open the same database if and only if they name the same driver. */
  lemma DatabasesAreApart(
      parse: seq<Byte> -> Claims, h1: seq<Byte>, c1: seq<Byte>, s1: seq<Byte>, id1: string,
      h2: seq<Byte>, c2: seq<Byte>, s2: seq<Byte>, id2: string)
    requires Names(parse, c1, id1) && Names(parse, c2, id2)
    ensures DbName(DriverIdFromToken(Some(Jwt(h1, c1, s1)), parse)) ==
      DbName(DriverIdFromToken(Some(Jwt(h2, c2, s2)), parse))
      <==> id1 == id2
  {
    KeyIsTheClaim(h1, c1, s1, parse);
    KeyIsTheClaim(h2, c2, s2, parse);
    DbNameInjective(id1, id2);
  }

  lemma DbNameInjective(a: string, b: string)
    ensures DbName(a) == DbName(b) <==> a == b
  {
    var n := |DB_PREFIX| + 1;
    assert DbName(a)[n..] == a && DbName(b)[n..] == b;
  }

  /** A driver shares the signed-out database if and only if their id is the fallback's own name. */
  lemma SharesAnonymousIff(
      parse: seq<Byte> -> Claims, header: seq<Byte>, claims: seq<Byte>, signature: seq<Byte>, id: string)
    requires Names(parse, claims, id)
    ensures DbName(DriverIdFromToken(Some(Jwt(header, claims, signature)), parse)) ==
      DbName(DriverIdFromToken(None, parse))
      <==> id == ANONYMOUS
  {
    KeyIsTheClaim(header, claims, signature, parse);
    DbNameInjective(id, ANONYMOUS);
  }
}
