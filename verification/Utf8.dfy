/** Lossy UTF-8 decoding as in section 3 of RFC 3629: an ill-formed stretch becomes U+FFFD,
    one for each maximal subpart. */
module Utf8 {

  type Byte = b: int | 0 <= b < 256

  const REPLACEMENT: char := '\U{FFFD}'

  /** Length of a sequence with this first byte; 0 when no sequence starts with it. */
  function Need(lead: Byte): (n: nat)
    ensures n <= 4
  {
    if lead < 0x80 then 1
    else if 0xC2 <= lead < 0xE0 then 2
    else if 0xE0 <= lead < 0xF0 then 3
    else if 0xF0 <= lead < 0xF5 then 4
    else 0
  }

  /** The second byte is constrained so that no character has two encodings, and surrogates
      and values past U+10FFFF have none. */
  predicate Follows(lead: Byte, second: Byte) {
    0x80 <= second < 0xC0 &&
    (lead == 0xE0 ==> 0xA0 <= second) && (lead == 0xED ==> second < 0xA0) &&
    (lead == 0xF0 ==> 0x90 <= second) && (lead == 0xF4 ==> second < 0x90)
  }

  predicate Tail(b: Byte) { 0x80 <= b < 0xC0 }

  /** Number of leading bytes that belong together: a whole character or a maximal subpart. */
  function Subpart(b: seq<Byte>): (n: nat)
    requires b != []
    ensures 1 <= n <= |b| && (Need(b[0]) > 0 ==> n <= Need(b[0]))
  {
    var need := Need(b[0]);
    if need <= 1 || |b| < 2 || !Follows(b[0], b[1]) then 1
    else if need == 2 || |b| < 3 || !Tail(b[2]) then 2
    else if need == 3 || |b| < 4 || !Tail(b[3]) then 3
    else 4
  }

  /** The character of a whole sequence. */
  function CharOf(b: seq<Byte>): char
    requires b != [] && Subpart(b) == Need(b[0]) == |b|
  {
    var lead: int := b[0];
    if |b| == 1 then lead as char
    else if |b| == 2 then ((lead - 0xC0) * 64 + Low(b[1])) as char
    else if |b| == 3 then ((lead - 0xE0) * 4096 + Low(b[1]) * 64 + Low(b[2])) as char
    else ((lead - 0xF0) * 262144 + Low(b[1]) * 4096 + Low(b[2]) * 64 + Low(b[3])) as char
  }

  function Low(b: Byte): int { b - 0x80 }

  function First(b: seq<Byte>): char
    requires b != []
  {
    var n := Subpart(b);
    if n == Need(b[0]) then assert Subpart(b[..n]) == n; CharOf(b[..n]) else REPLACEMENT
  }

  function Decode(b: seq<Byte>): string {
    if b == [] then "" else [First(b)] + Decode(b[Subpart(b)..])
  }

  /** The bytes run out inside a character: what comes next may still complete it. */
  predicate CutShort(b: seq<Byte>) {
    b != [] && Subpart(b) == |b| && |b| < Need(b[0])
  }

  /** The bytes end on a character boundary. */
  predicate Complete(b: seq<Byte>) {
    b == [] || (!CutShort(b) && Complete(b[Subpart(b)..]))
  }

  predicate EndsBroken(text: string) {
    text != "" && text[|text| - 1] == REPLACEMENT
  }

  // ---- decoding piece by piece ----

  lemma SubpartExtends(x: seq<Byte>, y: seq<Byte>)
    requires x != [] && !CutShort(x)
    ensures Subpart(x + y) == Subpart(x) && First(x + y) == First(x)
  {
    var n := Subpart(x);
    assert (x + y)[..n] == x[..n];
  }

  /** Across a character boundary decoding distributes over concatenation. */
  lemma {:induction false} DecodeSplits(x: seq<Byte>, y: seq<Byte>)
    requires Complete(x)
    ensures Decode(x + y) == Decode(x) + Decode(y)
    ensures Complete(x + y) == Complete(y)
    decreases |x|
  {
    if x == [] {
      assert x + y == y;
    } else {
      SubpartExtends(x, y);
      var n := Subpart(x);
      assert (x + y)[n..] == x[n..] + y;
      DecodeSplits(x[n..], y);
    }
  }

  /** Bytes that end inside a character decode to a text ending in U+FFFD. */
  lemma {:induction false} IncompleteEndsBroken(b: seq<Byte>)
    requires !Complete(b)
    ensures EndsBroken(Decode(b))
  {
    if CutShort(b) {
      assert b[Subpart(b)..] == [];
      assert Decode(b) == [REPLACEMENT];
    } else {
      IncompleteEndsBroken(b[Subpart(b)..]);
      var rest := Decode(b[Subpart(b)..]);
      assert Decode(b)[|Decode(b)| - 1] == rest[|rest| - 1];
    }
  }

  // ---- well formed text ----

  function EncodeChar(c: char): (b: seq<Byte>)
    ensures b != []
  {
    var n := c as int;
    if n < 0x80 then [n]
    else if n < 0x800 then [0xC0 + n / 64, 0x80 + n % 64]
    else if n < 0x10000 then [0xE0 + n / 4096, 0x80 + n / 64 % 64, 0x80 + n % 64]
    else [0xF0 + n / 262144, 0x80 + n / 4096 % 64, 0x80 + n / 64 % 64, 0x80 + n % 64]
  }

  function Encode(text: string): seq<Byte> {
    if text == "" then [] else EncodeChar(text[0]) + Encode(text[1..])
  }

  lemma CharRoundTrip(c: char)
    ensures var b := EncodeChar(c); Subpart(b) == Need(b[0]) == |b| && CharOf(b) == c
  {
    Base64Digits(c as int);
  }

  lemma Base64Digits(n: int)
    requires 0 <= n
    ensures n == n / 64 * 64 + n % 64
    ensures n / 64 == n / 4096 * 64 + n / 64 % 64
    ensures n / 4096 == n / 262144 * 64 + n / 4096 % 64
  {
  }

  /** Encoding text and decoding it gives the text back, and ends on a boundary. */
  lemma {:induction false} RoundTrip(text: string)
    ensures Decode(Encode(text)) == text && Complete(Encode(text))
  {
    if text != "" {
      RoundTrip(text[1..]);
      var b := EncodeChar(text[0]);
      CharRoundTrip(text[0]);
      assert b[..|b|] == b && b[|b|..] == [];
      assert Decode(b) == [text[0]] + Decode([]);
      DecodeSplits(b, Encode(text[1..]));
    }
  }
}
