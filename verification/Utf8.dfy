/** UTF-8 over bytes: well-formed sequences as in section 4 of RFC 3629, and Go's
    `utf8.RuneStart`. */
module Utf8 {

  type byte = x: int | 0 <= x < 256

  type Bytes = seq<byte>

  predicate In(x: byte, low: int, high: int) {
    low <= x <= high
  }

  predicate Tail(x: byte) {
    In(x, 0x80, 0xBF)
  }

  /** `utf8.RuneStart`: the two high bits are not 10. */
  predicate RuneStart(x: byte) {
    x / 64 != 2
  }

  predicate Two(a: byte, b: byte) {
    In(a, 0xC2, 0xDF) && Tail(b)
  }

  predicate Three(a: byte, b: byte, c: byte) {
    && Tail(c)
    && (|| (a == 0xE0 && In(b, 0xA0, 0xBF))
        || (In(a, 0xE1, 0xEC) && Tail(b))
        || (a == 0xED && In(b, 0x80, 0x9F))
        || (In(a, 0xEE, 0xEF) && Tail(b)))
  }

  predicate Four(a: byte, b: byte, c: byte, d: byte) {
    && Tail(c) && Tail(d)
    && (|| (a == 0xF0 && In(b, 0x90, 0xBF))
        || (In(a, 0xF1, 0xF3) && Tail(b))
        || (a == 0xF4 && In(b, 0x80, 0x8F)))
  }

  /** The length of the character that `b` begins with, 0 if it begins with none. */
  function First(b: Bytes): (n: nat)
    ensures n <= |b| && n <= 4
  {
    if 1 <= |b| && In(b[0], 0, 0x7F) then 1
    else if 2 <= |b| && Two(b[0], b[1]) then 2
    else if 3 <= |b| && Three(b[0], b[1], b[2]) then 3
    else if 4 <= |b| && Four(b[0], b[1], b[2], b[3]) then 4
    else 0
  }

  predicate Valid(b: Bytes) {
    |b| == 0 || (0 < First(b) && Valid(b[First(b)..]))
  }

  /** A character starts with its first byte and nowhere else. */
  lemma CharacterShape(b: Bytes)
    requires 0 < First(b)
    ensures RuneStart(b[0])
    ensures forall p :: 0 < p < First(b) ==> !RuneStart(b[p])
  {
  }

  lemma FirstOfPrefix(b: Bytes, p: nat)
    requires First(b) <= p <= |b| && 0 < First(b)
    ensures First(b[..p]) == First(b)
    ensures b[..p][First(b)..] == b[First(b)..][..p - First(b)]
    ensures b[First(b)..][p - First(b)..] == b[p..]
  {
  }

  /** In a valid text, the positions a character starts at are exactly those where it can be cut. */
  lemma {:induction false} StartsAreBoundaries(b: Bytes, p: nat)
    requires Valid(b) && p < |b|
    ensures RuneStart(b[p]) <==> Valid(b[..p]) && Valid(b[p..])
  {
    hide First, RuneStart;
    CharacterShape(b);
    if p == 0 {
      assert b[0..] == b && |b[..0]| == 0;
    } else if p < First(b) {
      if Valid(b[p..]) {
        CharacterShape(b[p..]);
      }
    } else {
      StartsAreBoundaries(b[First(b)..], p - First(b));
      FirstOfPrefix(b, p);
    }
  }

  /** No character is longer than four bytes. */
  lemma {:induction false} StartIsNear(b: Bytes, p: nat) returns (q: nat)
    requires Valid(b) && p < |b|
    ensures q <= p <= q + 3 && RuneStart(b[q])
  {
    var n := First(b);
    if p < n {
      q := 0;
    } else {
      q := StartIsNear(b[n..], p - n);
      q := q + n;
    }
  }

  lemma FirstOfConcat(a: Bytes, b: Bytes)
    requires 0 < First(a)
    ensures First(a + b) == First(a) <= |a + b|
    ensures (a + b)[First(a)..] == a[First(a)..] + b
  {
  }

  lemma {:induction false} ValidConcat(a: Bytes, b: Bytes)
    requires Valid(a) && Valid(b)
    ensures Valid(a + b)
  {
    hide First;
    if |a| == 0 {
      assert a + b == b;
    } else {
      FirstOfConcat(a, b);
      ValidConcat(a[First(a)..], b);
    }
  }

  lemma {:induction false} AsciiIsValid(b: Bytes)
    requires forall x <- b :: x < 0x80
    ensures Valid(b)
  {
    if 0 < |b| {
      assert b[0] in b;
      assert forall x <- b[1..] :: x in b;
      AsciiIsValid(b[1..]);
    }
  }

  /** The bytes of an ASCII string. */
  function Ascii(s: string): (b: Bytes)
    ensures |b| == |s|
    ensures forall x <- b :: x < 0x80
  {
    seq(|s|, i requires 0 <= i < |s| => s[i] as int % 0x80)
  }
}
