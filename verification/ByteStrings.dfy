/** Little-endian numbers, and UTF-8 validity, over byte strings. */
module ByteStrings {
  import opened Base

  type Bytes = seq<u8>

  function Pow256(n: nat): (p: nat)
    ensures p > 0
  {
    if n == 0 then 1 else 0x100 * Pow256(n - 1)
  }

  function LeBytes(x: nat, width: nat): (b: Bytes)
    ensures |b| == width
  {
    if width == 0 then [] else [x % 0x100] + LeBytes(x / 0x100, width - 1)
  }

  function LeValue(b: Bytes): (x: nat)
    ensures x < Pow256(|b|)
  {
    if b == [] then 0 else b[0] + 0x100 * LeValue(b[1..])
  }

  lemma {:induction false} LeValueOfBytes(x: nat, width: nat)
    requires x < Pow256(width)
    ensures LeValue(LeBytes(x, width)) == x
    decreases width
  {
    if width > 0 {
      LeValueOfBytes(x / 0x100, width - 1);
    }
  }

  lemma {:induction false} LeBytesOfValue(b: Bytes)
    ensures LeBytes(LeValue(b), |b|) == b
    decreases |b|
  {
    if b != [] {
      LeBytesOfValue(b[1..]);
      assert LeValue(b) % 0x100 == b[0] && LeValue(b) / 0x100 == LeValue(b[1..]);
    }
  }

  lemma Pow256Of8()
    ensures Pow256(8) == U64_MAX + 1
  {
    assert Pow256(4) == 0x1_0000_0000;
  }

  function U64Bytes(x: u64): (b: Bytes)
    ensures |b| == 8
  {
    LeBytes(x, 8)
  }

  function U64Of(b: Bytes): u64
    requires |b| == 8
  {
    Pow256Of8();
    LeValue(b)
  }

  lemma U64RoundTrip(x: u64)
    ensures U64Of(U64Bytes(x)) == x
  {
    Pow256Of8();
    LeValueOfBytes(x, 8);
  }

  lemma U64BytesOf(b: Bytes)
    requires |b| == 8
    ensures U64Bytes(U64Of(b)) == b
  {
    LeBytesOfValue(b);
  }

  predicate Continuation(b: u8) {
    0x80 <= b <= 0xBF
  }

  /** How many bytes the well-formed character at the front of `b` takes; 0 if there is
      none (section 4 of RFC 3629). */
  function CharLength(b: Bytes): nat {
    if |b| >= 1 && b[0] <= 0x7F then 1
    else if |b| >= 2 && 0xC2 <= b[0] <= 0xDF && Continuation(b[1]) then 2
    else if |b| >= 3 && 0xE0 <= b[0] <= 0xEF && Continuation(b[1]) && Continuation(b[2])
         && (b[0] == 0xE0 ==> b[1] >= 0xA0) && (b[0] == 0xED ==> b[1] <= 0x9F) then 3
    else if |b| >= 4 && 0xF0 <= b[0] <= 0xF4 && Continuation(b[1]) && Continuation(b[2]) && Continuation(b[3])
         && (b[0] == 0xF0 ==> b[1] >= 0x90) && (b[0] == 0xF4 ==> b[1] <= 0x8F) then 4
    else 0
  }

  predicate ValidUtf8(b: Bytes)
    decreases |b|
  {
    b == [] || (0 < CharLength(b) <= |b| && ValidUtf8(b[CharLength(b)..]))
  }

  type Text = t: Bytes | ValidUtf8(t) witness []
}
