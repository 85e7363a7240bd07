/**
 * XXH64 with seed 0, the 64-bit digest behind `xxhash.New64()`, as the reference
 * algorithm defines it: 32-byte stripes into four lanes for long inputs, then
 * 8-, 4- and 1-byte tail steps, then the final avalanche. `Sum(nil)` appends the
 * digest to an empty slice as 8 big-endian bytes.
 */
module Xxh64 {
  import opened GoText

  const Prime1: bv64 := 0x9E37_79B1_85EB_CA87
  const Prime2: bv64 := 0xC2B2_AE3D_27D4_EB4F
  const Prime3: bv64 := 0x1656_67B1_9E37_79F9
  const Prime4: bv64 := 0x85EB_CA77_C2B2_AE63
  const Prime5: bv64 := 0x27D4_EB2F_1656_67C5

  function Round(acc: bv64, lane: bv64): bv64 {
    (acc + lane * Prime2).RotateLeft(31) * Prime1
  }

  function MergeRound(acc: bv64, v: bv64): bv64 {
    (acc ^ Round(0, v)) * Prime1 + Prime4
  }

  /** Four little-endian bytes starting at i, widened to 64 bits. */
  function Lane32(s: Str, i: nat): bv64
    requires i + 4 <= |s|
  {
    (s[i] as bv64) | ((s[i + 1] as bv64) << 8) | ((s[i + 2] as bv64) << 16) | ((s[i + 3] as bv64) << 24)
  }

  /** Eight little-endian bytes starting at i. */
  function Lane64(s: Str, i: nat): bv64
    requires i + 8 <= |s|
  {
    (Lane32(s, i + 4) << 32) | Lane32(s, i)
  }

  /** The input length folded into the state, modulo 2^64 as the reference does. */
  function LengthBits(n: nat): bv64 {
    (n % 0x1_0000_0000_0000_0000) as bv64
  }

  function Mix8(h: bv64, lane: bv64): bv64 {
    (h ^ Round(0, lane)).RotateLeft(27) * Prime1 + Prime4
  }

  function Mix4(h: bv64, lane: bv64): bv64 {
    (h ^ (lane * Prime1)).RotateLeft(23) * Prime2 + Prime3
  }

  function Mix1(h: bv64, b: bv64): bv64 {
    (h ^ (b * Prime5)).RotateLeft(11) * Prime1
  }

  /** The bytes from i on that do not fill a stripe: 8 at a time, then at most one 4, then single bytes. */
  function Tail(h: bv64, s: Str, i: nat): bv64
    requires i <= |s|
    decreases |s| - i
  {
    if i + 8 <= |s| then Tail(Mix8(h, Lane64(s, i)), s, i + 8)
    else if i + 4 <= |s| then Tail(Mix4(h, Lane32(s, i)), s, i + 4)
    else if i < |s| then Tail(Mix1(h, s[i] as bv64), s, i + 1)
    else h
  }

  /** Where the tail starts: the 32-byte stripes from i on are consumed whole. */
  function TailStart(n: nat, i: nat): (r: nat)
    requires i <= n
    ensures i <= r <= n
    decreases n - i
  {
    if i + 32 <= n then TailStart(n, i + 32) else i
  }

  /** The stripes consume whole 32-byte blocks and leave fewer than 32 bytes for the tail. */
  lemma {:induction false} TailIsShort(n: nat, i: nat)
    requires i <= n
    ensures var end := TailStart(n, i);
      (end - i) % 32 == 0 && n - end < 32
    decreases n - i
  {
    if i + 32 <= n {
      TailIsShort(n, i + 32);
    }
  }

  /** The 32-byte stripes from i on, folded into one state once they are done. */
  function Stripes(s: Str, i: nat, v1: bv64, v2: bv64, v3: bv64, v4: bv64): bv64
    requires i <= |s|
    decreases |s| - i
  {
    if i + 32 <= |s| then
      Stripes(s, i + 32, Round(v1, Lane64(s, i)), Round(v2, Lane64(s, i + 8)),
              Round(v3, Lane64(s, i + 16)), Round(v4, Lane64(s, i + 24)))
    else Converge(v1, v2, v3, v4)
  }

  /** The four accumulators folded into one once the stripes are done. */
  function Converge(v1: bv64, v2: bv64, v3: bv64, v4: bv64): bv64 {
    var h := v1.RotateLeft(1) + v2.RotateLeft(7) + v3.RotateLeft(12) + v4.RotateLeft(18);
    MergeRound(MergeRound(MergeRound(MergeRound(h, v1), v2), v3), v4)
  }

  function Avalanche(h: bv64): bv64 {
    var h1 := (h ^ (h >> 33)) * Prime2;
    var h2 := (h1 ^ (h1 >> 29)) * Prime3;
    h2 ^ (h2 >> 32)
  }

  function LongSum(s: Str): bv64
    requires |s| >= 32
  {
    var h := Stripes(s, 0, Prime1 + Prime2, Prime2, 0, 0 - Prime1);
    Avalanche(Tail(h + LengthBits(|s|), s, TailStart(|s|, 0)))
  }

  /** XXH64(s, seed 0). */
  function Sum64(s: Str): bv64 {
    if |s| >= 32 then LongSum(s)
    else Avalanche(Tail(Prime5 + LengthBits(|s|), s, 0))
  }

  /** Bits shift+7 .. shift of h as a byte. */
  function ByteAt(h: bv64, shift: bv64): Byte
    requires shift <= 56
  {
    ((h >> shift) & 0xFF) as bv8 as int
  }

  /** Sum(nil): the digest as 8 bytes, most significant first. */
  function SumBytes(h: bv64): (r: Str)
    ensures |r| == 8
  {
    [ByteAt(h, 56), ByteAt(h, 48), ByteAt(h, 40), ByteAt(h, 32),
     ByteAt(h, 24), ByteAt(h, 16), ByteAt(h, 8), ByteAt(h, 0)]
  }

  /** The eight bytes determine the digest: no two digests share a byte string. */
  lemma SumBytesInjective(h1: bv64, h2: bv64)
    requires SumBytes(h1) == SumBytes(h2)
    ensures h1 == h2
  {
    var b1, b2 := SumBytes(h1), SumBytes(h2);
    assert b1[0] == b2[0] && b1[1] == b2[1] && b1[2] == b2[2] && b1[3] == b2[3];
    assert b1[4] == b2[4] && b1[5] == b2[5] && b1[6] == b2[6] && b1[7] == b2[7];
    ByteAtInjective(h1, h2, 56); ByteAtInjective(h1, h2, 48);
    ByteAtInjective(h1, h2, 40); ByteAtInjective(h1, h2, 32);
    ByteAtInjective(h1, h2, 24); ByteAtInjective(h1, h2, 16);
    ByteAtInjective(h1, h2, 8); ByteAtInjective(h1, h2, 0);
    Rebuild(h1);
    Rebuild(h2);
  }

  /** Equal bytes at a shift mean equal 8-bit fields of the digests there. */
  lemma ByteAtInjective(h1: bv64, h2: bv64, shift: bv64)
    requires shift <= 56 && ByteAt(h1, shift) == ByteAt(h2, shift)
    ensures (h1 >> shift) & 0xFF == (h2 >> shift) & 0xFF
  {
    Bv8Injective(((h1 >> shift) & 0xFF) as bv8, ((h2 >> shift) & 0xFF) as bv8);
  }

  lemma Bv8Injective(a: bv8, b: bv8)
    requires a as int == b as int
    ensures a == b
  {
  }

  /** A 64-bit value is the sum of its eight byte fields, each in its place. */
  lemma Rebuild(h: bv64)
    ensures h == (((h >> 56) & 0xFF) << 56) | (((h >> 48) & 0xFF) << 48) | (((h >> 40) & 0xFF) << 40)
               | (((h >> 32) & 0xFF) << 32) | (((h >> 24) & 0xFF) << 24) | (((h >> 16) & 0xFF) << 16)
               | (((h >> 8) & 0xFF) << 8) | (h & 0xFF)
  {
  }

  // ------------------------------------------------- the "abcdefgh" test vector
  // Each step below is stated on literal values, so the solver folds the 64-bit
  // arithmetic instead of reasoning about it symbolically.

  lemma TailStep8(h: bv64, lane: bv64, s: Str, i: nat)
    requires i + 8 <= |s| && Lane64(s, i) == lane
    ensures Tail(h, s, i) == Tail(Mix8(h, lane), s, i + 8)
  {
  }

  lemma LaneOfAbcdefgh(s: Str)
    requires s == [0x61, 0x62, 0x63, 0x64, 0x65, 0x66, 0x67, 0x68]
    ensures Lane64(s, 0) == 0x6867_6665_6463_6261
  {
    assert s[0] as bv64 == 0x61;
    assert s[1] as bv64 == 0x62;
    assert s[2] as bv64 == 0x63;
    assert s[3] as bv64 == 0x64;
    assert s[4] as bv64 == 0x65;
    assert s[5] as bv64 == 0x66;
    assert s[6] as bv64 == 0x67;
    assert s[7] as bv64 == 0x68;
  }

  lemma ShortSumOf8(s: Str)
    requires s == [0x61, 0x62, 0x63, 0x64, 0x65, 0x66, 0x67, 0x68]
    ensures Sum64(s) == Avalanche(Tail(0x27D4_EB2F_1656_67CD, s, 0))
  {
    LengthOf8();
    assert LengthBits(|s|) == 8;
  }

  lemma LengthOf8()
    ensures LengthBits(8) == 8
  {
    assert 8 % 0x1_0000_0000_0000_0000 == 8;
  }

  lemma MixOfAbcdefgh()
    ensures Mix8(0x27D4_EB2F_1656_67CD, 0x6867_6665_6463_6261) == 0xA119_981D_165A_D1DF
  {
  }

  lemma TailEnd(h: bv64, s: Str)
    ensures Tail(h, s, |s|) == h
  {
  }

  lemma AvalancheOfAbcdefgh()
    ensures Avalanche(0xA119_981D_165A_D1DF) == 0x3AD3_5177_5B46_34B7
  {
  }

  /** XXH64("abcdefgh", 0) = 0x3ad351775b4634b7. */
  lemma Sum64OfAbcdefgh(s: Str)
    requires s == [0x61, 0x62, 0x63, 0x64, 0x65, 0x66, 0x67, 0x68]
    ensures Sum64(s) == 0x3AD3_5177_5B46_34B7
  {
    LaneOfAbcdefgh(s);
    TailStep8(0x27D4_EB2F_1656_67CD, 0x6867_6665_6463_6261, s, 0);
    MixOfAbcdefgh();
    TailEnd(0xA119_981D_165A_D1DF, s);
    ShortSumOf8(s);
    AvalancheOfAbcdefgh();
  }

  lemma SumBytesOfVector()
    ensures SumBytes(0x3AD3_5177_5B46_34B7) == [0x3A, 0xD3, 0x51, 0x77, 0x5B, 0x46, 0x34, 0xB7]
  {
  }
}
