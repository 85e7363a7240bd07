/**
 * pkg/utils: the crop-mode codes, cache-key hashing (`GetHash`) and the
 * case-insensitive membership test (`Contains`).
 */
module Utils {
  import opened Wrappers
  import opened GoText
  import opened Errors
  import Xxh64

  /** The crop-mode codes passed on as `cropFormat uint8`. */
  const Fill: Uint8 := 0x1
  const Resize: Uint8 := 0x3

  // ------------------------------------------------------------ hex encoding

  predicate IsLowerHex(b: Byte) {
    0x30 <= b <= 0x39 || 0x61 <= b <= 0x66
  }

  /** The lower-case hex digit of a nibble. */
  function HexDigit(n: nat): Byte
    requires n < 16
  {
    if n < 10 then 0x30 + n else 0x57 + n
  }

  /** The nibble a lower-case hex digit stands for. */
  function HexValue(c: Byte): nat
    requires IsLowerHex(c)
  {
    if c <= 0x39 then c - 0x30 else c - 0x57
  }

  /** hex.EncodeToString: two lower-case digits per byte, high nibble first. */
  function HexEncode(b: Str): (r: Str)
    ensures |r| == 2 * |b|
    ensures forall i | 0 <= i < |r| :: IsLowerHex(r[i])
  {
    if b == [] then [] else [HexDigit(b[0] / 16), HexDigit(b[0] % 16)] + HexEncode(b[1..])
  }

  /** The inverse of HexEncode on its image. */
  function HexDecode(s: Str): Str
    requires |s| % 2 == 0
    requires forall i | 0 <= i < |s| :: IsLowerHex(s[i])
  {
    if s == [] then [] else [HexValue(s[0]) * 16 + HexValue(s[1])] + HexDecode(s[2..])
  }

  /** Decoding undoes encoding, so distinct digests give distinct keys. */
  lemma {:induction false} HexRoundTrip(b: Str)
    ensures HexDecode(HexEncode(b)) == b
  {
    if b != [] {
      var e := HexEncode(b);
      assert e[2..] == HexEncode(b[1..]);
      HexRoundTrip(b[1..]);
    }
  }

  lemma HexInjective(a: Str, b: Str)
    requires HexEncode(a) == HexEncode(b)
    ensures a == b
  {
    HexRoundTrip(a);
    HexRoundTrip(b);
  }

  // ------------------------------------------------------------------ hashing

  /** A cache key as GetHash produces it: 16 lower-case hex digits. */
  predicate IsKey(k: Str) {
    |k| == 16 && forall i | 0 <= i < |k| :: IsLowerHex(k[i])
  }

  /**
   * hex.EncodeToString(h.Sum(nil)) for an xxhash.New64() hasher h fed the text:
   * the key GetHash derives when the hasher accepts the bytes.
   */
  function KeyOf(text: Str): Str {
    HexEncode(Xxh64.SumBytes(Xxh64.Sum64(text)))
  }

  /**
   * GetHash: write the text's bytes into a fresh XXH64 hasher and hex-encode its
   * 8-byte sum. `hashWrite` is the error the hasher's Write reports, if any; the
   * error is returned as it is and no key is produced.
   */
  function GetHash(text: Str, hashWrite: Option<Error>): (r: Result<Str, Error>)
    ensures r.Ok? <==> hashWrite.None?
    ensures r.Err? ==> r.error == hashWrite.value
    ensures r.Ok? ==> IsKey(r.value) && Slash !in r.value
  {
    if hashWrite.Some? then Err(hashWrite.value) else Ok(KeyOf(text))
  }

  /** Equal keys come only from equal digests: the hex step loses nothing. */
  lemma KeyDeterminesDigestBytes(a: Str, b: Str)
    requires KeyOf(a) == KeyOf(b)
    ensures Xxh64.SumBytes(Xxh64.Sum64(a)) == Xxh64.SumBytes(Xxh64.Sum64(b))
  {
    HexInjective(Xxh64.SumBytes(Xxh64.Sum64(a)), Xxh64.SumBytes(Xxh64.Sum64(b)));
  }

  /** Equal keys come only from equal 64-bit digests. */
  lemma KeyDeterminesDigest(a: Str, b: Str)
    requires KeyOf(a) == KeyOf(b)
    ensures Xxh64.Sum64(a) == Xxh64.Sum64(b)
  {
    KeyDeterminesDigestBytes(a, b);
    Xxh64.SumBytesInjective(Xxh64.Sum64(a), Xxh64.Sum64(b));
  }

  /** GetHash("abcdefgh") == "3ad351775b4634b7". */
  lemma GetHashVector()
    ensures GetHash(Lit("abcdefgh"), None) == Ok(Lit("3ad351775b4634b7"))
  {
    var text := Lit("abcdefgh");
    assert text == [0x61, 0x62, 0x63, 0x64, 0x65, 0x66, 0x67, 0x68];
    Xxh64.Sum64OfAbcdefgh(text);
    Xxh64.SumBytesOfVector();
    HexOfVector(Xxh64.SumBytes(0x3AD3_5177_5B46_34B7));
  }

  lemma HexOfVector(digest: Str)
    requires digest == [0x3A, 0xD3, 0x51, 0x77, 0x5B, 0x46, 0x34, 0xB7]
    ensures HexEncode(digest) == Lit("3ad351775b4634b7")
  {
    var hi, lo := digest[..4], digest[4..];
    assert digest == hi + lo;
    HexEncodeAppend(hi, lo);
    var hexHi: Str, hexLo: Str := [0x33, 0x61, 0x64, 0x33, 0x35, 0x31, 0x37, 0x37], [0x35, 0x62, 0x34, 0x36, 0x33, 0x34, 0x62, 0x37];
    HexOfQuad(hi, hexHi);
    HexOfQuad(lo, hexLo);
    assert Lit("3ad351775b4634b7") == hexHi + hexLo;
  }

  /** The hex of four bytes, two by two. */
  lemma HexOfQuad(d: Str, hex: Str)
    requires |d| == 4 && |hex| == 8
    requires hex[..4] == [HexDigit(d[0] / 16), HexDigit(d[0] % 16), HexDigit(d[1] / 16), HexDigit(d[1] % 16)]
    requires hex[4..] == [HexDigit(d[2] / 16), HexDigit(d[2] % 16), HexDigit(d[3] / 16), HexDigit(d[3] % 16)]
    ensures HexEncode(d) == hex
  {
    assert d == d[..2] + d[2..];
    assert hex == hex[..4] + hex[4..];
    HexEncodeAppend(d[..2], d[2..]);
    HexOfPair(d[0], d[1]);
    HexOfPair(d[2], d[3]);
  }

  lemma HexOfPair(x: Byte, y: Byte)
    ensures HexEncode([x, y]) == [HexDigit(x / 16), HexDigit(x % 16), HexDigit(y / 16), HexDigit(y % 16)]
  {
    assert [x, y][1..] == [y];
  }

  /** Encoding works byte by byte: the hex of a concatenation is the concatenation of the hex. */
  lemma {:induction false} HexEncodeAppend(a: Str, b: Str)
    ensures HexEncode(a + b) == HexEncode(a) + HexEncode(b)
  {
    if a != [] {
      assert (a + b)[1..] == a[1..] + b;
      HexEncodeAppend(a[1..], b);
    } else {
      assert a + b == b;
    }
  }

  // --------------------------------------------------------------- membership

  /**
   * Contains: whether some element of the slice equals lookup up to case; the
   * elements are tried in order and the first match decides.
   */
  function Contains(slice: seq<Str>, lookup: Str): (r: bool)
    ensures r <==> exists i | 0 <= i < |slice| :: EqualFold(slice[i], lookup)
  {
    if slice == [] then false
    else if EqualFold(slice[0], lookup) then true
    else
      var rest := Contains(slice[1..], lookup);
      assert forall i | 1 <= i < |slice| :: slice[i] == slice[1..][i - 1];
      rest
  }

  lemma ContainsEmpty(lookup: Str)
    ensures !Contains([], lookup)
  {
  }

  /** Contains(["A", "B"], "A") and not Contains(["A", "B"], "C"). */
  lemma ContainsVectors()
    ensures Contains([Lit("A"), Lit("B")], Lit("A"))
    ensures !Contains([Lit("A"), Lit("B")], Lit("C"))
  {
    assert EqualFold(Lit("A"), Lit("A"));
    assert ToLower(Lit("B")[0]) != ToLower(Lit("C")[0]);
  }

  /** The comparison folds case: "IMAGE/JPEG" matches "image/jpeg". */
  lemma ContainsFoldsCase()
    ensures Contains([Lit("image/jpeg")], Lit("IMAGE/JPEG"))
    ensures Lit("image/jpeg") != Lit("IMAGE/JPEG")
  {
    var a, b := Lit("image/jpeg"), Lit("IMAGE/JPEG");
    assert forall i | 0 <= i < |a| :: ToLower(a[i]) == ToLower(b[i]);
    assert a[0] != b[0];
  }
}
