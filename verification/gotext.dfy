/**
 * Go strings as the program sees them: immutable sequences of bytes.
 * `[]byte(text)` is the identity here, and `%s` formatting copies the bytes.
 */
module GoText {

  type Byte = b: int | 0 <= b < 0x100
  type Uint8 = Byte
  type Str = seq<Byte>

  const Slash: Byte := 0x2F
  const Bar: Byte := 0x7C
  const Newline: Byte := 0x0A

  /**
   * The bytes of a literal of the program. Every literal the program uses is
   * ASCII, whose characters are their own UTF-8 bytes; the reduction modulo 256
   * only keeps the function total.
   */
  function Lit(s: string): (r: Str)
    ensures |r| == |s|
    ensures forall i | 0 <= i < |s| && s[i] as int < 0x80 :: r[i] == s[i] as int
  {
    seq(|s|, i requires 0 <= i < |s| => s[i] as int % 0x100)
  }

  /** ASCII lower-casing of one byte. */
  function ToLower(b: Byte): Byte {
    if 0x41 <= b <= 0x5A then b + 0x20 else b
  }

  /** strings.EqualFold restricted to ASCII case folding. */
  predicate EqualFold(a: Str, b: Str) {
    |a| == |b| && forall i | 0 <= i < |a| :: ToLower(a[i]) == ToLower(b[i])
  }
}
