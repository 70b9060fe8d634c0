/** Bytes and unsigned 32-bit words in big-endian order. */
module ByteStrings {
  newtype byte = x: int | 0 <= x < 256

  type Bytes = seq<byte>

  const WORD_LIMIT := 0x1_0000_0000

  type Word = x: int | 0 <= x < WORD_LIMIT

  function PutWord(w: Word): (b: Bytes)
    ensures |b| == 4
  {
    var high := w / 256;
    var higher := high / 256;
    [(higher / 256) as byte, (higher % 256) as byte, (high % 256) as byte, (w % 256) as byte]
  }

  function GetWord(b: Bytes): (w: Word)
    requires |b| == 4
  {
    ((b[0] as int * 256 + b[1] as int) * 256 + b[2] as int) * 256 + b[3] as int
  }

  lemma WordRoundTrip(w: Word)
    ensures GetWord(PutWord(w)) == w
  {
  }

  lemma Digit(high: nat, low: byte)
    ensures (high * 256 + low as int) / 256 == high && (high * 256 + low as int) % 256 == low as int
  {
  }

  lemma ByteRoundTrip(b: Bytes)
    requires |b| == 4
    ensures PutWord(GetWord(b)) == b
  {
    Digit((b[0] as int * 256 + b[1] as int) * 256 + b[2] as int, b[3]);
    Digit(b[0] as int * 256 + b[1] as int, b[2]);
    Digit(b[0] as int, b[1]);
  }
}
