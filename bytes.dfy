/**
 * Bytes on the wire: the ISO/IEC 8859-1 (latin-1) encoding with `errors="replace"`
 * that the printer transports apply to a label string, and the ASCII-only
 * upper-casing that Python's `bytes.upper()` performs.
 */
module Bytes {
  import opened Text

  newtype byte = x: int | 0 <= x < 256

  /** The replacement byte `?` that latin-1 encoding substitutes for an unencodable character. */
  const QUESTION_MARK: byte := 0x3F

  /** One character of `s.encode("latin-1", errors="replace")`. */
  function Latin1Byte(c: char): byte
  {
    if c as int < 256 then c as int as byte else QUESTION_MARK
  }

  /** `s.encode("latin-1", errors="replace")`: one byte per character. */
  function Latin1Encode(s: string): (b: seq<byte>)
    ensures |b| == |s|
    ensures forall i :: 0 <= i < |s| ==> b[i] == Latin1Byte(s[i])
  {
    seq(|s|, i requires 0 <= i < |s| => Latin1Byte(s[i]))
  }

  /** `b.decode("latin-1")`: every byte is the character with the same code. */
  function Latin1Decode(b: seq<byte>): (s: string)
    ensures |s| == |b|
    ensures forall i :: 0 <= i < |b| ==> s[i] as int == b[i] as int
  {
    seq(|b|, i requires 0 <= i < |b| => b[i] as int as char)
  }

  /** Every byte string survives decoding and re-encoding unchanged. */
  lemma EncodeDecode(b: seq<byte>)
    ensures Latin1Encode(Latin1Decode(b)) == b
  {
  }

  /** A string survives encoding exactly when all its characters are below 256. */
  lemma DecodeEncode(s: string)
    ensures Latin1Decode(Latin1Encode(s)) == s <==> forall i :: 0 <= i < |s| ==> s[i] as int < 256
  {
    var t := Latin1Decode(Latin1Encode(s));
    if t == s {
      forall i | 0 <= i < |s| ensures s[i] as int < 256 {
        assert t[i] == s[i];
      }
    } else {
      var i :| 0 <= i < |s| && t[i] != s[i];
      assert s[i] as int >= 256;
    }
  }

  /** Encoding commutes with concatenation. */
  lemma EncodeAppend(a: string, b: string)
    ensures Latin1Encode(a + b) == Latin1Encode(a) + Latin1Encode(b)
  {
  }

  /** `bytes.upper()`: only the ASCII letters a-z change. */
  function UpperByte(b: byte): byte
  {
    if 0x61 <= b <= 0x7A then b - 0x20 else b
  }

  function UpperBytes(b: seq<byte>): (r: seq<byte>)
    ensures |r| == |b|
    ensures forall i :: 0 <= i < |b| ==> r[i] == UpperByte(b[i])
  {
    seq(|b|, i requires 0 <= i < |b| => UpperByte(b[i]))
  }
}
