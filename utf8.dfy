/**
 * The part of UTF-8 the refresh server's wire protocol uses: both commands
 * are ASCII text, and an ASCII character is one byte holding its code.
 */
module Utf8 {
  import opened Wrappers

  newtype byte = x: int | 0 <= x < 0x100

  predicate IsAscii(s: string)
  {
    forall i :: 0 <= i < |s| ==> s[i] as int < 0x80
  }

  /** `Encoding.UTF8.GetBytes(s)` for ASCII text: one byte per character, equal to its code. */
  function EncodeAscii(s: string): (b: seq<byte>)
    requires IsAscii(s)
    ensures |b| == |s|
    ensures forall i :: 0 <= i < |s| ==> b[i] as int == s[i] as int
    ensures forall i :: 0 <= i < |b| ==> b[i] < 0x80
  {
    if s == [] then [] else [s[0] as int as byte] + EncodeAscii(s[1..])
  }

  /**
   * What a UTF-8 decoder reads from bytes that are all single-byte
   * sequences; `None` as soon as a byte of a multi-byte sequence appears.
   */
  function DecodeAscii(b: seq<byte>): (text: Option<string>)
    ensures text.Some? ==> |text.value| == |b| && IsAscii(text.value)
  {
    if b == [] then Some([])
    else if b[0] >= 0x80 then None
    else match DecodeAscii(b[1..])
      case None => None
      case Some(t) => Some([b[0] as int as char] + t)
  }

  /** A receiver decoding the bytes of an ASCII text gets the text back. */
  lemma {:induction false} AsciiRoundTrip(s: string)
    requires IsAscii(s)
    ensures DecodeAscii(EncodeAscii(s)) == Some(s)
  {
    if s != [] {
      var b := EncodeAscii(s);
      assert b[1..] == EncodeAscii(s[1..]);
      AsciiRoundTrip(s[1..]);
      assert [s[0]] + s[1..] == s;
    }
  }
}
