/** Lower-case hexadecimal text, as Go's `encoding/hex` writes it and as
    go-ethereum's `hexutil.Encode` writes it with a `0x` prefix. */
module Hex {
  import opened Base

  predicate IsDigit(c: char) { '0' <= c <= '9' || 'a' <= c <= 'f' }

  /** The lower-case digit of a nibble. */
  function Digit(n: nat): (c: char)
    requires n < 16
    ensures IsDigit(c) && DigitValue(c) == Some(n)
  {
    if n < 10 then ('0' as int + n) as char else ('a' as int + n - 10) as char
  }

  function DigitValue(c: char): (v: Option<nat>)
    ensures v.Some? <==> IsDigit(c)
    ensures v.Some? ==> v.value < 16
  {
    if '0' <= c <= '9' then Some(c as int - '0' as int)
    else if 'a' <= c <= 'f' then Some(c as int - 'a' as int + 10)
    else None
  }

  /** `hex.EncodeToString`: two lower-case digits per byte, high nibble first. */
  function Encode(bs: seq<uint8>): (s: string)
    ensures |s| == 2 * |bs|
    ensures forall i :: 0 <= i < |s| ==> IsDigit(s[i])
  {
    if bs == [] then []
    else [Digit(bs[0] / 16), Digit(bs[0] % 16)] + Encode(bs[1..])
  }

  /** The lower-case decoder the round trip with `Encode` needs: None for an
      odd length or a character that is not a lower-case hex digit. Unlike
      `hex.DecodeString`, it refuses the upper-case digits `A`-`F`. */
  function Decode(s: string): Option<seq<uint8>>
    decreases |s|
  {
    if s == [] then Some([])
    else if |s| == 1 then None
    else
      match (DigitValue(s[0]), DigitValue(s[1]), Decode(s[2..]))
      case (Some(hi), Some(lo), Some(rest)) => Some([hi * 16 + lo] + rest)
      case _ => None
  }

  /** Decoding undoes encoding, byte for byte. */
  lemma {:induction false} DecodeEncode(bs: seq<uint8>)
    ensures Decode(Encode(bs)) == Some(bs)
  {
    if bs != [] {
      var s := Encode(bs);
      assert s[2..] == Encode(bs[1..]);
      DecodeEncode(bs[1..]);
      assert bs[0] / 16 * 16 + bs[0] % 16 == bs[0];
      assert [bs[0]] + bs[1..] == bs;
    }
  }

  /** `hexutil.Encode`: the hex text of the bytes after a `0x` prefix. */
  function PrefixedEncode(bs: seq<uint8>): (s: string)
    ensures |s| == 2 + 2 * |bs| && s[..2] == "0x"
    ensures forall i :: 2 <= i < |s| ==> IsDigit(s[i])
  {
    "0x" + Encode(bs)
  }
}
