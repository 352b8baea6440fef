/** The PIN digest as the three PIN components compute it (`hashPin`): the UTF-8
    bytes of the PIN are hashed with SHA-256 and every byte of the digest is
    written as two lower-case hexadecimal characters. The three copies of
    `hashPin` are identical and are modelled once here. */
module Hex {
  import opened Common

  /** TextEncoder followed by `crypto.subtle.digest('SHA-256', ...)`. The hash
      itself is not modelled: it is any deterministic function of the PIN text,
      handed to every operation that hashes. */
  type Digest = string -> seq<Byte>

  predicate IsLowerHex(c: char) {
    '0' <= c <= '9' || 'a' <= c <= 'f'
  }

  function HexDigit(d: nat): (c: char)
    requires d < 16
    ensures IsLowerHex(c)
  {
    if d < 10 then ('0' as int + d) as char else ('a' as int + d - 10) as char
  }

  /** `n.toString(16)`: base-16 text without leading zeros. */
  function ToHexString(n: nat): (s: string)
    ensures 1 <= |s|
    decreases n
  {
    if n < 16 then [HexDigit(n)] else ToHexString(n / 16) + [HexDigit(n % 16)]
  }

  /** The two hexadecimal characters of a byte, high nibble first. */
  function ByteToHex(b: Byte): (r: string)
    ensures |r| == 2 && IsLowerHex(r[0]) && IsLowerHex(r[1])
  {
    [HexDigit(b / 16), HexDigit(b % 16)]
  }

  /** `b.toString(16).padStart(2, '0')` as the source writes it: a byte below
      16 gets its leading '0' from the padding, so the result is always the
      two-nibble form above. */
  lemma PaddedHexIsTwoNibbles(b: Byte)
    ensures PadStart(ToHexString(b), 2, '0') == ByteToHex(b)
  {
    if b < 16 {
      assert ToHexString(b) == [HexDigit(b)];
      assert HexDigit(b / 16) == '0';
    } else {
      assert ToHexString(b / 16) == [HexDigit(b / 16)];
    }
  }

  predicate AllLowerHex(s: string) {
    forall i :: 0 <= i < |s| ==> IsLowerHex(s[i])
  }

  lemma AllLowerHexConcat(a: string, b: string)
    requires AllLowerHex(a) && AllLowerHex(b)
    ensures AllLowerHex(a + b)
  {
    forall i | 0 <= i < |a + b| ensures IsLowerHex((a + b)[i]) {
      if i < |a| { assert (a + b)[i] == a[i]; } else { assert (a + b)[i] == b[i - |a|]; }
    }
  }

  /** `hashArray.map(b => b.toString(16).padStart(2, '0')).join('')` */
  function Encode(bytes: seq<Byte>): (r: string)
    ensures |r| == 2 * |bytes|
    ensures AllLowerHex(r)
  {
    if bytes == [] then ""
    else
      var head, tail := ByteToHex(bytes[0]), Encode(bytes[1..]);
      AllLowerHexConcat(head, tail);
      head + tail
  }

  /** The characters of the i-th digest byte sit at positions 2i and 2i+1. */
  lemma {:induction false} EncodeAt(bytes: seq<Byte>, i: nat)
    requires i < |bytes|
    ensures Encode(bytes)[2 * i..2 * i + 2] == ByteToHex(bytes[i])
  {
    if i > 0 {
      EncodeAt(bytes[1..], i - 1);
      var tail := Encode(bytes[1..]);
      assert Encode(bytes) == ByteToHex(bytes[0]) + tail;
      assert Encode(bytes)[2 * i..2 * i + 2] == tail[2 * (i - 1)..2 * (i - 1) + 2];
    }
  }

  function HexValue(c: char): (r: Option<nat>)
    ensures r.Some? <==> IsLowerHex(c)
    ensures r.Some? ==> r.value < 16
  {
    if '0' <= c <= '9' then Some(c as int - '0' as int)
    else if 'a' <= c <= 'f' then Some(c as int - 'a' as int + 10)
    else None
  }

  lemma HexValueOfDigit(d: nat)
    requires d < 16
    ensures HexValue(HexDigit(d)) == Some(d)
  {
  }

  /** The inverse of `Encode`: reads an even-length lower-case hexadecimal text
      back into bytes. */
  function Decode(s: string): (r: Option<seq<Byte>>)
    ensures r.Some? ==> 2 * |r.value| == |s|
    decreases |s|
  {
    if |s| == 0 then Some([])
    else if |s| == 1 then None
    else
      match (HexValue(s[0]), HexValue(s[1]), Decode(s[2..]))
      case (Some(hi), Some(lo), Some(rest)) => Some([(hi * 16 + lo) as Byte] + rest)
      case _ => None
  }

  /** Decoding undoes encoding, for every byte sequence. */
  lemma {:induction false} DecodeEncode(bytes: seq<Byte>)
    ensures Decode(Encode(bytes)) == Some(bytes)
  {
    if bytes != [] {
      var b := bytes[0];
      var s := Encode(bytes);
      var hi, lo := b / 16, b % 16;
      assert s == [HexDigit(hi), HexDigit(lo)] + Encode(bytes[1..]);
      assert s[2..] == Encode(bytes[1..]);
      HexValueOfDigit(hi);
      HexValueOfDigit(lo);
      DecodeEncode(bytes[1..]);
      assert hi * 16 + lo == b;
      assert [b] + bytes[1..] == bytes;
    }
  }

  /** Distinct digests give distinct texts. */
  lemma EncodeInjective(a: seq<Byte>, b: seq<Byte>)
    ensures Encode(a) == Encode(b) <==> a == b
  {
    DecodeEncode(a);
    DecodeEncode(b);
  }

  /** `hashPin(pin)` */
  function HashPin(digest: Digest, pin: string): (r: string)
    ensures |r| == 2 * |digest(pin)|
    ensures |digest(pin)| == 32 ==> |r| == 64
    ensures AllLowerHex(r)
  {
    Encode(digest(pin))
  }

  /** Two PINs hash to the same text exactly when their digests agree. */
  lemma HashPinEqual(digest: Digest, p: string, q: string)
    ensures HashPin(digest, p) == HashPin(digest, q) <==> digest(p) == digest(q)
  {
    EncodeInjective(digest(p), digest(q));
  }
}
