/**
 * generateRandomName: four random bytes, hex-encoded in lower case, cut to
 * the first seven characters. The bytes are a parameter: where they come
 * from (crypto/rand) is not part of the model.
 */
module RandomName {

  newtype Byte = x: int | 0 <= x < 256

  /** Number of random bytes drawn, and length of the name kept. */
  const NameBytes := 4
  const NameLength := 7

  predicate IsHexDigit(c: char) {
    '0' <= c <= '9' || 'a' <= c <= 'f'
  }

  /** The lower-case hex digit of a nibble. */
  function HexDigit(n: int): (c: char)
    requires 0 <= n < 16
    ensures IsHexDigit(c)
  {
    if n < 10 then ('0' as int + n) as char else ('a' as int + n - 10) as char
  }

  /** The nibble a lower-case hex digit stands for. */
  function DigitValue(c: char): (n: int)
    requires IsHexDigit(c)
    ensures 0 <= n < 16 && HexDigit(n) == c
  {
    if c <= '9' then c as int - '0' as int else c as int - 'a' as int + 10
  }

  /** encoding/hex.EncodeToString: two lower-case digits per byte, high nibble first. */
  function HexEncode(bs: seq<Byte>): (s: string)
    ensures |s| == 2 * |bs|
    ensures forall i :: 0 <= i < |s| ==> IsHexDigit(s[i])
  {
    if |bs| == 0 then ""
    else [HexDigit(bs[0] as int / 16), HexDigit(bs[0] as int % 16)] + HexEncode(bs[1..])
  }

  /** The inverse of HexEncode, on strings of whole lower-case hex pairs. */
  function HexDecode(s: string): (bs: seq<Byte>)
    requires |s| % 2 == 0
    requires forall i :: 0 <= i < |s| ==> IsHexDigit(s[i])
    ensures 2 * |bs| == |s|
    decreases |s|
  {
    if |s| == 0 then []
    else [(DigitValue(s[0]) * 16 + DigitValue(s[1])) as Byte] + HexDecode(s[2..])
  }

  /** Decoding an encoding gives back the bytes. */
  lemma {:induction false} DecodeEncode(bs: seq<Byte>)
    ensures HexDecode(HexEncode(bs)) == bs
  {
    if |bs| > 0 {
      var s := HexEncode(bs);
      assert s[2..] == HexEncode(bs[1..]);
      DecodeEncode(bs[1..]);
      assert DigitValue(HexDigit(bs[0] as int / 16)) == bs[0] as int / 16;
      assert DigitValue(HexDigit(bs[0] as int % 16)) == bs[0] as int % 16;
      assert [bs[0]] + bs[1..] == bs;
    }
  }

  /** Encoding a decoding gives back the hex string. */
  lemma {:induction false} EncodeDecode(s: string)
    requires |s| % 2 == 0
    requires forall i :: 0 <= i < |s| ==> IsHexDigit(s[i])
    ensures HexEncode(HexDecode(s)) == s
    decreases |s|
  {
    if |s| > 0 {
      var b := (DigitValue(s[0]) * 16 + DigitValue(s[1])) as Byte;
      var bs := HexDecode(s);
      assert bs[0] == b && bs[1..] == HexDecode(s[2..]);
      EncodeDecode(s[2..]);
      assert b as int / 16 == DigitValue(s[0]) && b as int % 16 == DigitValue(s[1]);
      assert [s[0], s[1]] + s[2..] == s;
    }
  }

  /** Encoding distributes over concatenation. */
  lemma {:induction false} EncodeAppend(xs: seq<Byte>, ys: seq<Byte>)
    ensures HexEncode(xs + ys) == HexEncode(xs) + HexEncode(ys)
  {
    if |xs| == 0 {
      assert xs + ys == ys;
    } else {
      assert (xs + ys)[1..] == xs[1..] + ys;
      EncodeAppend(xs[1..], ys);
    }
  }

  /** generateRandomName, given the four bytes crypto/rand produced. */
  function GenerateRandomName(bytes: seq<Byte>): (name: string)
    requires |bytes| == NameBytes
    ensures |name| == NameLength
    ensures forall i :: 0 <= i < |name| ==> IsHexDigit(name[i])
  {
    HexEncode(bytes)[..NameLength]
  }

  /** The name is the encoding of the first three bytes and the high nibble of the fourth. */
  lemma NameLayout(bytes: seq<Byte>)
    requires |bytes| == NameBytes
    ensures GenerateRandomName(bytes) == HexEncode(bytes[..3]) + [HexDigit(bytes[3] as int / 16)]
  {
    EncodeAppend(bytes[..3], bytes[3..]);
    assert bytes[..3] + bytes[3..] == bytes;
    assert HexEncode(bytes[3..])[0] == HexDigit(bytes[3] as int / 16);
  }

  /**
   * Two draws give the same name exactly when they agree on the first 28 bits:
   * the low nibble of the fourth byte is dropped.
   */
  lemma SameName(a: seq<Byte>, b: seq<Byte>)
    requires |a| == NameBytes && |b| == NameBytes
    ensures GenerateRandomName(a) == GenerateRandomName(b) <==>
            a[..3] == b[..3] && a[3] as int / 16 == b[3] as int / 16
  {
    NameLayout(a);
    NameLayout(b);
    if GenerateRandomName(a) == GenerateRandomName(b) {
      var na, nb := GenerateRandomName(a), GenerateRandomName(b);
      assert HexEncode(a[..3]) == na[..6] == nb[..6] == HexEncode(b[..3]);
      DecodeEncode(a[..3]);
      DecodeEncode(b[..3]);
      assert DigitValue(na[6]) == a[3] as int / 16;
      assert DigitValue(nb[6]) == b[3] as int / 16;
    }
  }
}
