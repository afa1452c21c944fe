/** Bytes: big-endian numbers and hexadecimal text. */
module Bytes {
  import opened Wrappers

  type byte = x: int | 0 <= x < 256
  type Bytes = seq<byte>

  // ----- big-endian numbers -----

  function Pow256(n: nat): nat {
    if n == 0 then 1 else 256 * Pow256(n - 1)
  }

  /** The low `width` bytes of a number, most significant first. */
  function ToBigEndian(n: nat, width: nat): (bytes: Bytes)
    ensures |bytes| == width
  {
    if width == 0 then [] else ToBigEndian(n / 256, width - 1) + [n % 256]
  }

  function FromBigEndian(bytes: Bytes): nat {
    if bytes == [] then 0 else 256 * FromBigEndian(bytes[..|bytes| - 1]) + bytes[|bytes| - 1]
  }

  lemma {:induction false} BigEndianRoundTrip(n: nat, width: nat)
    requires n < Pow256(width)
    ensures FromBigEndian(ToBigEndian(n, width)) == n
  {
    if width == 0 {
    } else {
      BigEndianRoundTrip(n / 256, width - 1);
      var bytes := ToBigEndian(n, width);
      assert bytes[..|bytes| - 1] == ToBigEndian(n / 256, width - 1);
    }
  }

  /** The low byte is the number modulo 256, and the bytes before it are those of the number divided by 256: the most
      significant byte comes first. */
  lemma BigEndianOrder(n: nat, width: nat)
    requires width > 0
    ensures ToBigEndian(n, width)[width - 1] == n % 256
    ensures ToBigEndian(n, width)[..width - 1] == ToBigEndian(n / 256, width - 1)
  {
    assert ToBigEndian(n, width) == ToBigEndian(n / 256, width - 1) + [n % 256];
  }

  lemma Pow256Eight()
    ensures Pow256(8) == 0x1_0000_0000_0000_0000
  {
    assert Pow256(4) == 0x1_0000_0000;
  }

  lemma BigEndianInjective(m: nat, n: nat)
    requires m <= 0xFFFF_FFFF_FFFF_FFFF && n <= 0xFFFF_FFFF_FFFF_FFFF
    ensures ToBigEndian(m, 8) == ToBigEndian(n, 8) <==> m == n
  {
    Pow256Eight();
    BigEndianRoundTrip(m, 8);
    BigEndianRoundTrip(n, 8);
  }

  // ----- hexadecimal text -----

  /** The value of a digit in either case. */
  function HexValue(c: char): Option<nat> {
    if '0' <= c <= '9' then Some(c as int - '0' as int)
    else if 'a' <= c <= 'f' then Some(c as int - 'a' as int + 10)
    else if 'A' <= c <= 'F' then Some(c as int - 'A' as int + 10)
    else None
  }

  function HexDigit(d: nat): (c: char)
    requires d < 16
    ensures HexValue(c) == Some(d)
  {
    if d < 10 then '0' + d as char else 'a' + (d - 10) as char
  }

  function EncodeHex(bytes: Bytes): string {
    if bytes == [] then "" else [HexDigit(bytes[0] / 16), HexDigit(bytes[0] % 16)] + EncodeHex(bytes[1..])
  }

  /** `hex::decode`: pairs of digits in either case, nothing else. */
  function DecodeHex(s: string): Option<Bytes> {
    if s == "" then Some([])
    else if |s| == 1 then None
    else
      match (HexValue(s[0]), HexValue(s[1]), DecodeHex(s[2..]))
      case (Some(hi), Some(lo), Some(rest)) => (if hi < 16 && lo < 16 then Some([16 * hi + lo] + rest) else None)
      case _ => None
  }

  /** The high digit comes first, in either case; half a byte is refused. */
  lemma HexExamples()
    ensures EncodeHex([10, 255]) == "0aff" && DecodeHex("0aFf") == Some([10, 255])
    ensures DecodeHex("0").None? && DecodeHex("0g").None?
  {
    assert [10, 255][1..] == [255] && [255][1..] == [];
    assert HexDigit(0) == '0' && HexDigit(10) == 'a' && HexDigit(15) == 'f';
    assert EncodeHex([255]) == "ff" + EncodeHex([]);
    assert "0aFf"[2..] == "Ff" && "Ff"[2..] == "" && "0g"[2..] == "";
    var high, low: Bytes := [255], [10];
    assert DecodeHex("") == Some([]) && HexValue('F') == Some(15) && high + [] == high && low + high == [10, 255];
    assert DecodeHex("Ff") == Some(high);
  }

  lemma {:induction false} HexRoundTrip(bytes: Bytes)
    ensures DecodeHex(EncodeHex(bytes)) == Some(bytes)
  {
    if bytes == [] {
    } else {
      var s := EncodeHex(bytes);
      HexRoundTrip(bytes[1..]);
      assert s[0] == HexDigit(bytes[0] / 16) && s[1] == HexDigit(bytes[0] % 16);
      assert s[2..] == EncodeHex(bytes[1..]);
      assert bytes == [bytes[0]] + bytes[1..];
    }
  }
}
