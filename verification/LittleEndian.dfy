/** Fixed-width little-endian fields, as memcpy reads and writes them. */
module LittleEndian {

  type Byte = x: int | 0 <= x < 256

  function Power(width: nat): nat { if width == 0 then 1 else 256 * Power(width - 1) }

  function Decode(s: seq<Byte>): nat {
    if s == [] then 0 else s[0] + 256 * Decode(s[1..])
  }

  function Encode(n: nat, width: nat): (s: seq<Byte>)
    ensures |s| == width
  {
    if width == 0 then [] else [n % 256] + Encode(n / 256, width - 1)
  }

  /** The field of `width` bytes at `at`. */
  function Field(s: seq<Byte>, at: nat, width: nat): nat
    requires at + width <= |s|
  {
    Decode(s[at..at + width])
  }

  /** A value that fits its width comes back. */
  lemma {:induction false} RoundTrip(n: nat, width: nat)
    requires n < Power(width)
    ensures Decode(Encode(n, width)) == n
  {
    if width > 0 {
      assert Encode(n, width)[1..] == Encode(n / 256, width - 1);
      RoundTrip(n / 256, width - 1);
    }
  }

  lemma Powers()
    ensures Power(1) == 0x100 && Power(2) == 0x1_0000 && Power(4) == 0x1_0000_0000
    ensures Power(8) == 0x1_0000_0000_0000_0000
  {
    assert Power(3) == 256 * Power(2) && Power(4) == 256 * Power(3);
    assert Power(5) == 256 * Power(4) && Power(6) == 256 * Power(5);
    assert Power(7) == 256 * Power(6) && Power(8) == 256 * Power(7);
  }

  lemma {:induction false} DecodeBound(s: seq<Byte>)
    ensures Decode(s) < Power(|s|)
  {
    if s != [] { DecodeBound(s[1..]); }
  }

  /** And so do the bytes of any field. */
  lemma {:induction false} EncodeDecode(s: seq<Byte>)
    ensures Encode(Decode(s), |s|) == s
  {
    if s != [] {
      EncodeDecode(s[1..]);
      assert Decode(s) % 256 == s[0] && Decode(s) / 256 == Decode(s[1..]);
      assert s == [s[0]] + s[1..];
    }
  }
}
