// Big-endian byte strings: the integer encodings used in deposit and proposal data.
module Bytes {
  import opened Words

  type Bytes = seq<byte>

  function Pow256(width: nat): (p: nat)
    ensures p > 0
  {
    if width == 0 then 1 else 256 * Pow256(width - 1)
  }

  function ToBytes(n: nat, width: nat): (b: Bytes)
    ensures |b| == width
  {
    if width == 0 then [] else ToBytes(n / 256, width - 1) + [n % 256]
  }

  function FromBytes(b: Bytes): nat {
    if |b| == 0 then 0 else 256 * FromBytes(b[..|b| - 1]) + b[|b| - 1]
  }

  lemma {:induction false} FromToBytes(n: nat, width: nat)
    requires n < Pow256(width)
    ensures FromBytes(ToBytes(n, width)) == n
  {
    if width > 0 {
      FromToBytes(n / 256, width - 1);
      var b := ToBytes(n, width);
      assert b[..|b| - 1] == ToBytes(n / 256, width - 1);
    }
  }

  lemma {:induction false} FromBytesBound(b: Bytes)
    ensures FromBytes(b) < Pow256(|b|)
  {
    if |b| > 0 {
      FromBytesBound(b[..|b| - 1]);
    }
  }

  lemma WordWidths()
    ensures Pow256(20) == TWO_160 && Pow256(32) == TWO_256
  {
    assert Pow256(8) == TWO_64;
    assert Pow256(16) == TWO_64 * TWO_64;
    assert Pow256(20) == 0x1_0000_0000 * Pow256(16);
    assert Pow256(24) == TWO_64 * Pow256(16);
    assert Pow256(32) == TWO_64 * Pow256(24);
  }

  // An address as the 20 bytes that are hashed in front of proposal data.
  function AddressBytes(a: Address): (b: Bytes)
    ensures |b| == 20
  {
    ToBytes(a, 20)
  }

  // Packing a 20-byte address in front of data loses nothing.
  lemma PackedInjective(a: Address, x: Bytes, b: Address, y: Bytes)
    requires AddressBytes(a) + x == AddressBytes(b) + y
    ensures a == b && x == y
  {
    var p, q := AddressBytes(a) + x, AddressBytes(b) + y;
    assert p[..20] == AddressBytes(a) && q[..20] == AddressBytes(b);
    assert p[20..] == x && q[20..] == y;
    WordWidths();
    FromToBytes(a, 20);
    FromToBytes(b, 20);
  }
}
