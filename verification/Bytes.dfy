/** Octets, and unsigned integers in network byte order. */
module Bytes {
  newtype byte = n: int | 0 <= n < 256

  type Bytes = seq<byte>

  function Be16(n: nat): (b: Bytes)
    requires n < 0x1_0000
    ensures |b| == 2 && FromBe16(b[0], b[1]) == n
  {
    [(n / 0x100) as byte, (n % 0x100) as byte]
  }

  function FromBe16(hi: byte, lo: byte): (n: nat)
    ensures n < 0x1_0000
  {
    hi as nat * 0x100 + lo as nat
  }

  function Be32(n: nat): (b: Bytes)
    requires n < 0x1_0000_0000
    ensures |b| == 4 && FromBe32(b[0], b[1], b[2], b[3]) == n
  {
    Be16(n / 0x1_0000) + Be16(n % 0x1_0000)
  }

  function FromBe32(b0: byte, b1: byte, b2: byte, b3: byte): (n: nat)
    ensures n < 0x1_0000_0000
  {
    FromBe16(b0, b1) * 0x1_0000 + FromBe16(b2, b3)
  }

  /** Two octets are the encoding of the number they spell. */
  lemma Be16OfFrom(hi: byte, lo: byte)
    ensures Be16(FromBe16(hi, lo)) == [hi, lo]
  {
  }

  lemma Halves(hi: nat, lo: nat)
    requires lo < 0x1_0000
    ensures (hi * 0x1_0000 + lo) / 0x1_0000 == hi && (hi * 0x1_0000 + lo) % 0x1_0000 == lo
  {
  }

  lemma Be32OfFrom(b0: byte, b1: byte, b2: byte, b3: byte)
    ensures Be32(FromBe32(b0, b1, b2, b3)) == [b0, b1] + [b2, b3]
  {
    var hi, lo := FromBe16(b0, b1), FromBe16(b2, b3);
    var n := FromBe32(b0, b1, b2, b3);
    Halves(hi, lo);
    assert n / 0x1_0000 == hi && n % 0x1_0000 == lo;
    assert Be32(n) == Be16(hi) + Be16(lo);
    Be16OfFrom(b0, b1);
    Be16OfFrom(b2, b3);
  }
}
