/** Optional values, and fixed-width integers with their big-endian byte form. */
module Common {
  datatype Option<+T> = None | Some(value: T)

  type byte = b: int | 0 <= b < 0x100
  type u32 = n: int | 0 <= n < 0x1_0000_0000

  const TWO_32 := 0x1_0000_0000

  function ToBe32(n: u32): (s: seq<byte>)
    ensures |s| == 4
  {
    var hi := n / 0x1_0000;
    var lo := n % 0x1_0000;
    [hi / 0x100, hi % 0x100, lo / 0x100, lo % 0x100]
  }

  function FromBe32(s: seq<byte>): (n: u32)
    requires |s| == 4
  {
    var hi: int := (s[0] as int) * 0x100 + s[1];
    var lo: int := (s[2] as int) * 0x100 + s[3];
    hi * 0x1_0000 + lo
  }

  /** The number whose four bytes, most significant first, stand at position i. */
  function BigEndianAt(s: seq<byte>, i: nat): int
    requires i + 4 <= |s|
  {
    (s[i] as int) * 0x100_0000 + (s[i + 1] as int) * 0x1_0000 + (s[i + 2] as int) * 0x100 + s[i + 3] as int
  }

  lemma ReadsBigEndian(s: seq<byte>)
    requires |s| == 4
    ensures FromBe32(s) == BigEndianAt(s, 0)
  {
  }

  lemma WritesBigEndian(n: u32)
    ensures BigEndianAt(ToBe32(n), 0) == n
  {
    Be32RoundTrip(n);
    ReadsBigEndian(ToBe32(n));
  }

  lemma Be32RoundTrip(n: u32)
    ensures FromBe32(ToBe32(n)) == n
  {
    var hi, lo := n / 0x1_0000, n % 0x1_0000;
    assert (hi / 0x100) * 0x100 + hi % 0x100 == hi;
    assert (lo / 0x100) * 0x100 + lo % 0x100 == lo;
  }

  lemma FromBe32RoundTrip(s: seq<byte>)
    requires |s| == 4
    ensures ToBe32(FromBe32(s)) == s
  {
    var n := FromBe32(s);
    var hi: int := (s[0] as int) * 0x100 + s[1];
    var lo: int := (s[2] as int) * 0x100 + s[3];
    assert n / 0x1_0000 == hi && n % 0x1_0000 == lo;
    assert hi / 0x100 == s[0] && hi % 0x100 == s[1];
    assert lo / 0x100 == s[2] && lo % 0x100 == s[3];
  }
}
