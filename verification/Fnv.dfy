/** FNV-1a, 32 bits (crates/grimoire-gateway/src/discovery.rs). */
module Fnv {
  import opened Common

  type Bytes = seq<byte>

  const OFFSET: u32 := 0x811c_9dc5
  const PRIME: u32 := 0x0100_0193
  const PRIME_INVERSE: u32 := 0x359c_449b

  /** Bitwise exclusive or. */
  function Xor(a: nat, b: nat): nat
    decreases a + b
  {
    if a == 0 && b == 0 then 0 else (a + b) % 2 + 2 * Xor(a / 2, b / 2)
  }

  lemma XorHalves(a: nat, b: nat)
    ensures Xor(a, b) / 2 == Xor(a / 2, b / 2)
    ensures Xor(a, b) % 2 == (a + b) % 2
  {}

  lemma {:induction false} XorUndone(a: nat, b: nat)
    ensures Xor(Xor(a, b), b) == a
    decreases a + b
  {
    if a != 0 || b != 0 {
      var x := Xor(a, b);
      XorHalves(a, b);
      XorHalves(x, b);
      XorUndone(a / 2, b / 2);
      ParityUndone(a, b, x);
    }
  }

  lemma ParityUndone(a: nat, b: nat, x: nat)
    requires x % 2 == (a + b) % 2
    ensures (x + b) % 2 == a % 2
  {}

  lemma {:induction false} XorCommutes(a: nat, b: nat)
    ensures Xor(a, b) == Xor(b, a)
    decreases a + b
  {
    if a != 0 || b != 0 { XorCommutes(a / 2, b / 2); }
  }

  function Pow2(k: nat): nat {
    if k == 0 then 1 else 2 * Pow2(k - 1)
  }

  lemma {:induction false} XorFits(a: nat, b: nat, k: nat)
    requires a < Pow2(k) && b < Pow2(k)
    ensures Xor(a, b) < Pow2(k)
    decreases k
  {
    if k > 0 && (a != 0 || b != 0) { XorFits(a / 2, b / 2, k - 1); }
  }

  function Xor32(a: u32, b: u32): (x: u32)
    ensures x == Xor(a, b)
  {
    assert Pow2(32) == TWO_32 by { Pow2Is32(); }
    XorFits(a, b, 32);
    Xor(a, b)
  }

  lemma Pow2Is32()
    ensures Pow2(32) == TWO_32
  {
    assert Pow2(8) == 0x100;
    assert Pow2(16) == 0x1_0000;
    assert Pow2(24) == 0x100_0000;
  }

  function WrappingMul(a: u32, b: u32): u32 {
    (a as int * b) % TWO_32
  }

  function Mix(h: u32, b: byte): u32 {
    WrappingMul(Xor32(h, b), PRIME)
  }

  function HashFrom(h: u32, s: Bytes): u32
    decreases |s|
  {
    if s == [] then h else HashFrom(Mix(h, s[0]), s[1..])
  }

  function Hash(s: Bytes): u32 {
    HashFrom(OFFSET, s)
  }

  // ----- The function in plain numbers -----

  /** The i-th binary digit. */
  function Bit(a: nat, i: nat): nat
    decreases i
  {
    if i == 0 then a % 2 else Bit(a / 2, i - 1)
  }

  /** A digit of the exclusive or is set exactly where the two digits differ. */
  lemma {:induction false} XorByBits(a: nat, b: nat, i: nat)
    ensures Bit(Xor(a, b), i) == if Bit(a, i) != Bit(b, i) then 1 else 0
    decreases i
  {
    XorHalves(a, b);
    if i == 0 {
      ParityOfSum(a, b);
    } else {
      XorByBits(a / 2, b / 2, i - 1);
      BitOfHalf(a, i);
      BitOfHalf(b, i);
      BitOfHalf(Xor(a, b), i);
    }
  }

  lemma ParityOfSum(a: nat, b: nat)
    ensures (a + b) % 2 == if a % 2 != b % 2 then 1 else 0
  {}

  lemma BitOfHalf(a: nat, i: nat)
    requires i > 0
    ensures Bit(a, i) == Bit(a / 2, i - 1)
  {}

  /** The empty text hashes to the offset basis; one byte more is xored in, the result multiplied by
      16777619, and 32 bits kept. */
  lemma HashOneMore(s: Bytes, b: byte)
    ensures Hash([]) == 0x811c_9dc5
    ensures Hash(s + [b]) == (Xor(Hash(s), b) * 16_777_619) % 0x1_0000_0000
  {
    HashOfConcat(OFFSET, s, [b]);
    assert [b][1..] == [];
    assert HashFrom(Hash(s), [b]) == HashFrom(Mix(Hash(s), b), [b][1..]);
  }

  method Fnv1a(bytes: Bytes) returns (h: u32)
    ensures h == Hash(bytes)
  {
    h := OFFSET;
    var i := 0;
    while i < |bytes|
      invariant 0 <= i <= |bytes|
      invariant HashFrom(h, bytes[i..]) == Hash(bytes)
    {
      assert bytes[i..][1..] == bytes[i + 1..];
      h := Xor32(h, bytes[i]);
      h := WrappingMul(h, PRIME);
      i := i + 1;
    }
  }

  // ----- Nothing is lost in a round, so near keys separate -----

  /** Multiplying by the prime is undone by its inverse modulo 2^32. */
  lemma MultiplyUndone(x: u32)
    ensures WrappingMul(WrappingMul(x, PRIME), PRIME_INVERSE) == x
  {
    var p, q: int := PRIME, PRIME_INVERSE;
    var t := (p * q) / TWO_32;
    assert p * q == TWO_32 * t + 1;
    var k := (x * p) / TWO_32;
    var r := (x * p) % TWO_32;
    assert r * q == TWO_32 * (x * t - k * q) + x;
  }

  /** A round keeps two different states apart. */
  lemma MixKeepsStates(h: u32, g: u32, b: byte)
    requires h != g
    ensures Mix(h, b) != Mix(g, b)
  {
    XorUndone(h, b);
    XorUndone(g, b);
    MultiplyUndone(Xor32(h, b));
    MultiplyUndone(Xor32(g, b));
  }

  /** A round keeps two different input bytes apart. */
  lemma MixKeepsBytes(h: u32, b: byte, c: byte)
    requires b != c
    ensures Mix(h, b) != Mix(h, c)
  {
    XorCommutes(h, b);
    XorCommutes(h, c);
    XorUndone(b, h);
    XorUndone(c, h);
    MultiplyUndone(Xor32(h, b));
    MultiplyUndone(Xor32(h, c));
  }

  lemma {:induction false} DifferentStatesStayApart(h: u32, g: u32, s: Bytes)
    requires h != g
    ensures HashFrom(h, s) != HashFrom(g, s)
    decreases |s|
  {
    if s != [] {
      MixKeepsStates(h, g, s[0]);
      DifferentStatesStayApart(Mix(h, s[0]), Mix(g, s[0]), s[1..]);
    }
  }

  lemma {:induction false} HashOfConcat(h: u32, s: Bytes, t: Bytes)
    ensures HashFrom(h, s + t) == HashFrom(HashFrom(h, s), t)
    decreases |s|
  {
    if s == [] {
      assert s + t == t;
    } else {
      assert (s + t)[1..] == s[1..] + t;
      HashOfConcat(Mix(h, s[0]), s[1..], t);
    }
  }

  /** Two byte strings of one length that differ in exactly one position never hash alike. */
  lemma NearKeysSeparate(s: Bytes, t: Bytes, k: nat)
    requires |s| == |t| && k < |s| && s[k] != t[k]
    requires s[..k] == t[..k] && s[k + 1..] == t[k + 1..]
    ensures Hash(s) != Hash(t)
  {
    var tail := s[k + 1..];
    assert s == s[..k] + ([s[k]] + tail);
    assert t == s[..k] + ([t[k]] + tail);
    HashOfConcat(OFFSET, s[..k], [s[k]] + tail);
    HashOfConcat(OFFSET, s[..k], [t[k]] + tail);
    var h := HashFrom(OFFSET, s[..k]);
    MixKeepsBytes(h, s[k], t[k]);
    DifferentStatesStayApart(Mix(h, s[k]), Mix(h, t[k]), tail);
  }
}
