/** Machine words of the device: bytes, 32-bit numbers, and their little-endian layout. */
module Words {
  const U32_SIZE: int := 0x1_0000_0000
  const U64_SIZE: int := 0x1_0000_0000_0000_0000

  type u8 = x: int | 0 <= x < 0x100
  type u32 = x: int | 0 <= x < 0x1_0000_0000
  type u64 = x: int | 0 <= x < 0x1_0000_0000_0000_0000

  /** A 32-bit subtraction, which wraps around. */
  function Sub32(a: u32, b: u32): u32 {
    if a >= b then a - b else a - b + U32_SIZE
  }

  /** A number stored in 32 bits, which wraps around. */
  function Low32(n: nat): u32 {
    if n < U32_SIZE then n else n % U32_SIZE
  }

  /** A 32-bit addition, which wraps around. */
  function Add32(a: nat, b: nat): u32 {
    Low32(a + b)
  }

  /** The low `k` bytes of a number, least significant first. */
  function Digits(n: nat, k: nat): (b: seq<u8>)
    ensures |b| == k
  {
    if k == 0 then [] else [n % 0x100] + Digits(n / 0x100, k - 1)
  }

  /** The four bytes of a number in memory. */
  function Pack(n: u32): (b: seq<u8>)
    ensures |b| == 4
  {
    Digits(n, 4)
  }

  /** `mol_unpack_number`: the number stored in four bytes. */
  function Unpack(b: seq<u8>): u32
    requires |b| == 4
  {
    var (b0: int, b1: int, b2: int, b3: int) := (b[0], b[1], b[2], b[3]);
    b0 + 0x100 * (b1 + 0x100 * (b2 + 0x100 * b3))
  }

  /** The number that bytes stand for, least significant first. */
  function LittleEndian(b: seq<u8>): nat {
    if b == [] then 0 else b[0] + 0x100 * LittleEndian(b[1..])
  }

  /** 256 to the `k`-th. */
  function Radix(k: nat): (p: nat)
    ensures p > 0
  {
    if k == 0 then 1 else 0x100 * Radix(k - 1)
  }

  /** The digits of a number that fits stand for it. */
  lemma {:induction false} DigitsStand(n: nat, k: nat)
    requires n < Radix(k)
    ensures LittleEndian(Digits(n, k)) == n
  {
    if k > 0 {
      DigitsStand(n / 0x100, k - 1);
      assert Digits(n, k)[1..] == Digits(n / 0x100, k - 1);
    }
  }

  /** Bytes are the digits of what they stand for. */
  lemma {:induction false} DigitsOnly(b: seq<u8>)
    ensures LittleEndian(b) < Radix(|b|) && Digits(LittleEndian(b), |b|) == b
  {
    if b != [] {
      DigitsOnly(b[1..]);
      LowByte(b[0], LittleEndian(b[1..]));
      assert b == [b[0]] + b[1..];
    }
  }

  /** `mol_unpack_number` reads the number that the bytes stand for, and `Pack` writes it. */
  lemma {:induction false} UnpackStands(b: seq<u8>)
    requires |b| == 4
    ensures Unpack(b) == LittleEndian(b) && Pack(Unpack(b)) == b
  {
    var (b2: int, b3: int) := (b[2], b[3]);
    assert b[3..][1..] == [] && b[2..][1..] == b[3..] && b[1..][1..] == b[2..];
    assert LittleEndian(b[3..]) == b3;
    assert LittleEndian(b[2..]) == b2 + 0x100 * b3;
    DigitsOnly(b);
  }

  lemma {:induction false} FourDigits(n: nat)
    ensures var n1 := n / 0x100;
            var n2 := n1 / 0x100;
            Digits(n, 4) == [n % 0x100, n1 % 0x100, n2 % 0x100, n2 / 0x100 % 0x100]
  {
    var n1 := n / 0x100;
    var n2 := n1 / 0x100;
    assert Digits(n2 / 0x100, 1) == [n2 / 0x100 % 0x100];
    assert Digits(n2, 2) == [n2 % 0x100, n2 / 0x100 % 0x100];
    assert Digits(n1, 3) == [n1 % 0x100, n2 % 0x100, n2 / 0x100 % 0x100];
  }

  lemma {:induction false} LowByte(b: int, rest: int)
    requires 0 <= b < 0x100
    ensures (b + 0x100 * rest) % 0x100 == b && (b + 0x100 * rest) / 0x100 == rest
  {
  }

  lemma {:induction false} UnpackPack(n: u32)
    ensures Unpack(Pack(n)) == n
  {
    FourDigits(n);
  }

  /** `n` items of `each` bytes: the product, without the cost of reasoning about one. */
  function Times(n: nat, each: nat): nat {
    if n == 0 then 0 else Times(n - 1, each) + each
  }

  lemma {:induction false} TimesIsProduct(n: nat, each: nat)
    ensures Times(n, each) == n * each
  {
    if n > 0 { TimesIsProduct(n - 1, each); }
  }

  lemma {:induction false} TimesAtLeast(n: nat, each: nat)
    requires each > 0
    ensures Times(n, each) >= n
  {
    if n > 0 { TimesAtLeast(n - 1, each); }
  }
}
