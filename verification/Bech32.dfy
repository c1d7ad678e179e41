/** The checksummed encoding of BIP-173, on unsigned characters. */
module Bech32 {
  // ---------- The checksum ----------

  /** Exclusive or, given a name so that proofs need not look into its bits. */
  function Xor(a: bv32, b: bv32): bv32 {
    a ^ b
  }

  function If(h: bool, g: bv32): bv32 {
    if h then g else 0
  }

  /** The generators of the bits that fall out. */
  function Generators(h1: bool, h2: bool, h3: bool, h4: bool, h5: bool): bv32 {
    Xor(Xor(Xor(Xor(If(h1, 0x3b6a57b2), If(h2, 0x26508e6d)), If(h3, 0x1ea119fa)), If(h4, 0x3d4233dd)), If(h5, 0x2a1462b3))
  }

  /** The low 25 bits move up by one symbol. */
  function Up(pre: bv32): bv32 {
    (pre & 0x1FFFFFF) << 5
  }

  predicate Has(pre: bv32, bit: bv32) {
    (pre >> 25) & bit != 0
  }

  /** `bech32_polymod_step`. */
  function Step(pre: bv32): bv32 {
    Xor(Up(pre), Generators(Has(pre, 1), Has(pre, 2), Has(pre, 4), Has(pre, 8), Has(pre, 16)))
  }

  /** The state after more symbols. */
  function Fold(c: bv32, xs: seq<bv8>): bv32
    decreases |xs|
  {
    if xs == [] then c else Fold(Xor(Step(c), Wide(xs[0])), xs[1..])
  }

  function Wide(x: bv8): bv32 {
    x as bv32
  }

  predicate Symbols(xs: seq<bv8>) {
    forall i | 0 <= i < |xs| :: xs[i] < 32
  }

  /** A state of 30 bits. */
  predicate Small(c: bv32) {
    c < 0x4000_0000
  }

  // ---------- Exclusive or ----------

  lemma {:induction false} XorSelf(g: bv32)
    ensures Xor(g, g) == 0 && Xor(g, 0) == g && Xor(0, g) == g
  {
  }

  lemma {:induction false} RawAssoc(a: bv32, b: bv32, c: bv32)
    ensures (a ^ b) ^ c == a ^ (b ^ c)
  {
  }

  lemma {:induction false} Assoc(a: bv32, b: bv32, c: bv32)
    ensures Xor(Xor(a, b), c) == Xor(a, Xor(b, c))
  {
    RawAssoc(a, b, c);
  }

  lemma {:induction false} Comm(a: bv32, b: bv32)
    ensures Xor(a, b) == Xor(b, a)
  {
  }

  lemma {:induction false} XorSwap(a: bv32, b: bv32, c: bv32, d: bv32)
    ensures Xor(Xor(a, b), Xor(c, d)) == Xor(Xor(a, c), Xor(b, d))
  {
    hide Xor;
    Assoc(a, b, Xor(c, d));
    Assoc(b, c, d);
    Comm(b, c);
    Assoc(c, b, d);
    Assoc(a, c, Xor(b, d));
  }

  lemma {:induction false} XorZero(a: bv32, b: bv32)
    ensures Xor(a, b) == 0 ==> a == b
    ensures Small(a) && Small(b) ==> Small(Xor(a, b))
  {
  }

  // ---------- The step is linear and injective ----------

  lemma {:induction false} UpLinear(a: bv32, b: bv32)
    ensures Up(Xor(a, b)) == Xor(Up(a), Up(b))
  {
  }

  lemma {:induction false} HasLinear(a: bv32, b: bv32)
    ensures Has(Xor(a, b), 1) <==> (Has(a, 1) != Has(b, 1))
    ensures Has(Xor(a, b), 2) <==> (Has(a, 2) != Has(b, 2))
    ensures Has(Xor(a, b), 4) <==> (Has(a, 4) != Has(b, 4))
    ensures Has(Xor(a, b), 8) <==> (Has(a, 8) != Has(b, 8))
    ensures Has(Xor(a, b), 16) <==> (Has(a, 16) != Has(b, 16))
  {
  }

  lemma {:induction false} IfLinear(h: bool, k: bool, g: bv32)
    ensures If(h != k, g) == Xor(If(h, g), If(k, g))
  {
    XorSelf(g);
    XorSelf(0);
    hide Xor;
  }

  /** One more pair of linear terms. */
  lemma {:induction false} PairLinear(ab: bv32, a: bv32, b: bv32, xy: bv32, x: bv32, y: bv32)
    requires ab == Xor(a, b) && xy == Xor(x, y)
    ensures Xor(ab, xy) == Xor(Xor(a, x), Xor(b, y))
  {
    XorSwap(a, b, x, y);
    hide Xor;
  }

  lemma {:induction false} GeneratorsLinear(a1: bool, a2: bool, a3: bool, a4: bool, a5: bool, b1: bool, b2: bool, b3: bool, b4: bool, b5: bool)
    ensures Generators(a1 != b1, a2 != b2, a3 != b3, a4 != b4, a5 != b5) == Xor(Generators(a1, a2, a3, a4, a5), Generators(b1, b2, b3, b4, b5))
  {
    hide Xor, If;
    var p, pa, pb := If(a1 != b1, 0x3b6a57b2), If(a1, 0x3b6a57b2), If(b1, 0x3b6a57b2);
    var q, qa, qb := If(a2 != b2, 0x26508e6d), If(a2, 0x26508e6d), If(b2, 0x26508e6d);
    var r, ra, rb := If(a3 != b3, 0x1ea119fa), If(a3, 0x1ea119fa), If(b3, 0x1ea119fa);
    var s, sa, sb := If(a4 != b4, 0x3d4233dd), If(a4, 0x3d4233dd), If(b4, 0x3d4233dd);
    var t, ta, tb := If(a5 != b5, 0x2a1462b3), If(a5, 0x2a1462b3), If(b5, 0x2a1462b3);
    IfLinear(a1, b1, 0x3b6a57b2);
    IfLinear(a2, b2, 0x26508e6d);
    IfLinear(a3, b3, 0x1ea119fa);
    IfLinear(a4, b4, 0x3d4233dd);
    IfLinear(a5, b5, 0x2a1462b3);
    PairLinear(p, pa, pb, q, qa, qb);
    PairLinear(Xor(p, q), Xor(pa, qa), Xor(pb, qb), r, ra, rb);
    PairLinear(Xor(Xor(p, q), r), Xor(Xor(pa, qa), ra), Xor(Xor(pb, qb), rb), s, sa, sb);
    PairLinear(Xor(Xor(Xor(p, q), r), s), Xor(Xor(Xor(pa, qa), ra), sa), Xor(Xor(Xor(pb, qb), rb), sb), t, ta, tb);
  }

  /** The step is linear over GF(2). */
  lemma {:induction false} StepLinear(a: bv32, b: bv32)
    ensures Step(Xor(a, b)) == Xor(Step(a), Step(b))
  {
    UpLinear(a, b);
    HasLinear(a, b);
    hide Xor, Has, Up, Generators;
    GeneratorsLinear(Has(a, 1), Has(a, 2), Has(a, 4), Has(a, 8), Has(a, 16), Has(b, 1), Has(b, 2), Has(b, 4), Has(b, 8), Has(b, 16));
    XorSwap(Up(a), Up(b), Generators(Has(a, 1), Has(a, 2), Has(a, 4), Has(a, 8), Has(a, 16)),
            Generators(Has(b, 1), Has(b, 2), Has(b, 4), Has(b, 8), Has(b, 16)));
  }

  lemma {:induction false} UpIs(a: bv32)
    ensures Up(a) & 31 == 0 && Small(Up(a))
    ensures a < 0x200_0000 ==> Up(a) == a << 5 && !Has(a, 1) && !Has(a, 2) && !Has(a, 4) && !Has(a, 8) && !Has(a, 16)
    ensures Small(a) && Up(a) == 0 && !Has(a, 1) && !Has(a, 2) && !Has(a, 4) && !Has(a, 8) && !Has(a, 16) ==> a == 0
  {
  }

  lemma {:induction false} GeneratorsIs(h1: bool, h2: bool, h3: bool, h4: bool, h5: bool)
    ensures Small(Generators(h1, h2, h3, h4, h5))
    ensures Generators(false, false, false, false, false) == 0
  {
  }

  /** The generators are independent already in their lowest symbol. */
  lemma {:induction false} GeneratorsKernel(h1: bool, h2: bool, h3: bool, h4: bool, h5: bool)
    requires Generators(h1, h2, h3, h4, h5) & 31 == 0
    ensures !h1 && !h2 && !h3 && !h4 && !h5
  {
  }

  lemma {:induction false} StepSmall(a: bv32)
    ensures Small(Step(a)) && (a < 0x200_0000 ==> Step(a) == a << 5)
  {
    UpIs(a);
    GeneratorsIs(Has(a, 1), Has(a, 2), Has(a, 4), Has(a, 8), Has(a, 16));
    XorZero(Up(a), Generators(Has(a, 1), Has(a, 2), Has(a, 4), Has(a, 8), Has(a, 16)));
    XorSelf(Up(a));
    hide Xor, Has, Up, Generators, Small;
  }

  /** No state of 30 bits but 0 is lost. */
  lemma {:induction false} StepKernel(a: bv32)
    requires Small(a) && Step(a) == 0
    ensures a == 0
  {
    UpIs(a);
    hide Xor, Has, Up, Generators, Small;
    XorZero(Up(a), Generators(Has(a, 1), Has(a, 2), Has(a, 4), Has(a, 8), Has(a, 16)));
    GeneratorsKernel(Has(a, 1), Has(a, 2), Has(a, 4), Has(a, 8), Has(a, 16));
    GeneratorsIs(false, false, false, false, false);
  }

  /** The step is injective on states of 30 bits. */
  lemma {:induction false} StepInjective(a: bv32, b: bv32)
    requires Small(a) && Small(b) && Step(a) == Step(b)
    ensures a == b
  {
    StepLinear(a, b);
    XorSelf(Step(a));
    XorZero(a, b);
    hide Xor, Step, Small;
    StepKernel(Xor(a, b));
  }

  // ---------- Runs of symbols ----------

  lemma {:induction false} FoldPlus(c: bv32, xs: seq<bv8>, ys: seq<bv8>)
    ensures Fold(c, xs + ys) == Fold(Fold(c, xs), ys)
    decreases |xs|
  {
    hide Xor, Step;
    if xs == [] {
      assert xs + ys == ys;
    } else {
      assert (xs + ys)[1..] == xs[1..] + ys;
      FoldPlus(Xor(Step(c), Wide(xs[0])), xs[1..], ys);
    }
  }

  lemma {:induction false} FoldOne(c: bv32, xs: seq<bv8>, x: bv8)
    ensures Fold(c, xs + [x]) == Xor(Step(Fold(c, xs)), Wide(x))
  {
    hide Xor, Step;
    FoldPlus(c, xs, [x]);
    assert [x][1..] == [];
    assert Fold(Fold(c, xs), [x]) == Fold(Xor(Step(Fold(c, xs)), Wide(x)), []);
  }

  lemma {:induction false} SymbolSmall(x: bv8)
    ensures Small(Wide(x))
  {
  }

  lemma {:induction false} FoldSmall(c: bv32, xs: seq<bv8>)
    requires Small(c)
    ensures Small(Fold(c, xs))
    decreases |xs|
  {
    hide Xor, Step, Small;
    if xs != [] {
      StepSmall(c);
      SymbolSmall(xs[0]);
      XorZero(Step(c), Wide(xs[0]));
      FoldSmall(Xor(Step(c), Wide(xs[0])), xs[1..]);
    }
  }

  function Xor8(x: bv8, y: bv8): bv8 {
    x ^ y
  }

  /** Symbol by symbol exclusive or. */
  function XorAll(xs: seq<bv8>, ys: seq<bv8>): (zs: seq<bv8>)
    requires |xs| == |ys|
    ensures |zs| == |xs|
  {
    seq(|xs|, i requires 0 <= i < |xs| => Xor8(xs[i], ys[i]))
  }

  lemma {:induction false} XorSymbol(x: bv8, y: bv8)
    ensures Wide(Xor8(x, y)) == Xor(Wide(x), Wide(y))
    ensures Xor8(x, y) == 0 <==> x == y
    ensures x < 32 && y < 32 ==> Xor8(x, y) < 32
  {
  }

  /** The checksum is linear in the state and the symbols together. */
  lemma {:induction false} FoldLinear(a: bv32, b: bv32, xs: seq<bv8>, ys: seq<bv8>)
    requires |xs| == |ys|
    ensures Fold(Xor(a, b), XorAll(xs, ys)) == Xor(Fold(a, xs), Fold(b, ys))
    decreases |xs|
  {
    hide Xor, Step, Wide, Xor8;
    if xs != [] {
      var x, y, zs := xs[0], ys[0], XorAll(xs, ys);
      assert zs[0] == Xor8(x, y) && zs[1..] == XorAll(xs[1..], ys[1..]);
      XorSymbol(x, y);
      StepLinear(a, b);
      XorSwap(Step(a), Step(b), Wide(x), Wide(y));
      FoldLinear(Xor(Step(a), Wide(x)), Xor(Step(b), Wide(y)), xs[1..], ys[1..]);
    }
  }

  function Blank(n: nat): (z: seq<bv8>)
    ensures |z| == n
  {
    seq(n, _ => 0)
  }

  lemma {:induction false} StepZero()
    ensures Step(0) == 0
  {
    StepSmall(0);
  }

  lemma {:induction false} BlankFirst(n: nat)
    requires n > 0
    ensures Blank(n)[0] == 0 && Blank(n)[1..] == Blank(n - 1)
  {
  }

  /** Blank symbols never hide a difference. */
  lemma {:induction false} FoldBlank(c: bv32, n: nat)
    requires Small(c)
    ensures Fold(c, Blank(n)) == 0 ==> c == 0
    ensures c == 0 ==> Fold(c, Blank(n)) == 0
    decreases n
  {
    if n == 0 {
      assert Blank(0) == [];
    } else {
      BlankFirst(n);
      StepSmall(c);
      StepZero();
      XorSelf(Step(c));
      if Step(c) == 0 { StepKernel(c); }
      hide Xor, Step, Small, Blank;
      FoldBlank(Step(c), n - 1);
    }
  }

  /** The states `n` symbols short of 30 bits. */
  function Bound(n: nat): bv32 {
    if n == 0 then 0x4000_0000 else if n == 1 then 0x200_0000 else if n == 2 then 0x10_0000 else if n == 3 then 0x8000
    else if n == 4 then 0x400 else if n == 5 then 0x20 else 1
  }

  predicate Below(c: bv32, n: nat) {
    c < Bound(n)
  }

  function Shl(c: bv32): bv32 {
    c << 5
  }

  lemma {:induction false} BoundNext(n: nat, c: bv32, x: bv8)
    requires 0 < n <= 6 && Below(c, n) && x < 32
    ensures Below(Xor(Shl(c), Wide(x)), n - 1)
    ensures Xor(Shl(c), Wide(x)) == 0 ==> c == 0 && x == 0
  {
  }

  lemma {:induction false} StepShifts(c: bv32, n: nat)
    requires 0 < n <= 6 && Below(c, n)
    ensures Step(c) == Shl(c)
  {
    assert c < 0x200_0000;
    StepSmall(c);
    hide Step;
  }

  /** Up to six symbols, starting from nothing, do not cancel. */
  lemma {:induction false} WindowKernel(c: bv32, w: seq<bv8>)
    requires |w| <= 6 && Symbols(w) && Below(c, |w|) && Fold(c, w) == 0
    ensures c == 0 && forall i | 0 <= i < |w| :: w[i] == 0
    decreases |w|
  {
    hide Xor, Step, Below, Shl, Wide;
    if w != [] {
      var x := w[0];
      BoundNext(|w|, c, x);
      StepShifts(c, |w|);
      WindowKernel(Xor(Shl(c), Wide(x)), w[1..]);
      forall i | 0 <= i < |w| ensures w[i] == 0 {
        if i > 0 { assert w[1..][i - 1] == w[i]; }
      }
    }
  }

  /** The symbols agree outside the six positions from `i`. */
  predicate AgreeOutside(xs: seq<bv8>, ys: seq<bv8>, i: nat) {
    |xs| == |ys| && forall j | 0 <= j < |xs| && !(i <= j < i + 6) :: xs[j] == ys[j]
  }

  /** Two runs of symbols that differ only within six consecutive positions never have the same
      checksum, at any length. */
  lemma {:induction false} BurstDetected(c: bv32, xs: seq<bv8>, ys: seq<bv8>, i: nat)
    requires Small(c) && Symbols(xs) && Symbols(ys) && AgreeOutside(xs, ys, i) && Fold(c, xs) == Fold(c, ys)
    ensures xs == ys
  {
    var n := |xs|;
    if i < n {
      var k := if i + 6 < n then 6 else n - i;
      var zs := XorAll(xs, ys);
      var w := zs[i..i + k];
      forall j | 0 <= j < n ensures (zs[j] == 0 <==> xs[j] == ys[j]) && zs[j] < 32 { XorSymbol(xs[j], ys[j]); }
      assert zs == Blank(i) + (w + Blank(n - i - k));
      assert Symbols(w);
      hide Xor, Step, Small, Blank, XorAll, Wide, Xor8;
      FoldLinear(c, c, xs, ys);
      XorSelf(c);
      XorSelf(Fold(c, xs));
      FoldZero(i, w, n - i - k);
      forall j | 0 <= j < n ensures xs[j] == ys[j] {
        if i <= j < i + k { assert zs[j] == w[j - i]; }
      }
    }
  }

  lemma {:induction false} FoldZero(i: nat, w: seq<bv8>, m: nat)
    requires |w| <= 6 && Symbols(w) && Fold(0, Blank(i) + (w + Blank(m))) == 0
    ensures forall j | 0 <= j < |w| :: w[j] == 0
  {
    assert Small(0) && Below(0, |w|);
    hide Xor, Step, Small, Blank, Below, Wide;
    FoldPlus(0, Blank(i), w + Blank(m));
    FoldBlank(0, i);
    FoldPlus(0, w, Blank(m));
    FoldSmall(0, w);
    FoldBlank(Fold(0, w), m);
    WindowKernel(0, w);
  }

  // ---------- The checksum symbols ----------

  /** `chk >> 5 * n`. */
  function Shr(d: bv32, n: nat): bv32 {
    if n == 0 then d else if n == 1 then d >> 5 else if n == 2 then d >> 10 else if n == 3 then d >> 15 else if n == 4 then d >> 20
    else if n == 5 then d >> 25 else 0
  }

  function Low(d: bv32): (x: bv8)
    ensures x < 32
  {
    (d & 0x1f) as bv8
  }

  /** `(chk >> ((5 - i) * 5)) & 0x1f` for the last `n` of the six positions. */
  function Split(d: bv32, n: nat): (s: seq<bv8>)
    requires n <= 6
    ensures |s| == n && Symbols(s)
  {
    if n == 0 then [] else [Low(Shr(d, n - 1))] + Split(d, n - 1)
  }

  lemma {:induction false} LowBits(e: bv32)
    ensures Xor(Shl(e >> 5), Wide(Low(e))) == e
  {
  }

  lemma {:induction false} ShrLast(d: bv32)
    requires Small(d)
    ensures (d >> 25) >> 5 == 0
  {
  }

  lemma {:induction false} ShrNext(d: bv32, n: nat)
    requires Small(d) && 0 < n <= 6
    ensures Shr(d, n) == Shr(d, n - 1) >> 5
  {
    hide Small;
    if n == 6 { ShrLast(d); } else if n > 1 { ShrMid(d, n); }
  }

  lemma {:induction false} ShrMid(d: bv32, n: nat)
    requires 1 < n <= 5
    ensures Shr(d, n) == Shr(d, n - 1) >> 5
  {
    if n == 2 {
      assert (d >> 5) >> 5 == d >> 10;
    } else if n == 3 {
      assert (d >> 10) >> 5 == d >> 15;
    } else if n == 4 {
      assert (d >> 15) >> 5 == d >> 20;
    } else {
      assert (d >> 20) >> 5 == d >> 25;
    }
  }

  lemma {:induction false} ShrBelow(d: bv32, n: nat)
    requires Small(d) && 0 < n <= 6
    ensures Below(Shr(d, n), n)
  {
    if n == 1 { assert d >> 5 < 0x200_0000; } else if n == 2 { assert d >> 10 < 0x10_0000; } else if n == 3 { assert d >> 15 < 0x8000; }
    else if n == 4 { assert d >> 20 < 0x400; } else if n == 5 { assert d >> 25 < 0x20; }
  }

  lemma {:induction false} LowShr(d: bv32, n: nat)
    requires Small(d) && 0 < n <= 6
    ensures Xor(Shl(Shr(d, n)), Wide(Low(Shr(d, n - 1)))) == Shr(d, n - 1)
    ensures Below(Shr(d, n), n)
  {
    hide Xor, Shl, Wide, Low, Shr, Below, Small;
    ShrNext(d, n);
    ShrBelow(d, n);
    LowBits(Shr(d, n - 1));
  }

  /** Six symbols absorb a state of 30 bits. */
  lemma {:induction false} FoldSplit(d: bv32, n: nat)
    requires Small(d) && n <= 6
    ensures Fold(Shr(d, n), Split(d, n)) == d
  {
    if n > 0 {
      LowShr(d, n);
      StepShifts(Shr(d, n), n);
      hide Xor, Step, Small, Low, Shr, Shl, Wide, Below;
      FoldSplit(d, n - 1);
      var s := Split(d, n);
      assert s[0] == Low(Shr(d, n - 1)) && s[1..] == Split(d, n - 1);
    }
  }

  /** The symbols `bech32_encode` appends in state `c`. */
  function Checksum(c: bv32): (s: seq<bv8>)
    ensures |s| == 6 && Symbols(s)
  {
    Split(Xor(Fold(c, Blank(6)), 1), 6)
  }

  /** The checksum brings the state to 1. */
  lemma {:induction false} ChecksumIsOne(c: bv32)
    requires Small(c)
    ensures Fold(c, Checksum(c)) == 1
  {
    var f := Fold(c, Blank(6));
    var d := Xor(f, 1);
    var s := Split(d, 6);
    assert Small(1) && Shr(d, 6) == 0;
    BlankXor(s);
    hide Xor, Step, Small, Low, Split, Blank, XorAll, Shr, Wide, Xor8;
    FoldSmall(c, Blank(6));
    XorZero(f, 1);
    FoldSplit(d, 6);
    FoldLinear(c, 0, Blank(6), s);
    XorSelf(c);
    Assoc(f, f, 1);
    XorSelf(f);
    XorSelf(1);
  }

  lemma {:induction false} BlankXor(s: seq<bv8>)
    ensures XorAll(Blank(|s|), s) == s
  {
    forall i | 0 <= i < |s| ensures Xor8(Blank(|s|)[i], s[i]) == s[i] { ZeroXor(s[i]); }
    hide Xor8;
  }

  lemma {:induction false} ZeroXor(x: bv8)
    ensures Xor8(0, x) == x
  {
  }
}
