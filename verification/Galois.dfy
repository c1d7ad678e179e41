/** The checksum of BIP-173 as a division of polynomials over the field of 32 elements. */
module Galois {
  import opened Bech32

  // ---------- The field ----------

  function Sum(a: bv8, b: bv8): bv8 {
    a ^ b
  }

  /** Times x, modulo x^5 + x^3 + 1. */
  function Twice(a: bv8): bv8 {
    ((a << 1) & 31) ^ (if a & 16 != 0 then 9 else 0)
  }

  function Part(a: bv8, bit: bv8, b: bv8): bv8 {
    if a & bit != 0 then b else 0
  }

  /** The product of two field elements. */
  function Mul(a: bv8, b: bv8): bv8 {
    var b2 := Twice(b);
    var b4 := Twice(b2);
    var b8 := Twice(b4);
    var b16 := Twice(b8);
    Five(Part(a, 1, b), Part(a, 2, b2), Part(a, 4, b4), Part(a, 8, b8), Part(a, 16, b16))
  }

  lemma {:induction false} MulSmall(a: bv8, b: bv8)
    requires a < 32 && b < 32
    ensures Mul(a, b) < 32
  {
  }

  lemma {:induction false} TwicePlus(a: bv8, b: bv8)
    ensures Twice(Sum(a, b)) == Sum(Twice(a), Twice(b))
  {
  }

  lemma {:induction false} PartPlus(a: bv8, bit: bv8, b: bv8, c: bv8)
    ensures Part(a, bit, Sum(b, c)) == Sum(Part(a, bit, b), Part(a, bit, c)) && Part(a, bit, Twice(b)) == Twice(Part(a, bit, b))
  {
  }

  function Five(p1: bv8, p2: bv8, p4: bv8, p8: bv8, p16: bv8): bv8 {
    Sum(Sum(Sum(Sum(p1, p2), p4), p8), p16)
  }

  lemma {:induction false} SumAssoc(a: bv8, b: bv8, c: bv8)
    ensures Sum(Sum(a, b), c) == Sum(a, Sum(b, c)) && Sum(b, c) == Sum(c, b)
  {
    SumRaw(a, b, c);
  }

  lemma {:induction false} SumRaw(a: bv8, b: bv8, c: bv8)
    ensures (a ^ b) ^ c == a ^ (b ^ c)
  {
  }

  lemma {:induction false} SumSwap(a: bv8, b: bv8, c: bv8, d: bv8)
    ensures Sum(Sum(a, b), Sum(c, d)) == Sum(Sum(a, c), Sum(b, d))
  {
    SumAssoc(a, b, Sum(c, d));
    SumAssoc(a, b, c);
    SumAssoc(b, c, d);
    SumAssoc(c, b, d);
    SumAssoc(a, c, Sum(b, d));
    hide Sum;
  }

  lemma {:induction false} FivePlus(p1: bv8, p2: bv8, p4: bv8, p8: bv8, p16: bv8, q1: bv8, q2: bv8, q4: bv8, q8: bv8, q16: bv8)
    ensures Five(Sum(p1, q1), Sum(p2, q2), Sum(p4, q4), Sum(p8, q8), Sum(p16, q16)) == Sum(Five(p1, p2, p4, p8, p16), Five(q1, q2, q4, q8, q16))
  {
    var p, q := Sum(p1, p2), Sum(q1, q2);
    SumSwap(p1, q1, p2, q2);
    SumSwap(p, q, p4, q4);
    SumSwap(Sum(p, p4), Sum(q, q4), p8, q8);
    SumSwap(Sum(Sum(p, p4), p8), Sum(Sum(q, q4), q8), p16, q16);
    hide Sum;
  }

  lemma {:induction false} MulPlus(a: bv8, b: bv8, c: bv8)
    ensures Mul(a, Sum(b, c)) == Sum(Mul(a, b), Mul(a, c))
  {
    var b2, c2 := Twice(b), Twice(c);
    var b4, c4 := Twice(b2), Twice(c2);
    var b8, c8 := Twice(b4), Twice(c4);
    var b16, c16 := Twice(b8), Twice(c8);
    TwicePlus(b, c);
    TwicePlus(b2, c2);
    TwicePlus(b4, c4);
    TwicePlus(b8, c8);
    PartPlus(a, 1, b, c);
    PartPlus(a, 2, b2, c2);
    PartPlus(a, 4, b4, c4);
    PartPlus(a, 8, b8, c8);
    PartPlus(a, 16, b16, c16);
    FivePlus(Part(a, 1, b), Part(a, 2, b2), Part(a, 4, b4), Part(a, 8, b8), Part(a, 16, b16),
             Part(a, 1, c), Part(a, 2, c2), Part(a, 4, c4), Part(a, 8, c8), Part(a, 16, c16));
    hide Twice, Part, Sum, Five;
  }

  lemma {:induction false} MulComm(a: bv8, b: bv8)
    requires a < 32 && b < 32
    ensures Mul(a, b) == Mul(b, a)
  {
  }

  lemma {:induction false} FiveTwice(p1: bv8, p2: bv8, p4: bv8, p8: bv8, p16: bv8)
    ensures Twice(Five(p1, p2, p4, p8, p16)) == Five(Twice(p1), Twice(p2), Twice(p4), Twice(p8), Twice(p16))
  {
    TwicePlus(p1, p2);
    TwicePlus(Sum(p1, p2), p4);
    TwicePlus(Sum(Sum(p1, p2), p4), p8);
    TwicePlus(Sum(Sum(Sum(p1, p2), p4), p8), p16);
    hide Sum, Twice;
  }

  lemma {:induction false} MulTwice(a: bv8, b: bv8)
    ensures Mul(a, Twice(b)) == Twice(Mul(a, b))
  {
    var b2 := Twice(b);
    var b4 := Twice(b2);
    var b8 := Twice(b4);
    var b16 := Twice(b8);
    PartPlus(a, 1, b, 0);
    PartPlus(a, 2, b2, 0);
    PartPlus(a, 4, b4, 0);
    PartPlus(a, 8, b8, 0);
    PartPlus(a, 16, b16, 0);
    FiveTwice(Part(a, 1, b), Part(a, 2, b2), Part(a, 4, b4), Part(a, 8, b8), Part(a, 16, b16));
    hide Twice, Part, Sum, Five;
  }

  lemma {:induction false} MulPart(a: bv8, b: bv8, bit: bv8, c: bv8)
    ensures Mul(a, Part(b, bit, c)) == Part(b, bit, Mul(a, c))
  {
  }

  lemma {:induction false} MulFive(a: bv8, p1: bv8, p2: bv8, p4: bv8, p8: bv8, p16: bv8)
    ensures Mul(a, Five(p1, p2, p4, p8, p16)) == Five(Mul(a, p1), Mul(a, p2), Mul(a, p4), Mul(a, p8), Mul(a, p16))
  {
    MulPlus(a, p1, p2);
    MulPlus(a, Sum(p1, p2), p4);
    MulPlus(a, Sum(Sum(p1, p2), p4), p8);
    MulPlus(a, Sum(Sum(Sum(p1, p2), p4), p8), p16);
    hide Sum, Mul;
  }

  lemma {:induction false} MulSwap(a: bv8, b: bv8, c: bv8)
    ensures Mul(a, Mul(b, c)) == Mul(b, Mul(a, c))
  {
    var c2 := Twice(c);
    var c4 := Twice(c2);
    var c8 := Twice(c4);
    var c16 := Twice(c8);
    MulIs(b, c);
    MulIs(b, Mul(a, c));
    hide Twice, Part, Five, Mul;
    MulTwice(a, c);
    MulTwice(a, c2);
    MulTwice(a, c4);
    MulTwice(a, c8);
    MulPart(a, b, 1, c);
    MulPart(a, b, 2, c2);
    MulPart(a, b, 4, c4);
    MulPart(a, b, 8, c8);
    MulPart(a, b, 16, c16);
    MulFive(a, Part(b, 1, c), Part(b, 2, c2), Part(b, 4, c4), Part(b, 8, c8), Part(b, 16, c16));
  }

  lemma {:induction false} MulIs(a: bv8, b: bv8)
    ensures var b2 := Twice(b);
            var b4 := Twice(b2);
            var b8 := Twice(b4);
            Mul(a, b) == Five(Part(a, 1, b), Part(a, 2, b2), Part(a, 4, b4), Part(a, 8, b8), Part(a, 16, Twice(b8)))
  {
  }

  lemma {:induction false} MulMul(a: bv8, b: bv8, c: bv8)
    requires a < 32 && b < 32 && c < 32
    ensures Mul(a, Mul(b, c)) == Mul(Mul(a, b), c)
  {
    MulSmall(a, b);
    MulComm(Mul(a, b), c);
    MulSwap(c, a, b);
    MulComm(c, b);
    hide Mul;
  }

  // ---------- Division ----------

  /** `a` times the generator x^6 + 29 x^5 + 22 x^4 + 20 x^3 + 21 x^2 + 29 x + 18, below x^6. */
  function Multiple(a: bv8): (m: seq<bv8>)
    ensures |m| == 6
  {
    [Mul(a, 29), Mul(a, 22), Mul(a, 20), Mul(a, 21), Mul(a, 29), Mul(a, 18)]
  }

  /** The remainder of a polynomial, highest coefficient first, on division by the generator. */
  function Remainder(p: seq<bv8>): seq<bv8>
    decreases |p|
  {
    if |p| <= 6 then p else Remainder(XorAll(p[1..7], Multiple(p[0])) + p[7..])
  }

  // ---------- The generators of the step ----------

  /** Six symbols in one state. */
  function Six(m: seq<bv8>): bv32
    requires |m| == 6
  {
    ((m[0] as bv32) << 25) | ((m[1] as bv32) << 20) | ((m[2] as bv32) << 15) | ((m[3] as bv32) << 10) | ((m[4] as bv32) << 5) | (m[5] as bv32)
  }

  /** The constants of the step are the products of the symbol that falls out with the generator. */
  lemma {:induction false} GeneratorsAreProducts(a: bv8)
    requires a < 32
    ensures Generators(a & 1 != 0, a & 2 != 0, a & 4 != 0, a & 8 != 0, a & 16 != 0) == Six(Multiple(a))
  {
  }

  /** The coefficient of x^n in a state. */
  function Coef(c: bv32, n: nat): bv8 {
    Low(Shr(c, n))
  }

  lemma {:induction false} StepIs(c: bv32, x: bv8)
    requires Small(c) && x < 32
    ensures var m := Multiple(Coef(c, 5)); Step(c) == Xor(Up(c), Six(m)) && Added(c, m, x)
  {
    var a := Coef(c, 5);
    assert Has(c, 1) == (a & 1 != 0) && Has(c, 2) == (a & 2 != 0) && Has(c, 4) == (a & 4 != 0) && Has(c, 8) == (a & 8 != 0) && Has(c, 16) == (a & 16 != 0);
    GeneratorsAreProducts(a);
    MulSmall(a, 29);
    MulSmall(a, 22);
    MulSmall(a, 20);
    MulSmall(a, 21);
    MulSmall(a, 18);
    hide Generators, Mul, Has, Xor, Up, Six, Coef, Small;
  }

  lemma {:induction false} StepCoef(c: bv32, x: bv8, n: nat)
    requires Small(c) && x < 32 && n < 6
    ensures Coef(Xor(Step(c), Wide(x)), n) == Sum(if n == 0 then x else Coef(c, n - 1), Multiple(Coef(c, 5))[5 - n])
  {
    hide *;
    var m := Multiple(Coef(c, 5));
    StepIs(c, x);
    if n == 0 { UpCoef0(c, m, x); } else if n == 1 { UpCoef1(c, m, x); } else if n == 2 { UpCoef2(c, m, x); } else if n == 3 { UpCoef3(c, m, x); }
    else if n == 4 { UpCoef4(c, m, x); } else { UpCoef5(c, m, x); }
  }

  predicate Added(c: bv32, m: seq<bv8>, x: bv8) {
    Small(c) && x < 32 && |m| == 6 && forall i | 0 <= i < 6 :: m[i] < 32
  }

  lemma {:induction false} UpCoef0(c: bv32, m: seq<bv8>, x: bv8)
    requires Added(c, m, x)
    ensures Coef(Xor(Xor(Up(c), Six(m)), Wide(x)), 0) == Sum(x, m[5])
  {
  }

  lemma {:induction false} UpCoef1(c: bv32, m: seq<bv8>, x: bv8)
    requires Added(c, m, x)
    ensures Coef(Xor(Xor(Up(c), Six(m)), Wide(x)), 1) == Sum(Coef(c, 0), m[4])
  {
  }

  lemma {:induction false} UpCoef2(c: bv32, m: seq<bv8>, x: bv8)
    requires Added(c, m, x)
    ensures Coef(Xor(Xor(Up(c), Six(m)), Wide(x)), 2) == Sum(Coef(c, 1), m[3])
  {
  }

  lemma {:induction false} UpCoef3(c: bv32, m: seq<bv8>, x: bv8)
    requires Added(c, m, x)
    ensures Coef(Xor(Xor(Up(c), Six(m)), Wide(x)), 3) == Sum(Coef(c, 2), m[2])
  {
  }

  lemma {:induction false} UpCoef4(c: bv32, m: seq<bv8>, x: bv8)
    requires Added(c, m, x)
    ensures Coef(Xor(Xor(Up(c), Six(m)), Wide(x)), 4) == Sum(Coef(c, 3), m[1])
  {
  }

  lemma {:induction false} UpCoef5(c: bv32, m: seq<bv8>, x: bv8)
    requires Added(c, m, x)
    ensures Coef(Xor(Xor(Up(c), Six(m)), Wide(x)), 5) == Sum(Coef(c, 4), m[0])
  {
  }

  lemma {:induction false} SplitCoef(c: bv32, n: nat, i: nat)
    requires i < n <= 6
    ensures Split(c, n)[i] == Coef(c, n - 1 - i)
  {
    if i > 0 { SplitCoef(c, n - 1, i - 1); }
    hide Low, Shr;
  }

  /** One step is multiplication by x, modulo the generator, and the addition of a symbol. */
  lemma {:induction false} StepDivides(c: bv32, x: bv8)
    requires Small(c) && x < 32
    ensures Split(Xor(Step(c), Wide(x)), 6) == XorAll(Split(c, 6)[1..] + [x], Multiple(Split(c, 6)[0]))
  {
    hide Split, Step, Xor, Wide, Coef, Multiple, Sum, Xor8, Small, Mul, XorAll;
    var c1, s := Xor(Step(c), Wide(x)), Split(c, 6);
    var q, m := s[1..] + [x], Multiple(s[0]);
    forall i | 0 <= i < 6 ensures Split(c1, 6)[i] == XorAll(q, m)[i] {
      SplitCoef(c, 6, 0);
      SplitCoef(c1, 6, i);
      if i < 5 { SplitCoef(c, 6, i + 1); }
      StepCoef(c, x, 5 - i);
      SumIs(q, m, i);
    }
  }

  lemma {:induction false} SumIs(xs: seq<bv8>, ys: seq<bv8>, i: nat)
    requires i < |xs| == |ys|
    ensures Sum(xs[i], ys[i]) == XorAll(xs, ys)[i]
  {
  }

  lemma {:induction false} RemainderStep(s: seq<bv8>, xs: seq<bv8>)
    requires |s| == 6 && xs != []
    ensures Remainder(s + xs) == Remainder(XorAll(s[1..] + [xs[0]], Multiple(s[0])) + xs[1..])
  {
    var p := s + xs;
    assert p[1..7] == s[1..] + [xs[0]] && p[7..] == xs[1..];
    hide Multiple;
  }

  /** The checksum state is a remainder: that of the polynomial of the state's symbols and all that
      follow, on division by the generator of BIP-173. */
  lemma {:induction false} FoldDivides(c: bv32, xs: seq<bv8>)
    requires Small(c) && Symbols(xs)
    ensures Split(Fold(c, xs), 6) == Remainder(Split(c, 6) + xs)
    decreases |xs|
  {
    if xs == [] {
      assert Split(c, 6) + xs == Split(c, 6);
    } else {
      var c1 := Xor(Step(c), Wide(xs[0]));
      StepDivides(c, xs[0]);
      RemainderStep(Split(c, 6), xs);
      StepSmall(c);
      SymbolSmall(xs[0]);
      XorZero(Step(c), Wide(xs[0]));
      hide Split, Step, Xor, Wide, Multiple, Small, Remainder;
      FoldDivides(c1, xs[1..]);
    }
  }

  // ---------- Linearity over the field ----------

  function Scaled(a: bv8, p: seq<bv8>): (q: seq<bv8>)
    ensures |q| == |p| && forall i | 0 <= i < |p| :: q[i] == Mul(a, p[i])
  {
    seq(|p|, i requires 0 <= i < |p| => Mul(a, p[i]))
  }

  /** Scaling and division may be exchanged. */
  lemma {:induction false} RemainderScaled(a: bv8, p: seq<bv8>)
    requires a < 32 && Symbols(p)
    ensures Remainder(Scaled(a, p)) == Scaled(a, Remainder(p))
    decreases |p|
  {
    if |p| > 6 {
      var m := Multiple(p[0]);
      var q := XorAll(p[1..7], m);
      forall i | 0 <= i < 6 ensures Mul(a, q[i]) == Sum(Mul(a, p[i + 1]), Multiple(Mul(a, p[0]))[i]) && q[i] < 32 {
        MulPlus(a, p[i + 1], m[i]);
        TimesGenerator(a, p[0], i);
        SumSmall(p[i + 1], m[i]);
      }
      hide Mul, Multiple, Xor8, Sum;
      assert Scaled(a, p)[7..] == Scaled(a, p[7..]);
      assert XorAll(Scaled(a, p)[1..7], Multiple(Mul(a, p[0]))) == Scaled(a, q);
      assert Scaled(a, q) + Scaled(a, p[7..]) == Scaled(a, q + p[7..]);
      RemainderScaled(a, q + p[7..]);
    }
  }

  lemma {:induction false} SumSmall(a: bv8, b: bv8)
    requires a < 32 && b < 32
    ensures Sum(a, b) < 32 && Sum(a, b) == Xor8(a, b)
  {
  }

  lemma {:induction false} TimesGenerator(a: bv8, b: bv8, i: nat)
    requires a < 32 && b < 32 && i < 6
    ensures Mul(a, Multiple(b)[i]) == Multiple(Mul(a, b))[i] && Multiple(b)[i] < 32
  {
    hide Mul;
    var g: bv8 := if i == 0 || i == 4 then 29 else if i == 1 then 22 else if i == 2 then 20 else if i == 3 then 21 else 18;
    assert Multiple(b)[i] == Mul(b, g) && Multiple(Mul(a, b))[i] == Mul(Mul(a, b), g);
    MulMul(a, b, g);
    MulSmall(b, g);
  }

  lemma {:induction false} ScaledSymbols(a: bv8, xs: seq<bv8>)
    requires a < 32 && Symbols(xs)
    ensures Symbols(Scaled(a, xs))
  {
    forall i | 0 <= i < |xs| ensures Mul(a, xs[i]) < 32 { MulSmall(a, xs[i]); }
    hide Mul;
  }

  lemma {:induction false} ScaledPlus(a: bv8, xs: seq<bv8>, ys: seq<bv8>)
    requires Symbols(xs) && Symbols(ys)
    ensures Scaled(a, xs) + Scaled(a, ys) == Scaled(a, xs + ys) && Symbols(xs + ys)
  {
    hide Mul;
  }

  /** The checksum is linear over the field: scaling the state and all symbols scales the result. */
  lemma {:induction false} FoldScaled(a: bv8, c: bv32, d: bv32, xs: seq<bv8>)
    requires a < 32 && Small(c) && Small(d) && Symbols(xs) && Split(d, 6) == Scaled(a, Split(c, 6))
    ensures Split(Fold(d, Scaled(a, xs)), 6) == Scaled(a, Split(Fold(c, xs), 6))
  {
    hide *;
    FoldDivides(c, xs);
    ScaledSymbols(a, xs);
    FoldDivides(d, Scaled(a, xs));
    ScaledPlus(a, Split(c, 6), xs);
    RemainderScaled(a, Split(c, 6) + xs);
  }
}
