/** `convert_bits`: regroups a string of bits. */
module Regroup {
  import opened Words
  import opened Wrappers

  // ---------- Strings of bits ----------

  /** The low `n` bits of `v`, most significant first. */
  function BitsOf(v: nat, n: nat): (bs: seq<bool>)
    ensures |bs| == n
  {
    if n == 0 then [] else BitsOf(v / 2, n - 1) + [v % 2 == 1]
  }

  /** The number with these bits. */
  function Num(bs: seq<bool>): nat {
    if bs == [] then 0 else 2 * Num(bs[..|bs| - 1]) + (if bs[|bs| - 1] then 1 else 0)
  }

  /** `v << n`, without wrapping. */
  function Shl(v: nat, n: nat): nat {
    if n == 0 then v else 2 * Shl(v, n - 1)
  }

  /** `v >> n`. */
  function Shr(v: nat, n: nat): nat {
    if n == 0 then v else Shr(v, n - 1) / 2
  }

  /** `v & ((1 << n) - 1)`. */
  function Mask(v: nat, n: nat): nat {
    Num(BitsOf(v, n))
  }

  /** The bits of words of `k` bits each. */
  function Flatten(xs: seq<nat>, k: nat): (bs: seq<bool>)
    ensures |bs| == Times(|xs|, k)
    decreases |xs|
  {
    if xs == [] then [] else Flatten(xs[..|xs| - 1], k) + BitsOf(xs[|xs| - 1], k)
  }

  function Clear(n: nat): (bs: seq<bool>)
    ensures |bs| == n
  {
    seq(n, _ => false)
  }

  predicate Fits(xs: seq<nat>, k: nat) {
    forall i | 0 <= i < |xs| :: Num(BitsOf(xs[i], k)) == xs[i]
  }

  lemma {:induction false} NumBits(bs: seq<bool>)
    ensures BitsOf(Num(bs), |bs|) == bs
    decreases |bs|
  {
    if bs != [] {
      var rest, b := bs[..|bs| - 1], bs[|bs| - 1];
      NumBits(rest);
      var v := Num(bs);
      assert v / 2 == Num(rest) && v % 2 == (if b then 1 else 0);
    }
  }

  /** Shifting in `m` bits. */
  lemma {:induction false} BitsShl(v: nat, x: nat, n: nat, m: nat)
    requires Mask(x, m) == x
    ensures BitsOf(Shl(v, m) + x, n + m) == BitsOf(v, n) + BitsOf(x, m)
    decreases m
  {
    if m > 0 {
      var y := x / 2;
      MaskHalf(x, m);
      BitsShl(v, y, n, m - 1);
      assert (Shl(v, m) + x) / 2 == Shl(v, m - 1) + y && (Shl(v, m) + x) % 2 == x % 2;
    } else {
      assert BitsOf(v, n) + [] == BitsOf(v, n);
      assert x == 0;
    }
  }

  lemma {:induction false} MaskHalf(x: nat, m: nat)
    requires m > 0 && Mask(x, m) == x
    ensures Mask(x / 2, m - 1) == x / 2
  {
    var bs := BitsOf(x, m);
    assert bs[..m - 1] == BitsOf(x / 2, m - 1);
    assert Num(bs) == 2 * Num(bs[..m - 1]) + (if bs[m - 1] then 1 else 0);
  }

  /** Taking off the high bits. */
  lemma {:induction false} BitsShr(v: nat, n: nat, b: nat)
    ensures BitsOf(v, n + b) == BitsOf(Shr(v, b), n) + BitsOf(v, b)
    decreases b
  {
    if b > 0 {
      BitsShr(v / 2, n, b - 1);
      ShrHalf(v, b);
      assert BitsOf(v, n + b) == BitsOf(v / 2, n + b - 1) + [v % 2 == 1];
      assert BitsOf(v, b) == BitsOf(v / 2, b - 1) + [v % 2 == 1];
    } else {
      assert BitsOf(v, n) + [] == BitsOf(v, n);
    }
  }

  lemma {:induction false} ShrHalf(v: nat, b: nat)
    requires b > 0
    ensures Shr(v, b) == Shr(v / 2, b - 1)
  {
    if b > 1 { ShrHalf(v, b - 1); }
  }

  /** Bits beyond the low `m` do not show in the low `n <= m`. */
  lemma {:induction false} BitsAbove(v: nat, q: nat, n: nat, m: nat)
    requires n <= m
    ensures BitsOf(v + Shl(q, m), n) == BitsOf(v, n)
    decreases n
  {
    if n > 0 {
      BitsAbove(v / 2, q, n - 1, m - 1);
      assert (v + Shl(q, m)) / 2 == v / 2 + Shl(q, m - 1) && (v + Shl(q, m)) % 2 == v % 2;
    }
  }

  lemma {:induction false} ShlEight(q: nat)
    ensures Shl(q, 8) == 256 * q
  {
    assert Shl(q, 1) == 2 * q && Shl(q, 2) == 4 * q && Shl(q, 3) == 8 * q && Shl(q, 4) == 16 * q;
    assert Shl(q, 5) == 32 * q && Shl(q, 6) == 64 * q && Shl(q, 7) == 128 * q;
  }

  lemma {:induction false} ShlShl(q: nat, a: nat, b: nat)
    ensures Shl(Shl(q, a), b) == Shl(q, a + b)
    decreases b
  {
    if b > 0 { ShlShl(q, a, b - 1); }
  }

  /** The 32-bit accumulator wraps, but its low bits are those of the whole number. */
  lemma {:induction false} BitsLow32(v: nat, n: nat)
    requires n <= 32
    ensures BitsOf(Low32(v), n) == BitsOf(v, n)
  {
    if v >= U32_SIZE {
      var q := v / U32_SIZE;
      ShlEight(q);
      ShlEight(Shl(q, 8));
      ShlEight(Shl(q, 16));
      ShlEight(Shl(q, 24));
      ShlShl(q, 8, 8);
      ShlShl(q, 16, 8);
      ShlShl(q, 24, 8);
      assert Shl(q, 32) == U32_SIZE * q;
      BitsAbove(Low32(v), q, n, 32);
    }
  }

  // ---------- Regrouping ----------

  /** The full groups of `k` bits. */
  function Groups(bs: seq<bool>, k: nat): seq<nat>
    requires k > 0
    decreases |bs|
  {
    if |bs| < k then [] else [Num(bs[..k])] + Groups(bs[k..], k)
  }

  /** The bits left over. */
  function Rest(bs: seq<bool>, k: nat): (r: seq<bool>)
    requires k > 0
    ensures |r| < k && |r| <= |bs|
    decreases |bs|
  {
    if |bs| < k then bs else Rest(bs[k..], k)
  }

  predicate AllClear(bs: seq<bool>) {
    forall i | 0 <= i < |bs| :: !bs[i]
  }

  /** The result of `convert_bits` on words of `inbits` bits. */
  function Convert(max: nat, outbits: nat, xs: seq<nat>, inbits: nat, pad: bool): Option<seq<nat>>
    requires outbits > 0
  {
    var bs := Flatten(xs, inbits);
    Finish(max, outbits, Groups(bs, outbits), Rest(bs, outbits), inbits, pad)
  }

  /** The output from the full groups and the bits left over. */
  function Finish(max: nat, outbits: nat, g: seq<nat>, r: seq<bool>, inbits: nat, pad: bool): Option<seq<nat>>
    requires |r| <= outbits
  {
    var out := if pad && r != [] then g + [Num(r + Clear(outbits - |r|))] else g;
    if |out| > max || (!pad && (!AllClear(r) || |r| >= inbits)) then None else Some(out)
  }

  lemma {:induction false} FlattenLast(xs: seq<nat>, x: nat, k: nat)
    ensures Flatten(xs + [x], k) == Flatten(xs, k) + BitsOf(x, k)
  {
    hide BitsOf;
    var zs := xs + [x];
    assert zs[..|zs| - 1] == xs && zs[|zs| - 1] == x;
  }

  lemma {:induction false} FlattenPlus(xs: seq<nat>, ys: seq<nat>, k: nat)
    ensures Flatten(xs + ys, k) == Flatten(xs, k) + Flatten(ys, k)
    decreases |ys|
  {
    hide BitsOf, Flatten;
    if ys == [] {
      FlattenNone(k);
      assert xs + ys == xs;
    } else {
      var zs, y := ys[..|ys| - 1], ys[|ys| - 1];
      assert zs + [y] == ys && xs + zs + [y] == xs + ys;
      FlattenPlus(xs, zs, k);
      FlattenLast(xs + zs, y, k);
      FlattenLast(zs, y, k);
      Reassociate(Flatten(xs, k), Flatten(zs, k), BitsOf(y, k));
    }
  }

  lemma {:induction false} FlattenOne(x: nat, k: nat)
    ensures Flatten([x], k) == BitsOf(x, k)
  {
    assert [x][..0] == [];
    assert Flatten([x], k) == [] + BitsOf(x, k);
  }

  /** Words and a rest shorter than a word are told apart again. */
  lemma {:induction false} GroupsOf(xs: seq<nat>, r: seq<bool>, k: nat)
    requires |r| < k && Fits(xs, k)
    ensures Groups(Flatten(xs, k) + r, k) == xs && Rest(Flatten(xs, k) + r, k) == r
    decreases |xs|
  {
    hide BitsOf, Num, Flatten;
    if xs == [] {
      FlattenNone(k);
      assert [] + r == r;
    } else {
      FlattenFirst(xs, k);
      var w, more := BitsOf(xs[0], k), Flatten(xs[1..], k) + r;
      assert Flatten(xs, k) + r == w + more;
      assert (w + more)[..k] == w && (w + more)[k..] == more;
      assert Num(BitsOf(xs[0], k)) == xs[0];
      FitsRest(xs, k);
      GroupsOf(xs[1..], r, k);
    }
  }

  lemma {:induction false} FlattenNone(k: nat)
    ensures Flatten([], k) == []
  {
  }

  lemma {:induction false} FlattenFirst(xs: seq<nat>, k: nat)
    requires xs != []
    ensures Flatten(xs, k) == BitsOf(xs[0], k) + Flatten(xs[1..], k)
  {
    hide BitsOf;
    FlattenPlus([xs[0]], xs[1..], k);
    FlattenOne(xs[0], k);
    assert [xs[0]] + xs[1..] == xs;
  }

  lemma {:induction false} FitsRest(xs: seq<nat>, k: nat)
    requires xs != []
    ensures Fits(xs, k) <==> Num(BitsOf(xs[0], k)) == xs[0] && Fits(xs[1..], k)
  {
    hide Num, BitsOf;
    if Fits(xs, k) {
      forall i | 0 <= i < |xs[1..]| ensures Num(BitsOf(xs[1..][i], k)) == xs[1..][i] { assert xs[1..][i] == xs[i + 1]; }
    }
    if Num(BitsOf(xs[0], k)) == xs[0] && Fits(xs[1..], k) {
      forall i | 0 <= i < |xs| ensures Num(BitsOf(xs[i], k)) == xs[i] { if i > 0 { assert xs[1..][i - 1] == xs[i]; } }
    }
  }

  lemma {:induction false} FitsPlus(xs: seq<nat>, x: nat, k: nat)
    requires Fits(xs, k) && Num(BitsOf(x, k)) == x
    ensures Fits(xs + [x], k)
  {
    hide Num, BitsOf;
  }

  lemma {:induction false} GroupsFirst(bs: seq<bool>, k: nat)
    requires 0 < k <= |bs|
    ensures Groups(bs, k) == [Num(bs[..k])] + Groups(bs[k..], k) && Rest(bs, k) == Rest(bs[k..], k)
  {
  }

  lemma {:induction false} OneInFront(x: nat, xs: seq<nat>, k: nat)
    ensures Flatten([x] + xs, k) == BitsOf(x, k) + Flatten(xs, k)
    ensures Fits([x] + xs, k) <==> Num(BitsOf(x, k)) == x && Fits(xs, k)
  {
    hide BitsOf, Flatten, Fits;
    var ys := [x] + xs;
    assert ys[0] == x && ys[1..] == xs;
    FlattenFirst(ys, k);
    FitsRest(ys, k);
  }

  lemma {:induction false} GroupsFit(bs: seq<bool>, k: nat)
    requires k > 0
    ensures Fits(Groups(bs, k), k) && Flatten(Groups(bs, k), k) + Rest(bs, k) == bs
    decreases |bs|
  {
    hide *;
    if |bs| >= k {
      var w, more := bs[..k], bs[k..];
      GroupsFit(more, k);
      NumBits(w);
      GroupsFirst(bs, k);
      OneInFront(Num(w), Groups(more, k), k);
      Reassociate(w, Flatten(Groups(more, k), k), Rest(more, k));
      assert w + more == bs;
    } else {
      GroupsNone(bs, k);
    }
  }

  lemma {:induction false} GroupsNone(bs: seq<bool>, k: nat)
    requires |bs| < k
    ensures Fits(Groups(bs, k), k) && Flatten(Groups(bs, k), k) + Rest(bs, k) == bs
  {
    assert Groups(bs, k) == [] && Flatten([], k) + bs == bs;
  }

  lemma {:induction false} FlattenInjective(xs: seq<nat>, ys: seq<nat>, k: nat)
    requires k > 0 && Fits(xs, k) && Fits(ys, k) && Flatten(xs, k) == Flatten(ys, k)
    ensures xs == ys
  {
    GroupsOf(xs, [], k);
    GroupsOf(ys, [], k);
    assert Flatten(xs, k) + [] == Flatten(xs, k);
    hide Groups, Flatten, Rest, Fits;
  }

  // ---------- The two conversions ----------

  const BYTE := 8
  const SYMBOL := 5

  /** Bytes to symbols, padded. */
  function ToSymbols(xs: seq<nat>): seq<nat> {
    var bs := Flatten(xs, BYTE);
    var g, r := Groups(bs, SYMBOL), Rest(bs, SYMBOL);
    if r != [] then g + [Num(r + Clear(SYMBOL - |r|))] else g
  }

  /** The padding of these bits to whole symbols. */
  function Padding(n: nat): (p: nat)
    ensures p < SYMBOL && (n + p) % SYMBOL == 0
  {
    (SYMBOL - n % SYMBOL) % SYMBOL
  }

  lemma {:induction false} SymbolRest(bs: seq<bool>)
    ensures |Rest(bs, SYMBOL)| == |bs| % SYMBOL && |Groups(bs, SYMBOL)| == |bs| / SYMBOL
    decreases |bs|
  {
    hide Num;
    if |bs| >= SYMBOL { SymbolRest(bs[SYMBOL..]); }
  }

  /** The symbols carry the bytes' bits, and then zeros up to a whole symbol. */
  lemma {:induction false} ToSymbolsBits(xs: seq<nat>)
    ensures Fits(ToSymbols(xs), SYMBOL)
    ensures Flatten(ToSymbols(xs), SYMBOL) == Flatten(xs, BYTE) + Clear(Padding(|Flatten(xs, BYTE)|))
  {
    hide BitsOf, Num, Flatten, Groups, Rest, Clear;
    var bs := Flatten(xs, BYTE);
    var g, r := Groups(bs, SYMBOL), Rest(bs, SYMBOL);
    GroupsFit(bs, SYMBOL);
    SymbolRest(bs);
    if r != [] {
      var pad := Clear(SYMBOL - |r|);
      NumBits(r + pad);
      FlattenPlus(g, [Num(r + pad)], SYMBOL);
      FlattenOne(Num(r + pad), SYMBOL);
      FitsPlus(g, Num(r + pad), SYMBOL);
      assert Flatten(g, SYMBOL) + (r + pad) == Flatten(g, SYMBOL) + r + pad;
    } else {
      assert Flatten(g, SYMBOL) + [] == Flatten(g, SYMBOL);
      assert bs + Clear(0) == bs;
    }
  }

  lemma {:induction false} FlattenLength(xs: seq<nat>, k: nat)
    ensures |Flatten(xs, k)| == k * |xs|
  {
    TimesIsProduct(|xs|, k);
  }

  /** `n` bytes become the least number of symbols that holds them. */
  lemma {:induction false} SymbolCount(xs: seq<nat>)
    ensures |ToSymbols(xs)| == (8 * |xs| + 4) / 5
  {
    var bs := Flatten(xs, BYTE);
    FlattenLength(xs, BYTE);
    SymbolRest(bs);
    hide Flatten, Groups, Rest, Num;
  }

  /** Regrouping into bytes undoes regrouping into symbols. */
  lemma {:induction false} BytesBack(max: nat, xs: seq<nat>)
    requires Fits(xs, BYTE) && |xs| <= max
    ensures Convert(max, BYTE, ToSymbols(xs), SYMBOL, false) == Some(xs)
  {
    var pad := Clear(Padding(|Flatten(xs, BYTE)|));
    ToSymbolsBits(xs);
    GroupsOf(xs, pad, BYTE);
    hide Flatten, Groups, Rest, ToSymbols, Num, Padding, Fits;
  }

  /** Regrouping symbols into bytes succeeds, given room, exactly on the symbols that come from bytes,
      and then returns those bytes. */
  lemma {:induction false} BytesIff(max: nat, xs: seq<nat>, ys: seq<nat>)
    requires Fits(xs, SYMBOL)
    ensures Convert(max, BYTE, xs, SYMBOL, false) == Some(ys) <==> Fits(ys, BYTE) && |ys| <= max && ToSymbols(ys) == xs
  {
    if Fits(ys, BYTE) && |ys| <= max && ToSymbols(ys) == xs {
      BytesBack(max, ys);
    }
    if Convert(max, BYTE, xs, SYMBOL, false) == Some(ys) {
      BytesImage(max, xs, ys);
    }
  }

  lemma {:induction false} BytesImage(max: nat, xs: seq<nat>, ys: seq<nat>)
    requires Fits(xs, SYMBOL) && Convert(max, BYTE, xs, SYMBOL, false) == Some(ys)
    ensures Fits(ys, BYTE) && |ys| <= max && ToSymbols(ys) == xs
  {
    var bs := Flatten(xs, SYMBOL);
    var r := Rest(bs, BYTE);
    GroupsFit(bs, BYTE);
    assert r == Clear(|r|);
    FlattenLength(xs, SYMBOL);
    FlattenLength(ys, BYTE);
    PaddingIs(|xs|, |ys|, |r|);
    ToSymbolsBits(ys);
    hide Flatten, Groups, Rest, ToSymbols, Num, Fits, Padding, Clear;
    FlattenInjective(ToSymbols(ys), xs, SYMBOL);
  }

  lemma {:induction false} PaddingIs(m: nat, n: nat, r: nat)
    requires 5 * m == 8 * n + r && r < 5
    ensures Padding(8 * n) == r
  {
  }

  // ---------- As numbers ----------

  /** The number whose digits, most significant first, are `xs` behind those of `v`. */
  function Number(v: nat, xs: seq<nat>, base: nat): nat
    decreases |xs|
  {
    if xs == [] then v else Number(v * base + xs[0], xs[1..], base)
  }

  lemma {:induction false} ShlIsProduct(v: nat, k: nat)
    ensures Shl(v, k) == v * Shl(1, k)
  {
    if k > 0 { ShlIsProduct(v, k - 1); }
  }

  lemma {:induction false} NumPlus(a: seq<bool>, b: seq<bool>)
    ensures Num(a + b) == Shl(Num(a), |b|) + Num(b)
    decreases |b|
  {
    if b == [] {
      assert a + b == a;
    } else {
      var c := b[..|b| - 1];
      NumPlus(a, c);
      assert (a + b)[..|a + b| - 1] == a + c;
    }
  }

  lemma {:induction false} FlattenNumber(bs: seq<bool>, xs: seq<nat>, k: nat)
    requires Fits(xs, k)
    ensures Num(bs + Flatten(xs, k)) == Number(Num(bs), xs, Shl(1, k))
    decreases |xs|
  {
    hide BitsOf, Num, Flatten, Shl;
    if xs == [] {
      FlattenNone(k);
      assert bs + [] == bs;
    } else {
      var w := BitsOf(xs[0], k);
      FlattenFirst(xs, k);
      FitsRest(xs, k);
      NumPlus(bs, w);
      ShlIsProduct(Num(bs), k);
      Reassociate(bs, w, Flatten(xs[1..], k));
      FlattenNumber(bs + w, xs[1..], k);
    }
  }

  lemma {:induction false} NumInjective(a: seq<bool>, b: seq<bool>)
    requires |a| == |b| && Num(a) == Num(b)
    ensures a == b
  {
    NumBits(a);
    NumBits(b);
    hide Num, BitsOf;
  }

  lemma {:induction false} FlattenNum(xs: seq<nat>, k: nat)
    requires Fits(xs, k)
    ensures Num(Flatten(xs, k)) == Number(0, xs, Shl(1, k))
  {
    assert Num([]) == 0;
    hide Num, Flatten, Fits, Number, Shl;
    FlattenNumber([], xs, k);
    assert [] + Flatten(xs, k) == Flatten(xs, k);
  }

  lemma {:induction false} Bases()
    ensures Shl(1, BYTE) == 256 && Shl(1, SYMBOL) == 32
  {
    ShlEight(1);
  }

  /** The symbols of some bytes are the digits, base 32, of the number whose digits, base 256, are the
      bytes, filled up with zero bits to whole symbols. */
  lemma {:induction false} SymbolsNumber(xs: seq<nat>, ys: seq<nat>)
    requires Fits(xs, BYTE)
    ensures ToSymbols(xs) == ys
       <==> Fits(ys, SYMBOL) && |ys| == (8 * |xs| + 4) / 5 && Number(0, ys, 32) == Shl(Number(0, xs, 256), Padding(8 * |xs|))
  {
    var bs, zs := Flatten(xs, BYTE), ToSymbols(xs);
    SymbolCount(xs);
    ToSymbolsBits(xs);
    FlattenLength(xs, BYTE);
    FlattenLength(ys, SYMBOL);
    FlattenLength(zs, SYMBOL);
    FlattenNum(xs, BYTE);
    FlattenNum(zs, SYMBOL);
    Bases();
    assert Num(Clear(Padding(|bs|))) == 0 by { NumZero(Clear(Padding(|bs|))); }
    hide *;
    NumPlus(bs, Clear(Padding(|bs|)));
    if Fits(ys, SYMBOL) && |ys| == |zs| && Number(0, ys, 32) == Number(0, zs, 32) {
      FlattenNum(ys, SYMBOL);
      NumInjective(Flatten(ys, SYMBOL), Flatten(zs, SYMBOL));
      FlattenInjective(ys, zs, SYMBOL);
    }
  }

  lemma {:induction false} GroupsPlus(xs: seq<nat>, r: seq<bool>, k: nat)
    requires k > 0 && Fits(xs, k)
    ensures Groups(Flatten(xs, k) + r, k) == xs + Groups(r, k) && Rest(Flatten(xs, k) + r, k) == Rest(r, k)
    decreases |xs|
  {
    hide BitsOf, Num, Flatten;
    if xs == [] {
      FlattenNone(k);
      assert [] + r == r;
    } else {
      FlattenFirst(xs, k);
      var w, more := BitsOf(xs[0], k), Flatten(xs[1..], k) + r;
      assert Flatten(xs, k) + r == w + more;
      assert (w + more)[..k] == w && (w + more)[k..] == more;
      assert Num(BitsOf(xs[0], k)) == xs[0];
      FitsRest(xs, k);
      GroupsPlus(xs[1..], r, k);
      assert [xs[0]] + (xs[1..] + Groups(r, k)) == xs + Groups(r, k);
    }
  }

  /** Five bytes become eight symbols, whatever follows. */
  lemma {:induction false} Block(xs: seq<nat>, ys: seq<nat>, rest: seq<nat>)
    requires |xs| == 5 && |ys| == 8 && Fits(xs, BYTE) && Fits(ys, SYMBOL) && Number(0, xs, 256) == Number(0, ys, 32)
    ensures ToSymbols(xs + rest) == ys + ToSymbols(rest)
  {
    hide Flatten, Num, Fits, Number, Shl, ToSymbols;
    FlattenNum(xs, BYTE);
    FlattenNum(ys, SYMBOL);
    Bases();
    FlattenLength(xs, BYTE);
    FlattenLength(ys, SYMBOL);
    NumInjective(Flatten(xs, BYTE), Flatten(ys, SYMBOL));
    SameBits(xs, ys, rest);
  }

  lemma {:induction false} SameBits(xs: seq<nat>, ys: seq<nat>, rest: seq<nat>)
    requires Fits(ys, SYMBOL) && Flatten(xs, BYTE) == Flatten(ys, SYMBOL)
    ensures ToSymbols(xs + rest) == ys + ToSymbols(rest)
  {
    hide Flatten, Groups, Rest, Num, Fits, Clear;
    FlattenPlus(xs, rest, BYTE);
    GroupsPlus(ys, Flatten(rest, BYTE), SYMBOL);
  }

  // ---------- The loops ----------

  /** What has been read is what has been written, and the low `bits` bits of `val`. */
  ghost predicate Balanced(read: seq<nat>, inbits: nat, written: seq<nat>, outbits: nat, val: u32, bits: nat) {
    Fits(written, outbits) && Flatten(read, inbits) == Flatten(written, outbits) + BitsOf(val, bits)
  }

  lemma {:induction false} ReadOne(xs: seq<nat>, i: nat, inbits: nat, written: seq<nat>, outbits: nat, val: u32, bits: nat)
    requires i < |xs| && Fits(xs, inbits) && Balanced(xs[..i], inbits, written, outbits, val, bits) && bits + inbits <= 32
    ensures Balanced(xs[..i + 1], inbits, written, outbits, Low32(Shl(val, inbits) + xs[i]), bits + inbits)
  {
    var v := Shl(val, inbits) + xs[i];
    assert Mask(xs[i], inbits) == xs[i];
    assert xs[..i + 1] == xs[..i] + [xs[i]];
    hide BitsOf, Num, Flatten, Mask, Low32, Shl, Fits;
    BitsShl(val, xs[i], bits, inbits);
    BitsLow32(v, bits + inbits);
    FlattenLast(xs[..i], xs[i], inbits);
    Reassociate(Flatten(written, outbits), BitsOf(val, bits), BitsOf(xs[i], inbits));
  }

  lemma {:induction false} WriteOne(read: seq<nat>, inbits: nat, written: seq<nat>, outbits: nat, val: u32, bits: nat)
    requires Balanced(read, inbits, written, outbits, val, bits + outbits)
    ensures Balanced(read, inbits, written + [Mask(Shr(val, bits), outbits)], outbits, val, bits)
  {
    var w := Mask(Shr(val, bits), outbits);
    NumBits(BitsOf(Shr(val, bits), outbits));
    hide BitsOf, Num, Flatten, Shr, Fits;
    BitsShr(val, outbits, bits);
    FlattenPlus(written, [w], outbits);
    FlattenOne(w, outbits);
    FitsPlus(written, w, outbits);
    Reassociate(Flatten(written, outbits), BitsOf(w, outbits), BitsOf(val, bits));
  }

  lemma {:induction false} Reassociate(a: seq<bool>, b: seq<bool>, c: seq<bool>)
    ensures a + (b + c) == a + b + c
  {
  }

  /** There is no room for a group that is complete. */
  lemma {:induction false} NoRoom(max: nat, xs: seq<nat>, i: nat, inbits: nat, written: seq<nat>, outbits: nat, val: u32, bits: nat, pad: bool)
    requires i <= |xs| && 0 < outbits <= bits && Balanced(xs[..i], inbits, written, outbits, val, bits) && |written| >= max
    ensures Convert(max, outbits, xs, inbits, pad).None?
  {
    var (done, rest) := (Flatten(xs[i..], inbits), BitsOf(val, bits));
    var more := rest + done;
    assert xs[..i] + xs[i..] == xs;
    FlattenPlus(xs[..i], xs[i..], inbits);
    Reassociate(Flatten(written, outbits), rest, done);
    GroupsPlus(written, more, outbits);
    AnyGroup(more, outbits);
    hide BitsOf, Num, Flatten, Fits, Groups, Rest, Clear, Convert;
    ConvertIs(max, outbits, xs, inbits, pad);
  }

  lemma {:induction false} AnyGroup(bs: seq<bool>, k: nat)
    requires 0 < k <= |bs|
    ensures |Groups(bs, k)| > 0
  {
  }

  /** The conversion, from the groups and what is left over. */
  lemma {:induction false} ConvertIs(max: nat, outbits: nat, xs: seq<nat>, inbits: nat, pad: bool)
    requires outbits > 0
    ensures var bs := Flatten(xs, inbits); Convert(max, outbits, xs, inbits, pad) == Finish(max, outbits, Groups(bs, outbits), Rest(bs, outbits), inbits, pad)
  {
    hide Flatten, Groups, Rest, Num, Clear, AllClear;
  }

  lemma {:induction false} ZeroBits(n: nat)
    ensures BitsOf(0, n) == Clear(n)
  {
    if n > 0 { ZeroBits(n - 1); }
  }

  lemma {:induction false} NumZero(bs: seq<bool>)
    ensures Num(bs) == 0 <==> AllClear(bs)
  {
    if bs != [] {
      NumZero(bs[..|bs| - 1]);
      assert AllClear(bs) <==> AllClear(bs[..|bs| - 1]) && !bs[|bs| - 1];
    }
  }

  /** The last, padded, word. */
  lemma {:induction false} LastWord(val: u32, bits: nat, outbits: nat)
    requires bits <= outbits <= 32
    ensures Mask(Low32(Shl(val, outbits - bits)), outbits) == Num(BitsOf(val, bits) + Clear(outbits - bits))
  {
    var m := outbits - bits;
    ZeroBits(m);
    assert Mask(0, m) == 0 by { NumZero(Clear(m)); }
    BitsShl(val, 0, bits, m);
    BitsLow32(Shl(val, m), outbits);
    hide BitsOf, Num, Shl, Low32, Clear;
  }

  lemma {:induction false} PadClear(bs: seq<bool>, n: nat)
    ensures AllClear(bs + Clear(n)) <==> AllClear(bs)
  {
    assert forall i | 0 <= i < |bs| :: (bs + Clear(n))[i] == bs[i];
  }

  /** The output from the full words, and the last word that the pending bits make. */
  function Outcome(max: nat, written: seq<nat>, w: nat, bits: nat, inbits: nat, pad: bool): Option<seq<nat>> {
    var out := if pad && bits > 0 then written + [w] else written;
    if |out| > max || (!pad && (w != 0 || bits >= inbits)) then None else Some(out)
  }

  lemma {:induction false} FinishIs(max: nat, outbits: nat, g: seq<nat>, r: seq<bool>, inbits: nat, pad: bool)
    requires |r| <= outbits
    ensures Finish(max, outbits, g, r, inbits, pad) == Outcome(max, g, Num(r + Clear(outbits - |r|)), |r|, inbits, pad)
  {
    var zeros := Clear(outbits - |r|);
    NumZero(r + zeros);
    PadClear(r, outbits - |r|);
    hide Num, Clear, AllClear;
  }

  /** All has been read, and less than a word is pending. */
  lemma {:induction false} ReadAll(max: nat, xs: seq<nat>, inbits: nat, written: seq<nat>, outbits: nat, val: u32, bits: nat, pad: bool)
    requires Balanced(xs, inbits, written, outbits, val, bits) && bits < outbits <= 32
    ensures Convert(max, outbits, xs, inbits, pad)
         == Outcome(max, written, Mask(Low32(Shl(val, outbits - bits)), outbits), bits, inbits, pad)
  {
    var r := BitsOf(val, bits);
    assert Fits(written, outbits) && Flatten(xs, inbits) == Flatten(written, outbits) + r;
    hide *;
    GroupsOf(written, r, outbits);
    LastWord(val, bits, outbits);
    FinishIs(max, outbits, written, r, inbits, pad);
    ConvertIs(max, outbits, xs, inbits, pad);
  }

  /** `convert_bits`. */
  method ConvertBits(out: array<nat>, max: nat, outbits: nat, xs: seq<nat>, inbits: nat, pad: bool) returns (ok: bool, n: nat)
    requires 0 < outbits <= 8 && 0 < inbits <= 8 && Fits(xs, inbits) && max <= out.Length
    modifies out
    ensures ok == Convert(max, outbits, xs, inbits, pad).Some?
    ensures ok ==> n <= max && Convert(max, outbits, xs, inbits, pad) == Some(out[..n])
  {
    hide BitsOf, Num, Flatten, Fits, Mask, Low32, Shl, Shr, Convert;
    var val: u32 := 0;
    var bits: nat := 0;
    ok, n := false, 0;
    Start(xs, inbits, outbits);
    var i := 0;
    while i < |xs|
      invariant i <= |xs| && n <= max && bits < outbits
      invariant Balanced(xs[..i], inbits, out[..n], outbits, val, bits)
    {
      ReadOne(xs, i, inbits, out[..n], outbits, val, bits);
      val := Low32(Shl(val, inbits) + xs[i]);
      bits := bits + inbits;
      while bits >= outbits
        invariant n <= max && bits < outbits + inbits
        invariant Balanced(xs[..i + 1], inbits, out[..n], outbits, val, bits)
      {
        if n >= max {
          NoRoom(max, xs, i + 1, inbits, out[..n], outbits, val, bits, pad);
          return;
        }
        bits := bits - outbits;
        WriteOne(xs[..i + 1], inbits, out[..n], outbits, val, bits);
        out[n] := Mask(Shr(val, bits), outbits);
        n := n + 1;
        assert out[..n] == out[..n - 1] + [Mask(Shr(val, bits), outbits)];
      }
      i := i + 1;
    }
    assert xs[..|xs|] == xs;
    ReadAll(max, xs, inbits, out[..n], outbits, val, bits, pad);
    var w := Mask(Low32(Shl(val, outbits - bits)), outbits);
    if pad {
      if bits > 0 {
        if n >= max { return; }
        out[n] := w;
        n := n + 1;
        assert out[..n] == out[..n - 1] + [w];
      }
    } else if w != 0 || bits >= inbits {
      return;
    }
    ok := true;
  }

  lemma {:induction false} Start(xs: seq<nat>, inbits: nat, outbits: nat)
    ensures Balanced(xs[..0], inbits, [], outbits, 0, 0)
  {
  }
}
