/** Capacities as the numbers that their eight bytes stand for. */
module Capacities {
  import opened Words
  import opened Encoding
  import opened Transaction
  import opened Ledger
  import opened LedgerCells
  import opened LedgerRuns
  import opened LedgerTotal
  import opened Spending
  import opened Inputs
  import opened Conservation
  import opened Payments
  import opened Accounting

  lemma {:induction false} EightBytes()
    ensures Radix(4) == U32_SIZE && Radix(8) == U64_SIZE
  {
    assert Radix(2) == 0x1_0000 && Radix(4) == U32_SIZE && Radix(6) == 0x1_0000_0000_0000;
  }

  lemma {:induction false} Halves(b: seq<u8>, k: nat)
    requires k <= |b|
    ensures LittleEndian(b) == LittleEndian(b[..k]) + Radix(k) * LittleEndian(b[k..])
  {
    if k == 0 {
      assert b[0..] == b && b[..0] == [];
    } else {
      Halves(b[1..], k - 1);
      assert b[1..][..k - 1] == b[..k][1..] && b[1..][k - 1..] == b[k..];
      Distribute(LittleEndian(b[..k][1..]), Radix(k - 1), LittleEndian(b[k..]));
    }
  }

  lemma {:induction false} Distribute(a: nat, p: nat, x: nat)
    ensures 0x100 * (a + p * x) == 0x100 * a + 0x100 * p * x
  {
  }

  /** A capacity is the number that its bytes stand for, least significant first. */
  lemma {:induction false} Unpack64Stands(b: seq<u8>)
    requires |b| == 8
    ensures Unpack64(b) == LittleEndian(b) && Digits(Unpack64(b), 8) == b
  {
    Halves(b, 4);
    EightBytes();
    UnpackStands(b[..4]);
    UnpackStands(b[4..]);
    DigitsOnly(b);
    hide LittleEndian, Unpack, Digits, Radix;
  }

  lemma {:induction false} Unpack64Digits(n: u64)
    ensures Unpack64(Digits(n, 8)) == n
  {
    EightBytes();
    DigitsStand(n, 8);
    Unpack64Stands(Digits(n, 8));
    hide Unpack64, Digits, LittleEndian, Radix;
  }

  function Total(ns: seq<u64>): nat {
    if ns == [] then 0 else ns[0] + Total(ns[1..])
  }

  /** These are the capacities of the spent cells, and of the outputs. */
  ghost predicate InCapacities(vals: seq<Val>, ns: seq<u64>)
    requires AllInRange(vals)
  {
    |ns| == |vals| && forall i | 0 <= i < |vals| :: SpentCell(vals[i]).vals[0].bytes == Digits(ns[i], 8)
  }

  predicate OutCapacities(vals: seq<Val>, ns: seq<u64>)
    requires Fit(vals)
  {
    |ns| == |vals| && forall i | 0 <= i < |vals| :: vals[i].vals[0].bytes == Digits(ns[i], 8)
  }

  lemma {:induction false} InTotal(vals: seq<Val>, ns: seq<u64>, j: nat)
    requires AllInRange(vals) && InCapacities(vals, ns) && j <= |vals|
    ensures SpentSum(vals, j) == Total(ns[j..])
    decreases |vals| - j
  {
    if j < |vals| {
      RangeAt(vals, j);
      InTotal(vals, ns, j + 1);
      Unpack64Digits(ns[j]);
      assert Amount(SpentCell(vals[j])) == ns[j] by { hide Unpack64, Digits, CellShape, SpentCell; }
      assert ns[j..][1..] == ns[j + 1..];
      hide Amount, SpentCell, InputShape, InRange, InCapacities, AllInRange;
    }
    hide Amount, SpentCell, InputShape, InRange, InCapacities, AllInRange;
  }

  lemma {:induction false} OutTotal(vals: seq<Val>, ns: seq<u64>, j: nat)
    requires Fit(vals) && OutCapacities(vals, ns) && j <= |vals|
    ensures OutSum(vals, j) == Total(ns[j..])
    decreases |vals| - j
  {
    if j < |vals| {
      OutTotal(vals, ns, j + 1);
      Unpack64Digits(ns[j]);
      assert CellShape(vals[j]);
      assert Amount(vals[j]) == ns[j] by { hide Unpack64, Digits, CellShape; }
      assert ns[j..][1..] == ns[j + 1..];
      hide Amount, CellShape, ArgsOf;
    }
    hide Amount, CellShape, ArgsOf;
  }

  /** Value is conserved, in shannons: if the capacities of the spent cells and of the outputs are these
      numbers, in 8 bytes each, and the transaction is not flagged, the fee shown is the difference of
      their sums modulo 2^64, and exactly that if the sums fit. */
  lemma {:induction false} FeeOfCapacities(k: Keys, v: Val, ins: seq<u64>, outs: seq<u64>)
    requires Countable(v) && AllInRange(InsOf(v)) && Fit(OutsOf(v)) && InCapacities(InsOf(v), ins) && OutCapacities(OutsOf(v), outs)
    ensures var r := Accounts(k, v);
            !r.shown.unsafe ==>
              && r.shown.fee == Mod64(if r.shown.tag == WITHDRAW then Total(outs) - Total(ins) else Total(ins) - Total(outs))
              && (r.shown.tag != WITHDRAW && Total(outs) <= Total(ins) < U64_SIZE ==> r.shown.fee == Total(ins) - Total(outs))
  {
    hide *;
    CountableIs(v);
    InTotal(InsOf(v), ins, 0);
    OutTotal(OutsOf(v), outs, 0);
    assert ins[0..] == ins && outs[0..] == outs;
    ValueConserved(k, v);
    if !Accounts(k, v).shown.unsafe { FeeExact(k, v); }
  }
}
