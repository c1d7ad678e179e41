/** What an unflagged transaction adds up to, bucket by bucket, from its cells. */
module Totals {
  import opened Words
  import opened Encoding
  import opened Transaction
  import opened Schema
  import opened Ledger
  import opened LedgerCells
  import opened LedgerRuns
  import opened LedgerTotal
  import opened Spending
  import opened Inputs
  import opened Conservation
  import opened Grouping
  import opened Payments
  import opened Accounting
  import opened Operations

  // ---------- Inputs ----------

  /** Where the capacity of a spent cell is counted: all plain cells, those of them that are locked for
      us, and DAO cells. */
  datatype Source = PlainCells | OwnCells | DaoCells

  predicate Feeds(k: Keys, c: Val, w: Source)
    requires CellShape(c)
  {
    match w
    case PlainCells => !IsDao(c)
    case OwnCells => !IsDao(c) && !Foreign(k, c)
    case DaoCells => IsDao(c)
  }

  ghost function Spends(k: Keys, vals: seq<Val>, j: nat, w: Source): nat
    requires AllInRange(vals) && j <= |vals|
    decreases |vals| - j
  {
    if j == |vals| then 0
    else (if Feeds(k, SpentCell(vals[j]), w) then Amount(SpentCell(vals[j])) else 0) + Spends(k, vals, j + 1, w)
  }

  function Purse(s: Spent, w: Source): u64 {
    match w
    case PlainCells => s.plain
    case OwnCells => s.mine
    case DaoCells => s.dao
  }

  lemma {:induction false} SpendsStep(k: Keys, vals: seq<Val>, j: nat, w: Source)
    requires AllInRange(vals) && j < |vals|
    ensures InputShape(vals[j]) && InRange(vals[j]) && CellShape(SpentCell(vals[j]))
    ensures Spends(k, vals, j, w) == (if Feeds(k, SpentCell(vals[j]), w) then Amount(SpentCell(vals[j])) else 0) + Spends(k, vals, j + 1, w)
  {
    hide Feeds, Amount, InputShape, InRange, SpentCell;
  }

  /** Every capacity is counted as plain or as that of a DAO cell. */
  lemma {:induction false} SpendsAll(k: Keys, vals: seq<Val>, j: nat)
    requires AllInRange(vals) && j <= |vals|
    ensures SpentSum(vals, j) == Spends(k, vals, j, PlainCells) + Spends(k, vals, j, DaoCells)
    decreases |vals| - j
  {
    hide AllInRange, IsDao, Amount, SpentCell, InputShape, InRange, CellShape;
    if j < |vals| {
      SpendsStep(k, vals, j, PlainCells);
      SpendsStep(k, vals, j, DaoCells);
      RangeAt(vals, j);
      SpendsAll(k, vals, j + 1);
    } else {
      NothingSpent(k, vals);
    }
  }

  lemma {:induction false} NothingSpent(k: Keys, vals: seq<Val>)
    requires AllInRange(vals)
    ensures SpentSum(vals, |vals|) == Spends(k, vals, |vals|, PlainCells) == Spends(k, vals, |vals|, DaoCells) == 0
  {
  }

  lemma {:induction false} ChargedPurse(k: Keys, b: Book, c: Val, d: seq<u8>, r: Book, w: Source)
    requires CellShape(c) && Charged(k, b, c, d, r)
    ensures Purse(r.spent, w) == Mod64(Purse(b.spent, w) + if Feeds(k, c, w) then Amount(c) else 0)
  {
    AddIsMod(Purse(b.spent, w), Amount(c));
    HeldSmallest(Purse(b.spent, w));
    hide IsDao, Foreign, IsMultisig, HasNonzero, Amount, CellShape, Mod64, Add64;
  }

  lemma {:induction false} HeldSmallest(a: u64)
    ensures Mod64(a + 0) == a
  {
  }

  lemma {:induction false} InputsPurse(k: Keys, b: Book, vals: seq<Val>, j: nat, w: Source)
    requires AllInRange(vals) && InputShapes(vals) && j <= |vals| && b == InputStart(b)
    ensures var r := AllInputs(k, b, vals, j); !r.shown.unsafe ==> Purse(r.spent, w) == Mod64(Purse(b.spent, w) + Spends(k, vals, j, w))
    decreases |vals| - j
  {
    hide *;
    if j < |vals| {
      SpendsStep(k, vals, j, w);
      var b1 := NextInput(k, b, vals[j]);
      InputEffect(k, b, vals[j]);
      InputsStep(k, b, vals, j);
      InputsHeld(k, b1, vals, j + 1);
      InputsPurse(k, b1, vals, j + 1, w);
      if !b1.shown.unsafe { ChargedPurse(k, b, SpentCell(vals[j]), SpentDatum(vals[j]), b1, w); }
      ModAdd(Purse(b.spent, w) + (Spends(k, vals, j, w) - Spends(k, vals, j + 1, w)), Spends(k, vals, j + 1, w));
    } else {
      InputsDone(k, b, vals);
      SpendsDone(k, vals, w);
      HeldSmallest(Purse(b.spent, w));
    }
  }

  lemma {:induction false} SpendsDone(k: Keys, vals: seq<Val>, w: Source)
    requires AllInRange(vals)
    ensures Spends(k, vals, |vals|, w) == 0
  {
  }

  // ---------- Outputs ----------

  /** Where an output goes: to another address, back to us, or into the DAO. */
  datatype Way = Away | Back | IntoDao

  function WayOf(k: Keys, c: Val): Way
    requires CellShape(c)
  {
    if IsDao(c) then IntoDao else if GoesOut(k, c) then Away else Back
  }

  function Sends(k: Keys, vals: seq<Val>, j: nat, w: Way): nat
    requires AllPlain(vals) && j <= |vals|
    decreases |vals| - j
  {
    if j == |vals| then 0 else (if WayOf(k, vals[j]) == w then Amount(vals[j]) else 0) + Sends(k, vals, j + 1, w)
  }

  function Portion(s: Sent, w: Way): u64 {
    match w
    case Away => s.plain
    case Back => s.change
    case IntoDao => s.dao
  }

  lemma {:induction false} SendsStep(k: Keys, vals: seq<Val>, j: nat, w: Way)
    requires AllPlain(vals) && j < |vals|
    ensures CellShape(vals[j]) && Plain(vals[j])
    ensures Sends(k, vals, j, w) == (if WayOf(k, vals[j]) == w then Amount(vals[j]) else 0) + Sends(k, vals, j + 1, w)
  {
    hide WayOf, Amount, CellShape, Plain;
  }

  /** Every output goes one way. */
  lemma {:induction false} SendsAll(k: Keys, vals: seq<Val>, j: nat)
    requires AllPlain(vals) && Fit(vals) && j <= |vals|
    ensures OutSum(vals, j) == Sends(k, vals, j, Away) + Sends(k, vals, j, Back) + Sends(k, vals, j, IntoDao)
    decreases |vals| - j
  {
    if j < |vals| { SendsAll(k, vals, j + 1); }
    hide IsDao, GoesOut, Amount, CellShape, Plain, ArgsOf;
  }

  lemma {:induction false} PassedPortion(k: Keys, b: Book, c: Val, r: Book, w: Way)
    requires CellShape(c) && Plain(c) && |ArgsOf(c)| <= ARG_MAX && Passed(k, b, c, r)
    ensures Portion(r.sent, w) == Mod64(Portion(b.sent, w) + if WayOf(k, c) == w then Amount(c) else 0)
    ensures r.shown.hasChange == (b.shown.hasChange || WayOf(k, c) != Away)
    ensures r.shown == b.shown.(hasDest := r.shown.hasDest, hasChange := r.shown.hasChange, tag := r.shown.tag)
  {
    GoesOutIs(k, b, c);
    AddIsMod(Portion(b.sent, w), Amount(c));
    HeldSmallest(Portion(b.sent, w));
    hide Elsewhere, GoesOut, IsDao, IsMultisig, Amount, ArgsOf, CellShape, Destined, Push, Add64, Mod64, Plain, ShiftBit;
  }

  lemma {:induction false} OutputsPortion(k: Keys, b: Book, vals: seq<Val>, j: nat, w: Way)
    requires AllPlain(vals) && Fit(vals) && CellShapes(vals) && j <= |vals| && Awaiting(b, j)
    ensures var r := AllOutputs(k, b, vals, j); !r.shown.unsafe ==> Portion(r.sent, w) == Mod64(Portion(b.sent, w) + Sends(k, vals, j, w))
    decreases |vals| - j
  {
    hide *;
    if j < |vals| {
      SendsStep(k, vals, j, w);
      OutputsStep(k, b, vals, j);
      var b1 := NextOutput(k, b, vals[j], j);
      NextEffect(k, b, vals[j], j);
      OutputsGone(k, b1, vals, j + 1);
      OutputsPortion(k, b1, vals, j + 1, w);
      if !b1.shown.unsafe { PassedPortion(k, b, vals[j], b1, w); }
      ModAdd(Portion(b.sent, w) + (Sends(k, vals, j, w) - Sends(k, vals, j + 1, w)), Sends(k, vals, j + 1, w));
    } else {
      OutputsDone(k, b, vals);
      SendsDone(k, vals, w);
      HeldSmallest(Portion(b.sent, w));
    }
  }

  lemma {:induction false} SendsDone(k: Keys, vals: seq<Val>, w: Way)
    requires AllPlain(vals)
    ensures Sends(k, vals, |vals|, w) == 0
  {
  }

  /** Something stays with us, or goes into the DAO. */
  predicate Keeps(k: Keys, vals: seq<Val>, j: nat)
    requires AllPlain(vals)
  {
    exists i | j <= i < |vals| :: WayOf(k, vals[i]) != Away
  }

  lemma {:induction false} OutputsKeep(k: Keys, b: Book, vals: seq<Val>, j: nat)
    requires AllPlain(vals) && Fit(vals) && CellShapes(vals) && j <= |vals| && Awaiting(b, j)
    ensures var r := AllOutputs(k, b, vals, j); !r.shown.unsafe ==> (r.shown.hasChange <==> b.shown.hasChange || Keeps(k, vals, j))
    decreases |vals| - j
  {
    hide *;
    if j < |vals| {
      SendsStep(k, vals, j, Away);
      OutputsStep(k, b, vals, j);
      var b1 := NextOutput(k, b, vals[j], j);
      NextEffect(k, b, vals[j], j);
      OutputsGone(k, b1, vals, j + 1);
      OutputsKeep(k, b1, vals, j + 1);
      if !b1.shown.unsafe { PassedPortion(k, b, vals[j], b1, Away); }
      KeepsStep(k, vals, j);
    } else {
      OutputsDone(k, b, vals);
      KeepsNothing(k, vals);
    }
  }

  lemma {:induction false} KeepsStep(k: Keys, vals: seq<Val>, j: nat)
    requires AllPlain(vals) && j < |vals|
    ensures CellShape(vals[j]) && (Keeps(k, vals, j) <==> WayOf(k, vals[j]) != Away || Keeps(k, vals, j + 1))
  {
    hide WayOf, CellShape, Plain;
  }

  lemma {:induction false} KeepsNothing(k: Keys, vals: seq<Val>)
    requires AllPlain(vals)
    ensures !Keeps(k, vals, |vals|)
  {
  }
}
