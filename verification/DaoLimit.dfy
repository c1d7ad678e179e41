/** How far the checks of DAO outputs reach: the device notes them in a mask of 64 bits. */
module DaoLimit {
  import opened Words
  import opened Encoding
  import opened Transaction
  import opened Schema
  import opened Ledger
  import opened LedgerCells
  import opened LedgerRuns
  import opened LedgerTotal
  import opened Spending
  import opened Payments
  import opened Accounting
  import opened Operations

  /** Whether a data item is taken for that of a DAO cell, and when that is right: always up to number
      31; from 32 on only if the output is a DAO cell exactly if the mask has its bit, which it has, up
      to 63, exactly if output 31 is a DAO cell. */
  lemma {:induction false} ItemSeen(k: Keys, v: Val, b: Book, i: nat)
    requires Ordinary(v) && RawForm(v) && AllPlain(OutsOf(v)) && !BeforeOutputsEnd(k, v).shown.unsafe && i < |OutsOf(v)|
    requires b.sent.mask == BeforeOutputsEnd(k, v).sent.mask
    ensures var outs, seen := OutsOf(v), DatumStart(b, i).cell.isDao;
            && (seen <==> Noted(outs, 0, i))
            && ((seen <==> IsDao(outs[i])) <==> (i < 32 || (IsDao(outs[i]) <==> i < 64 && IsDao(outs[31]))))
  {
    MaskSays(k, v);
    hide IsDao, OutsOf, BeforeOutputsEnd, RawForm, AllPlain, Ordinary, GoesOut, CellShape, Plain;
  }

  /** A cell of ours that holds nothing, in the DAO or not. */
  function OwnCell(k: Keys, dao: bool): Val {
    Items([Blob(Zero(8)), Items([Blob(DefaultLock()), Blob([1]), Blob(k.change)]),
           if dao then Some(Items([Blob(DaoType()), Blob([1]), Blob([])])) else None])
  }

  lemma {:induction false} LockLengths()
    ensures |DefaultLock()| == 32 && |DaoType()| == 32
  {
  }

  lemma {:induction false} OwnCellIs(k: Keys, dao: bool)
    ensures var c := OwnCell(k, dao);
            && CellShape(c) && Plain(c) && ArgsOf(c) == k.change && IsDao(c) == dao && !IsMultisig(c) && !OddLock(k, c) && !OddType(k, c)
  {
    LocksDiffer();
    LockLengths();
    hide DefaultLock, MultisigLock, DaoType;
  }

  /** One of our outputs. */
  lemma {:induction false} OwnOutput(k: Keys, b: Book, dao: bool, j: nat)
    requires Opened(b) && b.sent.at == j
    ensures CellShape(OwnCell(k, dao))
    ensures var r := OutputStart(OutputEnd(OverCell(k, b, Quiet, LockArgsOut, OwnCell(k, dao))), j + 1);
            && Opened(r) && r.sent.at == j + 1 && r.shown == b.shown.(hasChange := true)
            && r.sent.mask == (if dao then b.sent.mask + ShiftBit(j) else b.sent.mask)
  {
    var c := OwnCell(k, dao);
    OwnCellIs(k, dao);
    DiffersIs(k.change, k.change, b.owner);
    assert !Elsewhere(k, b, c) by { hide OwnCell, CellShape, Differs; }
    OutputIs(k, b, c);
    assert OverCell(k, b, Quiet, LockArgsOut, c) == b.(cell := OutputCell(k, b, c), arg := Padded(ArgsOf(c))) by {
      hide OverCell, OwnCell, OutputCell, Padded, OddLock, OddType, CellShape;
    }
    hide OverCell, OwnCell, CellShape, ShiftBit, IsDao, IsMultisig, Elsewhere, Padded, Amount, ArgsOf, OddLock, OddType, Zero, Add64, Pay;
  }

  /** Outputs that are all ours, the first and the last in the DAO. */
  predicate OursOnly(k: Keys, outs: seq<Val>) {
    |outs| > 32 && forall i | 0 <= i < |outs| :: outs[i] == OwnCell(k, i == 0 || i == |outs| - 1)
  }

  lemma {:induction false} OursShaped(k: Keys, outs: seq<Val>)
    requires OursOnly(k, outs)
    ensures CellShapes(outs) && AllPlain(outs)
  {
    forall i | 0 <= i < |outs| ensures CellShape(outs[i]) && Plain(outs[i]) {
      OwnCellIs(k, i == 0 || i == |outs| - 1);
      hide CellShape, Plain, OwnCell;
    }
    hide CellShape, Plain, OwnCell;
  }

  lemma {:induction false} OutputsFrom(k: Keys, b: Book, outs: seq<Val>, j: nat)
    requires OursOnly(k, outs) && CellShapes(outs) && j <= |outs| && Opened(b) && b.sent.at == j
    ensures var r := AllOutputs(k, b, outs, j);
            && r.shown.unsafe == b.shown.unsafe && r.shown.tag == b.shown.tag && r.cell == BLANK_CELL.(active := true)
            && r.sent.mask == if j == 0 then b.sent.mask + {0} else b.sent.mask
    decreases |outs| - j
  {
    hide OverCell, OutputEnd, OutputStart, OwnCell, CellShape;
    if j < |outs| {
      OwnOutput(k, b, j == 0 || j == |outs| - 1, j);
      OutputsFrom(k, OutputStart(OutputEnd(OverCell(k, b, Quiet, LockArgsOut, outs[j])), j + 1), outs, j + 1);
    }
  }

  /** Eight zero bytes for the first output, and no data for the others. */
  predicate FirstOnly(datas: seq<Val>) {
    |datas| > 0 && forall i | 0 <= i < |datas| :: datas[i] == Blob(if i == 0 then Zero(8) else [])
  }

  lemma {:induction false} OneDatum(k: Keys, b: Book, j: nat)
    requires b.cell.active && !b.cell.nonzero && b.sent.mask == {0} && b.cell.isDao == (j == 0)
    requires !b.shown.unsafe && b.shown.tag == if j == 0 then NOT_SET else DEPOSIT
    ensures var r := DatumStart(OverDatum(k, b, OutputDatum, Blob(if j == 0 then Zero(8) else [])), j + 1);
            && r.cell.active && !r.cell.nonzero && r.sent.mask == {0} && !r.cell.isDao && !r.shown.unsafe && r.shown.tag == DEPOSIT
  {
  }

  lemma {:induction false} DataFrom(k: Keys, b: Book, datas: seq<Val>, j: nat)
    requires FirstOnly(datas) && Blobs(datas) && j <= |datas|
    requires b.cell.active && !b.cell.nonzero && b.sent.mask == {0} && b.cell.isDao == (j == 0)
    requires !b.shown.unsafe && b.shown.tag == if j == 0 then NOT_SET else DEPOSIT
    ensures var r := AllData(k, b, datas, j); !r.shown.unsafe && r.shown.tag == DEPOSIT
    decreases |datas| - j
  {
    hide OverDatum, DatumStart;
    if j < |datas| {
      OneDatum(k, b, j);
      DataFrom(k, DatumStart(OverDatum(k, b, OutputDatum, datas[j]), j + 1), datas, j + 1);
    }
  }

  lemma {:induction false} DepositEnds(b: Book)
    requires !b.shown.unsafe && b.shown.tag == DEPOSIT
    ensures !Finalize(b).shown.unsafe && Finalize(b).shown.tag == DEPOSIT
  {
  }

  lemma {:induction false} BeforeAny(b: Book)
    requires b.sent == NothingSent()
    ensures var r := OutputStart(b, 0); r.sent.mask == {} && Opened(r) && r.sent.at == 0 && r.shown == b.shown
  {
  }

  lemma {:induction false} EndsSame(k: Keys, b: Book)
    requires b.sent.mask == {0}
    ensures var r := DatumStart(OutputsEnd(k, b), 0); r.cell == b.cell.(isDao := true) && r.sent == b.sent && r.shown == b.shown
  {
  }

  /** An accepted deposit. */
  lemma {:induction false} OursAccepted(k: Keys, b: Book, outs: seq<Val>, datas: seq<Val>)
    requires OursOnly(k, outs) && CellShapes(outs) && FirstOnly(datas) && Blobs(datas)
    requires b.sent == NothingSent() && !b.shown.unsafe && b.shown.tag == NOT_SET
    ensures var r := Finalize(AllData(k, DatumStart(OutputsEnd(k, AllOutputs(k, OutputStart(b, 0), outs, 0)), 0), datas, 0));
            !r.shown.unsafe && r.shown.tag == DEPOSIT
  {
    hide *;
    var b1 := AllOutputs(k, OutputStart(b, 0), outs, 0);
    OutputsOurs(k, b, outs);
    EndsSame(k, b1);
    DataFrom(k, DatumStart(OutputsEnd(k, b1), 0), datas, 0);
    DepositEnds(AllData(k, DatumStart(OutputsEnd(k, b1), 0), datas, 0));
  }

  lemma {:induction false} OutputsOurs(k: Keys, b: Book, outs: seq<Val>)
    requires OursOnly(k, outs) && CellShapes(outs) && b.sent == NothingSent()
    ensures var r := AllOutputs(k, OutputStart(b, 0), outs, 0);
            && r.shown.unsafe == b.shown.unsafe && r.shown.tag == b.shown.tag && r.sent.mask == {0}
            && r.cell.active && !r.cell.nonzero
  {
    hide *;
    BeforeAny(b);
    OutputsFrom(k, OutputStart(b, 0), outs, 0);
    Added(OutputStart(b, 0).sent.mask, 0);
    BlankIs();
  }

  lemma {:induction false} Added(s: set<nat>, i: nat)
    requires s == {}
    ensures s + {i} == {i}
  {
  }

  lemma {:induction false} BlankIs()
    ensures !BLANK_CELL.(active := true).nonzero
  {
  }

  /** The bound is tight: at every index from 32 on, whatever the inputs, there can be a DAO output
      without data in a deposit that is accepted. */
  lemma {:induction false} DepositMissed(k: Keys, b: Book, i: nat) returns (outs: seq<Val>, datas: seq<Val>)
    requires i >= 32 && b.sent == NothingSent() && !b.shown.unsafe && b.shown.tag == NOT_SET
    ensures CellShapes(outs) && AllPlain(outs) && Blobs(datas) && |outs| == |datas| == i + 1
    ensures IsDao(outs[i]) && datas[i].bytes == []
    ensures var r := Finalize(AllData(k, DatumStart(OutputsEnd(k, AllOutputs(k, OutputStart(b, 0), outs, 0)), 0), datas, 0));
            !r.shown.unsafe && r.shown.tag == DEPOSIT
  {
    outs := seq(i + 1, n => OwnCell(k, n == 0 || n == i));
    datas := seq(i + 1, n => Blob(if n == 0 then Zero(8) else []));
    OwnCellIs(k, true);
    assert OursOnly(k, outs) && FirstOnly(datas) && Blobs(datas) && outs[i] == OwnCell(k, true) && datas[i].bytes == [] by { hide OwnCell; }
    hide *;
    OursShaped(k, outs);
    OursAccepted(k, b, outs, datas);
  }
}
