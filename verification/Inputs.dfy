/** The accounts of the inputs: of each source transaction only the output that is spent counts. */
module Inputs {
  import opened Words
  import opened Schema
  import opened Automaton
  import opened Encoding
  import opened Transaction
  import opened Ledger
  import opened LedgerCells
  import opened LedgerRuns
  import opened LedgerTotal
  import opened Spending

  // ---------- Outputs of a source that are not spent ----------

  lemma {:induction false} IdleCell(k: Keys, b: Book, c: Val)
    requires CellShape(c) && !b.cell.active
    ensures OverCell(k, b, LockScript, LockArgs, c) == b
  {
    InputLockIs(k, b, c);
    if c.vals[2].Some? { TypeScriptIs(k, b, c.vals[2].val); }
    hide OverScript, CellShape, DefaultLock, MultisigLock, DaoType;
  }

  lemma {:induction false} ActiveCell(k: Keys, b: Book, c: Val)
    requires CellShape(c) && Awaited(b) && |ArgsOf(c)| <= ARG_MAX
    ensures var r := OverCell(k, b, LockScript, LockArgs, c); r.cell == InputCell(k, c) && r.src.index == b.src.index
  {
    InputIs(k, b, c);
    EndKeeps(AtLock(k, b, c));
    assert AtLock(k, b, c).src == b.src by { hide InputCell, OddLock, Padded, ArgsOf; }
    hide OverCell, InputCell, OddType, AtLock, CellShape, ArgsOf, LockEnd;
  }

  lemma {:induction false} EndKeeps(b: Book)
    ensures LockEnd(b).src.index == b.src.index
  {
  }

  lemma {:induction false} CellsStep(k: Keys, b: Book, vals: seq<Val>, j: nat)
    requires CellShapes(vals) && j < |vals|
    ensures SourceCells(k, b, vals, j) == SourceCells(k, SourceIndex(OverCell(k, b, LockScript, LockArgs, vals[j]), j + 1), vals, j + 1)
  {
  }

  lemma {:induction false} DatasStep(k: Keys, b: Book, vals: seq<Val>, j: nat)
    requires Blobs(vals) && j < |vals|
    ensures SourceDatas(k, b, vals, j) == SourceDatas(k, SourceIndex(OverDatum(k, b, InputDatum, vals[j]), j + 1), vals, j + 1)
  {
  }

  /** The book when the spent output has been read. */
  function AtCell(k: Keys, b: Book, c: Val): Book
    requires CellShape(c)
  {
    OverCell(k, SetActive(b, true), LockScript, LockArgs, c)
  }

  /** Before the output `i` that is spent is reached. */
  predicate Before(b: Book, j: nat) {
    b.cell == BLANK_CELL.(active := j == b.src.index) && b.arg == Zero(ARG_MAX)
  }

  lemma {:induction false} AfterSpent(k: Keys, b: Book, vals: seq<Val>, j: nat)
    requires CellShapes(vals) && j <= |vals| && !b.cell.active && b.src.index < j
    ensures SourceCells(k, b, vals, j) == b
    decreases |vals| - j
  {
    hide *;
    if j < |vals| {
      CellsIdle(k, b, vals, j);
      AfterSpent(k, b, vals, j + 1);
    } else {
      CellsEnd(k, b, vals);
    }
  }

  lemma {:induction false} CellsEnd(k: Keys, b: Book, vals: seq<Val>)
    requires CellShapes(vals)
    ensures SourceCells(k, b, vals, |vals|) == b
  {
  }

  lemma {:induction false} CellsIdle(k: Keys, b: Book, vals: seq<Val>, j: nat)
    requires CellShapes(vals) && j < |vals| && !b.cell.active && b.src.index < j
    ensures SourceCells(k, b, vals, j) == SourceCells(k, b, vals, j + 1)
  {
    IdleCell(k, b, vals[j]);
    assert SourceIndex(b, j + 1) == b;
    CellsStep(k, b, vals, j);
    hide OverCell, SourceCells, CellShape;
  }

  lemma {:induction false} CellsAt(k: Keys, b: Book, vals: seq<Val>, j: nat)
    requires CellShapes(vals) && j <= b.src.index < |vals| && Before(b, j) && |ArgsOf(vals[b.src.index])| <= ARG_MAX
    ensures SourceCells(k, b, vals, j) == SetActive(AtCell(k, b, vals[b.src.index]), false)
    decreases |vals| - j
  {
    hide *;
    if j == b.src.index {
      CellsHere(k, b, vals, j);
      AfterSpent(k, SetActive(AtCell(k, b, vals[j]), false), vals, j + 1);
    } else {
      CellsThere(k, b, vals, j);
      CellsAt(k, SourceIndex(b, j + 1), vals, j + 1);
    }
  }

  lemma {:induction false} CellsHere(k: Keys, b: Book, vals: seq<Val>, j: nat)
    requires CellShapes(vals) && j == b.src.index < |vals| && Before(b, j) && |ArgsOf(vals[j])| <= ARG_MAX
    ensures CellShape(vals[j])
    ensures var r := SetActive(AtCell(k, b, vals[j]), false);
            !r.cell.active && r.src.index == j && SourceCells(k, b, vals, j) == SourceCells(k, r, vals, j + 1)
  {
    var r := AtCell(k, b, vals[j]);
    assert SetActive(b, true) == b;
    assert r == OverCell(k, b, LockScript, LockArgs, vals[j]) by { hide OverCell; }
    ActiveCell(k, b, vals[j]);
    Deactivate(r, j);
    CellsStep(k, b, vals, j);
    hide *;
  }

  lemma {:induction false} CellsThere(k: Keys, b: Book, vals: seq<Val>, j: nat)
    requires CellShapes(vals) && j < b.src.index < |vals| && Before(b, j)
    ensures CellShape(vals[j]) && CellShape(vals[b.src.index])
    ensures var b1 := SourceIndex(b, j + 1);
            && b1.src == b.src && Before(b1, j + 1) && SourceCells(k, b, vals, j) == SourceCells(k, b1, vals, j + 1)
            && AtCell(k, b1, vals[b.src.index]) == AtCell(k, b, vals[b.src.index])
  {
    IdleCell(k, b, vals[j]);
    CellsStep(k, b, vals, j);
    var b1 := SourceIndex(b, j + 1);
    assert SetActive(b1, true) == SetActive(b, true) && Before(b1, j + 1) && b1.src == b.src;
    hide OverCell, SourceCells, SetActive, SourceIndex, CellShape, Before;
  }

  lemma {:induction false} Deactivate(r: Book, j: nat)
    requires r.src.index == j
    ensures SourceIndex(r, j + 1) == SetActive(r, false) && !SetActive(r, false).cell.active && SetActive(r, false).src == r.src
  {
  }

  // ---------- Data ----------

  /** An item of data that is not that of the spent output changes only the remembered size. */
  function Resize(b: Book, n: nat): Book {
    b.(cell := b.cell.(dataSize := n))
  }

  lemma {:induction false} IdleDatum(k: Keys, b: Book, v: Val)
    requires v.Blob? && |v.bytes| + 4 < U32_SIZE && !b.cell.active
    ensures OverDatum(k, b, InputDatum, v) == Resize(b, if |v.bytes| < 15 then |v.bytes| else 15)
  {
  }

  lemma {:induction false} DatumResize(k: Keys, b: Book, v: Val, n: nat)
    requires v.Blob? && |v.bytes| + 4 < U32_SIZE
    ensures OverDatum(k, Resize(b, n), InputDatum, v) == OverDatum(k, b, InputDatum, v)
  {
    assert DataSize(Resize(b, n), |v.bytes| + 4) == DataSize(b, |v.bytes| + 4);
    hide DataSize, DataPiece, InputData;
  }

  lemma {:induction false} DatumKeeps(k: Keys, b: Book, v: Val)
    requires v.Blob? && |v.bytes| + 4 < U32_SIZE
    ensures var r := OverDatum(k, b, InputDatum, v); r.src == b.src && r.cell.active == b.cell.active
  {
    hide HasNonzero;
  }

  lemma {:induction false} AfterDatum(k: Keys, b: Book, vals: seq<Val>, j: nat)
    requires Blobs(vals) && j <= |vals| && !b.cell.active && b.src.index < j
    ensures InputStart(SourceDatas(k, b, vals, j)) == InputStart(b)
    decreases |vals| - j
  {
    if j < |vals| {
      IdleDatum(k, b, vals[j]);
      var b1 := SourceIndex(OverDatum(k, b, InputDatum, vals[j]), j + 1);
      assert !b1.cell.active && b1.src == b.src && InputStart(b1) == InputStart(b);
      hide OverDatum, InputStart;
      AfterDatum(k, b1, vals, j + 1);
    }
  }

  lemma {:induction false} DatumAt(k: Keys, b: Book, vals: seq<Val>, j: nat)
    requires Blobs(vals) && j <= b.src.index < |vals| && b.cell.active == (j == b.src.index)
    ensures InputStart(SourceDatas(k, b, vals, j)) == InputStart(OverDatum(k, SetActive(b, true), InputDatum, vals[b.src.index]))
    decreases |vals| - j
  {
    DatasStep(k, b, vals, j);
    DatumKeeps(k, b, vals[j]);
    if j == b.src.index {
      DatumHere(k, b, vals, j);
      hide *;
      AfterDatum(k, SourceIndex(OverDatum(k, b, InputDatum, vals[j]), j + 1), vals, j + 1);
    } else {
      DatumThere(k, b, vals, j);
      hide *;
      DatumAt(k, SourceIndex(OverDatum(k, b, InputDatum, vals[j]), j + 1), vals, j + 1);
    }
  }

  lemma {:induction false} DatumHere(k: Keys, b: Book, vals: seq<Val>, j: nat)
    requires Blobs(vals) && j == b.src.index < |vals| && b.cell.active
    ensures var r := OverDatum(k, b, InputDatum, vals[j]);
            var b1 := SourceIndex(r, j + 1);
            !b1.cell.active && b1.src == b.src && InputStart(b1) == InputStart(r) && SetActive(b, true) == b
  {
    DatumKeeps(k, b, vals[j]);
    hide OverDatum;
  }

  lemma {:induction false} DatumThere(k: Keys, b: Book, vals: seq<Val>, j: nat)
    requires Blobs(vals) && j < b.src.index < |vals| && !b.cell.active
    ensures var i := b.src.index;
            var b1 := SourceIndex(OverDatum(k, b, InputDatum, vals[j]), j + 1);
            && b1.src == b.src && b1.cell.active == (j + 1 == i)
            && OverDatum(k, SetActive(b1, true), InputDatum, vals[i]) == OverDatum(k, SetActive(b, true), InputDatum, vals[i])
  {
    var n := if |vals[j].bytes| < 15 then |vals[j].bytes| else 15;
    IdleDatum(k, b, vals[j]);
    DatumResize(k, SetActive(b, true), vals[b.src.index], n);
    ResizeNext(b, n, j);
    hide *;
  }

  lemma {:induction false} ResizeNext(b: Book, n: nat, j: nat)
    ensures var b1 := SourceIndex(Resize(b, n), j + 1);
            && SetActive(b1, true) == Resize(SetActive(b, true), n) && b1.src == b.src && b1.cell.active == (j + 1 == b.src.index)
  {
  }

  // ---------- One input ----------

  function Outs(v: Val): seq<Val>
    requires v.Items? && |v.vals| == 2 && v.vals[1].Items? && |v.vals[1].vals| == 6 && v.vals[1].vals[4].Items?
  {
    v.vals[1].vals[4].vals
  }

  function Datas(v: Val): seq<Val>
    requires v.Items? && |v.vals| == 2 && v.vals[1].Items? && |v.vals[1].vals| == 6 && v.vals[1].vals[5].Items?
  {
    v.vals[1].vals[5].vals
  }

  /** The input spends an output its source has, whose lock argument fits the device's buffer. */
  ghost predicate InRange(v: Val)
    requires InputShape(v)
  {
    var i := IndexOf(v.vals[0]);
    && i < |Outs(v)| && i < |Datas(v)| && |ArgsOf(Outs(v)[i])| <= ARG_MAX
  }

  ghost function SpentCell(v: Val): (c: Val)
    requires InputShape(v) && InRange(v)
    ensures CellShape(c) && |ArgsOf(c)| <= ARG_MAX
  {
    Outs(v)[IndexOf(v.vals[0])]
  }

  ghost function SpentDatum(v: Val): (d: seq<u8>)
    requires InputShape(v) && InRange(v)
    ensures |d| + 4 < U32_SIZE
  {
    Datas(v)[IndexOf(v.vals[0])].bytes
  }

  /** The book after the spent cell and its data. */
  function Spend(k: Keys, b: Book, c: Val, d: seq<u8>): Book
    requires CellShape(c) && |d| + 4 < U32_SIZE
  {
    OverDatum(k, OverCell(k, SetActive(b, true), LockScript, LockArgs, c), InputDatum, Blob(d))
  }

  /** Of an input, what counts is the cell it spends and that cell's data. */
  lemma {:induction false} InputIsSpend(k: Keys, b: Book, v: Val)
    requires InputShape(v) && InRange(v) && b == InputStart(b)
    ensures InputStart(OverInput(k, b, v))
         == InputStart(Spend(k, b.(src := b.src.(index := IndexOf(v.vals[0]))), SpentCell(v), SpentDatum(v)))
  {
    var i, outs, datas := IndexOf(v.vals[0]), Outs(v), Datas(v);
    var b0 := b.(src := b.src.(index := i));
    var r := AtCell(k, b0, outs[i]);
    SourceAt(k, b0, outs, datas);
    assert datas[i] == Blob(SpentDatum(v));
    OverSourceIs(k, b0, v.vals[1]);
    assert OverInput(k, b, v) == OverSource(k, b0, v.vals[1]) by { hide OverSource, IndexOf; }
    hide OverSource, OverInput, OverDatum, OverCell, SourceDatas, SourceCells, CellShape, Typed, Encode, InputStart;
  }

  lemma {:induction false} OverSourceIs(k: Keys, b: Book, v: Val)
    requires SourceShape(v) && v.vals[4].vals != [] && v.vals[5].vals != []
    ensures InputStart(OverSource(k, b, v))
         == InputStart(SourceDatas(k, SourceIndex(SourceCells(k, SourceIndex(b, 0), v.vals[4].vals, 0), 0), v.vals[5].vals, 0))
  {
    hide SourceDatas, SourceCells, SourceShape;
  }

  lemma {:induction false} SourceAt(k: Keys, b: Book, outs: seq<Val>, datas: seq<Val>)
    requires CellShapes(outs) && Blobs(datas) && b.src.index < |outs| && b.src.index < |datas|
    requires b.cell == BLANK_CELL && b.arg == Zero(ARG_MAX) && |ArgsOf(outs[b.src.index])| <= ARG_MAX
    ensures InputStart(SourceDatas(k, SourceIndex(SourceCells(k, SourceIndex(b, 0), outs, 0), 0), datas, 0))
         == InputStart(OverDatum(k, AtCell(k, b, outs[b.src.index]), InputDatum, datas[b.src.index]))
  {
    var i := b.src.index;
    var b1 := SourceIndex(b, 0);
    CellsAt(k, b1, outs, 0);
    assert SetActive(b1, true) == SetActive(b, true);
    ActiveCell(k, SetActive(b, true), outs[i]);
    var r := AtCell(k, b, outs[i]);
    var b2 := SourceIndex(SetActive(r, false), 0);
    assert SetActive(b2, true) == r by { hide OverCell; }
    hide OverCell, OverDatum, SourceDatas, SourceCells, CellShape, InputStart;
    DatumAt(k, b2, datas, 0);
  }
}
