/** What the accounting callbacks make of a whole transaction. */
module LedgerRuns {
  import opened Words
  import opened Schema
  import opened Automaton
  import opened Views
  import opened Encoding
  import opened RoundTrip
  import opened Transaction
  import opened Shapes
  import opened Ledger
  import opened LedgerCells
  import R = Rewrite
  import D = RawDigest

  // ---------- Vectors and tables ----------

  /** The callbacks before item `j` of a vector. */
  function NextItem(b: Book, s: Schema, j: nat): Book
    requires s.DynVec?
  {
    OnIndex(OnStart(b, s.item.tag), s.tag, j)
  }

  lemma {:induction false} ItemInit(k: Keys, b: Book, s: Schema, j: nat)
    requires s.DynVec? && (s.item.Table? || s.item.Bytes?)
    ensures InitEv(s.item) == [Start(s.item.tag)]
    ensures Run(k, b, InitEv(s.item) + [Index(s.tag, j)]) == NextItem(b, s, j)
  {
    var b1 := OnStart(b, s.item.tag);
    assert Apply(k, b, Start(s.item.tag)) == b1 && Apply(k, b1, Index(s.tag, j)) == OnIndex(b1, s.tag, j);
    hide Apply, OnStart, OnIndex, Run;
    RunTwo(k, b, Start(s.item.tag), Index(s.tag, j));
    assert [Start(s.item.tag)] + [Index(s.tag, j)] == [Start(s.item.tag), Index(s.tag, j)];
  }

  lemma {:induction false} EnterItems(k: Keys, b: Book, s: Schema, nums: seq<u32>, n: nat)
    requires s.DynVec? && (s.item.Table? || s.item.Bytes?)
    ensures Run(k, b, EnterEv(s, nums, n)) == NextItem(b, s, 0)
  {
    var b1 := OnStart(b, s.item.tag);
    var l, i := Length(s.tag, Low32(n)), Index(s.tag, 0);
    assert Apply(k, b, Start(s.item.tag)) == b1 && Apply(k, b1, l) == b1 && Apply(k, b1, i) == OnIndex(b1, s.tag, 0);
    assert EnterEv(s, nums, n) == [Start(s.item.tag)] + [l, i];
    hide Apply, OnStart, OnIndex, Run;
    RunOne(k, b, Start(s.item.tag));
    RunTwo(k, b1, l, i);
    RunPlus(k, b, [Start(s.item.tag)], [l, i]);
  }

  /** An item that leaves `b1`, then the next one. */
  lemma {:induction false} ItemStep(k: Keys, b: Book, s: Schema, vals: seq<Val>, j: nat, b1: Book)
    requires s.DynVec? && (s.item.Table? || s.item.Bytes?) && j < |vals|
    requires forall i | j <= i < |vals| :: Typed(s.item, vals[i])
    requires Run(k, b, Replay(s.item, vals[j])) == b1
    ensures Run(k, b, ReplayKids(s, vals, j)) == Run(k, NextItem(b1, s, j + 1), ReplayKids(s, vals, j + 1))
  {
    forall i | j <= i < |vals| ensures Typed(Kid(s, i), vals[i]) {}
    assert Kid(s, j) == s.item && BetweenEv(s, j) == InitEv(s.item) + [Index(s.tag, j + 1)];
    ItemInit(k, b1, s, j + 1);
    R.KidsStep(s, vals, j);
    hide *;
    Chain(k, b, Replay(s.item, vals[j]), BetweenEv(s, j), ReplayKids(s, vals, j + 1), b1, NextItem(b1, s, j + 1));
  }

  lemma {:induction false} NoItems(k: Keys, b: Book, s: Schema, vals: seq<Val>, j: nat)
    requires s.DynVec? && j == |vals|
    ensures Run(k, b, ReplayKids(s, vals, j)) == b
  {
  }

  lemma {:induction false} VecRun(k: Keys, b: Book, s: Schema, v: Val, b1: Book)
    requires s.DynVec? && (s.item.Table? || s.item.Bytes?) && Typed(s, v)
    requires forall i | 0 <= i < |v.vals| :: Typed(Kid(s, i), v.vals[i])
    requires if v.vals == [] then b1 == b else Run(k, NextItem(b, s, 0), ReplayKids(s, v.vals, 0)) == b1
    ensures Run(k, b, Replay(s, v)) == OnEnd(k, b1, s.tag)
  {
    VecWithin(s, v);
    EnterItems(k, b, s, Kept(s, v), |v.vals|);
    assert Run(k, b, []) == b;
    assert v.Items? && !s.IsLeaf() && !s.Bytes?;
    hide *;
    if v.vals != [] { RunPlus(k, b, EnterEv(s, Kept(s, v), |v.vals|), ReplayKids(s, v.vals, 0)); }
    EndRun(k, b, s, v, b1);
  }

  lemma {:induction false} VecWithin(s: Schema, v: Val)
    requires s.DynVec? && Typed(s, v)
    ensures v.Items? && forall i | 0 <= i < |v.vals| :: Typed(Kid(s, i), v.vals[i])
    ensures Within(s, v) == if v.vals == [] then [] else EnterEv(s, Kept(s, v), |v.vals|) + ReplayKids(s, v.vals, 0)
  {
  }

  /** The callbacks before field `j` of a table. */
  function NextField(b: Book, s: Schema, j: nat): Book
    requires s.Table?
  {
    if j < |s.fields| && !s.fields[j].IsLeaf() then OnStart(b, s.fields[j].tag) else b
  }

  /** Fields initialised by their own callback alone. */
  predicate PlainFields(s: Schema) {
    s.Table? && forall i | 0 <= i < |s.fields| :: s.fields[i].Table? || s.fields[i].FixVec? || s.fields[i].DynVec? || s.fields[i].IsLeaf()
  }

  lemma {:induction false} FieldInit(k: Keys, b: Book, s: Schema, j: nat)
    requires PlainFields(s)
    ensures Run(k, b, BetweenEv(s, j)) == NextField(b, s, j + 1)
  {
    if j + 1 < |s.fields| && !s.fields[j + 1].IsLeaf() {
      var e := Start(s.fields[j + 1].tag);
      assert BetweenEv(s, j) == [e];
      RunOne(k, b, e);
      assert Apply(k, b, e) == OnStart(b, s.fields[j + 1].tag);
    } else {
      assert BetweenEv(s, j) == [];
    }
  }

  lemma {:induction false} FieldStep(k: Keys, b: Book, s: Schema, vals: seq<Val>, j: nat, b1: Book)
    requires PlainFields(s) && j < |vals| == |s.fields|
    requires forall i | j <= i < |vals| :: Typed(Kid(s, i), vals[i])
    requires Run(k, b, Replay(Kid(s, j), vals[j])) == b1
    ensures Run(k, b, ReplayKids(s, vals, j)) == Run(k, NextField(b1, s, j + 1), ReplayKids(s, vals, j + 1))
  {
    FieldInit(k, b1, s, j);
    R.KidsStep(s, vals, j);
    hide *;
    Chain(k, b, Replay(Kid(s, j), vals[j]), BetweenEv(s, j), ReplayKids(s, vals, j + 1), b1, NextField(b1, s, j + 1));
  }

  lemma {:induction false} TableRun(k: Keys, b: Book, s: Schema, v: Val, b1: Book)
    requires PlainFields(s) && s.fields != [] && Typed(s, v) && v.Items? && |v.vals| == |s.fields|
    requires forall i | 0 <= i < |v.vals| :: Typed(Kid(s, i), v.vals[i])
    requires Run(k, NextField(b, s, 0), ReplayKids(s, v.vals, 0)) == b1
    ensures Run(k, b, Replay(s, v)) == OnEnd(k, b1, s.tag)
  {
    TableEnter(k, b, s, v);
    hide *;
    RunPlus(k, b, EnterEv(s, Kept(s, v), |v.vals|), ReplayKids(s, v.vals, 0));
    EndRun(k, b, s, v, b1);
  }

  lemma {:induction false} TableEnter(k: Keys, b: Book, s: Schema, v: Val)
    requires PlainFields(s) && s.fields != [] && Typed(s, v) && v.Items? && |v.vals| == |s.fields|
    requires forall i | 0 <= i < |v.vals| :: Typed(Kid(s, i), v.vals[i])
    ensures !s.IsLeaf() && !s.Bytes? && !s.Struct?
    ensures Within(s, v) == EnterEv(s, Kept(s, v), |v.vals|) + ReplayKids(s, v.vals, 0)
    ensures Run(k, b, EnterEv(s, Kept(s, v), |v.vals|)) == NextField(b, s, 0)
  {
    var o, b1 := Offsets(s.tag, Kept(s, v)), NextField(b, s, 0);
    assert Within(s, v) == EnterEv(s, Kept(s, v), |v.vals|) + ReplayKids(s, v.vals, 0);
    assert EnterEv(s, Kept(s, v), |v.vals|) == InitEv(s.fields[0]) + [o];
    RunOne(k, b1, o);
    assert Apply(k, b1, o) == b1;
    if s.fields[0].IsLeaf() {
      assert [] + [o] == [o];
    } else {
      var e := Start(s.fields[0].tag);
      assert InitEv(s.fields[0]) == [e];
      RunOne(k, b, e);
      assert Apply(k, b, e) == b1;
      RunPlus(k, b, [e], [o]);
    }
  }

  // ---------- Vectors of cells and of data ----------

  /** Values that are cells below 4 GiB. */
  ghost predicate Cells(t: Tag, lock: Tag, args: Tag, vals: seq<Val>) {
    forall i {:trigger vals[i]} | 0 <= i < |vals| ::
      var s := CellOutput(t, lock, args); Typed(s, vals[i]) && |Encode(s, vals[i])| < U32_SIZE
  }

  predicate CellShapes(vals: seq<Val>) {
    forall i | 0 <= i < |vals| :: CellShape(vals[i])
  }

  lemma {:induction false} CellsShaped(t: Tag, lock: Tag, args: Tag, vals: seq<Val>)
    requires Cells(t, lock, args, vals)
    ensures CellShapes(vals)
  {
    forall i | 0 <= i < |vals| ensures CellShape(vals[i]) {
      CellShaped(t, lock, args, vals[i]);
      hide CellShape, Typed, Encode, CellOutput;
    }
  }

  ghost predicate Data(t: Tag, vals: seq<Val>) {
    forall i {:trigger vals[i]} | 0 <= i < |vals| :: vals[i].Blob? && |vals[i].bytes| + 4 < U32_SIZE && Typed(Bytes(t), vals[i])
  }

  predicate Blobs(vals: seq<Val>) {
    forall i | 0 <= i < |vals| :: vals[i].Blob? && |vals[i].bytes| + 4 < U32_SIZE
  }

  /** The outputs of a source transaction, from the `j`-th on. */
  function SourceCells(k: Keys, b: Book, vals: seq<Val>, j: nat): Book
    requires CellShapes(vals) && j <= |vals|
    decreases |vals| - j
  {
    if j == |vals| then b else SourceCells(k, SourceIndex(OverCell(k, b, LockScript, LockArgs, vals[j]), j + 1), vals, j + 1)
  }

  function OverDatum(k: Keys, b: Book, t: Tag, v: Val): Book
    requires v.Blob? && |v.bytes| + 4 < U32_SIZE
  {
    var b1 := DataPiece(DataSize(b, |v.bytes| + 4), v.bytes);
    if t == InputDatum then InputData(k, b1) else OutputData(k, b1)
  }

  /** The data of the outputs of a source transaction. */
  function SourceDatas(k: Keys, b: Book, vals: seq<Val>, j: nat): Book
    requires Blobs(vals) && j <= |vals|
    decreases |vals| - j
  {
    if j == |vals| then b else SourceDatas(k, SourceIndex(OverDatum(k, b, InputDatum, vals[j]), j + 1), vals, j + 1)
  }

  /** The outputs of the transaction. */
  function AllOutputs(k: Keys, b: Book, vals: seq<Val>, j: nat): Book
    requires CellShapes(vals) && j <= |vals|
    decreases |vals| - j
  {
    if j == |vals| then b else AllOutputs(k, OutputStart(OutputEnd(OverCell(k, b, Quiet, LockArgsOut, vals[j])), j + 1), vals, j + 1)
  }

  /** The data of the outputs. */
  function AllData(k: Keys, b: Book, vals: seq<Val>, j: nat): Book
    requires Blobs(vals) && j <= |vals|
    decreases |vals| - j
  {
    if j == |vals| then b else AllData(k, DatumStart(OverDatum(k, b, OutputDatum, vals[j]), j + 1), vals, j + 1)
  }

  function SourceVec(): Schema {
    DynVec(SourceOutputs, CellOutput(Quiet, LockScript, LockArgs))
  }

  lemma {:induction false} NextItems(b: Book, j: nat)
    ensures NextItem(b, SourceVec(), j) == SourceIndex(b, j)
    ensures NextItem(b, BytesVec(SourceData, InputDatum), j) == SourceIndex(b, j)
    ensures NextItem(b, OutputVec(), j) == OutputStart(b, j)
    ensures NextItem(b, BytesVec(OutputsData, OutputDatum), j) == DatumStart(b, j)
    ensures NextItem(b, InputVec(), j) == InputStart(b)
  {
    hide SourceIndex, OutputStart, DatumStart, InputStart, InputsStart, ArgStart;
  }

  lemma {:induction false} DatumRun(k: Keys, b: Book, t: Tag, v: Val)
    requires v.Blob? && |v.bytes| + 4 < U32_SIZE && (t == InputDatum || t == OutputDatum)
    ensures Typed(Bytes(t), v) && Run(k, b, Replay(Bytes(t), v)) == OverDatum(k, b, t, v)
  {
    assert v == Blob(v.bytes) && Typed(Bytes(t), v);
    DatumCallbacks(k, b, t, v);
    hide *;
    BytesRun(k, b, t, v.bytes);
  }

  lemma {:induction false} DatumCallbacks(k: Keys, b: Book, t: Tag, v: Val)
    requires v.Blob? && |v.bytes| + 4 < U32_SIZE && (t == InputDatum || t == OutputDatum)
    ensures OverDatum(k, b, t, v) == OnEnd(k, OnBody(k, OnSize(k, b, t, |v.bytes| + 4), t, v.bytes), t)
  {
    hide DataPiece, DataSize, InputData, OutputData;
  }

  lemma {:induction false} Ends(k: Keys, b: Book)
    ensures OnEnd(k, b, Output) == OutputEnd(b) && OnEnd(k, b, Outputs) == OutputsEnd(k, b) && OnEnd(k, b, RawTx) == Finalize(b)
    ensures OnEnd(k, b, Inputs) == FinishInputs(b) && OnEnd(k, b, Tag.Source) == b.(src := b.src.(index := 0))
    ensures forall t | t in {Quiet, Input, SourceOutputs, SourceData, OutputsData, CellDeps, HeaderDeps} :: OnEnd(k, b, t) == b
  {
    hide OutputEnd, OutputsEnd, Finalize, FinishInputs, LockEnd, InputData, OutputData;
  }

  lemma {:induction false} OneSource(k: Keys, b: Book, vals: seq<Val>, j: nat)
    requires Cells(Quiet, LockScript, LockArgs, vals) && CellShapes(vals) && j < |vals|
    ensures Typed(SourceVec().item, vals[j])
    ensures Run(k, b, Replay(SourceVec().item, vals[j])) == OverCell(k, b, LockScript, LockArgs, vals[j])
  {
    assert CellShape(vals[j]) && Typed(CellOutput(Quiet, LockScript, LockArgs), vals[j]);
    hide CellShape, CellShapes, CellOutput, Typed, Encode, OverCell, Run, Replay, OnEnd;
    Ends(k, OverCell(k, b, LockScript, LockArgs, vals[j]));
    CellRun(k, b, Quiet, LockScript, LockArgs, vals[j]);
  }

  lemma {:induction false} OneOutput(k: Keys, b: Book, vals: seq<Val>, j: nat)
    requires Cells(Output, Quiet, LockArgsOut, vals) && CellShapes(vals) && j < |vals|
    ensures Typed(OutputVec().item, vals[j])
    ensures Run(k, b, Replay(OutputVec().item, vals[j])) == OutputEnd(OverCell(k, b, Quiet, LockArgsOut, vals[j]))
  {
    assert CellShape(vals[j]) && Typed(CellOutput(Output, Quiet, LockArgsOut), vals[j]);
    hide CellShape, CellShapes, CellOutput, Typed, Encode, OverCell, Run, Replay, OutputEnd, OnEnd;
    Ends(k, OverCell(k, b, Quiet, LockArgsOut, vals[j]));
    CellRun(k, b, Output, Quiet, LockArgsOut, vals[j]);
  }

  lemma {:induction false} SourceCellsRun(k: Keys, b: Book, vals: seq<Val>, j: nat)
    requires Cells(Quiet, LockScript, LockArgs, vals) && CellShapes(vals) && j <= |vals|
    requires forall i | j <= i < |vals| :: Typed(Kid(SourceVec(), i), vals[i])
    ensures Run(k, b, ReplayKids(SourceVec(), vals, j)) == SourceCells(k, b, vals, j)
    decreases |vals| - j
  {
    if j == |vals| {
      NoItems(k, b, SourceVec(), vals, j);
    } else {
      var s, b1 := SourceVec(), OverCell(k, b, LockScript, LockArgs, vals[j]);
      OneSource(k, b, vals, j);
      NextItems(b1, j + 1);
      VecTypes(s, vals, j);
      hide OverCell, Run, ReplayKids, Replay, SourceIndex, CellOutput, CellShape, Typed, Encode, NextItem;
      ItemStep(k, b, s, vals, j, b1);
      SourceCellsRun(k, SourceIndex(b1, j + 1), vals, j + 1);
    }
  }

  lemma {:induction false} VecTypes(s: Schema, vals: seq<Val>, j: nat)
    requires s.DynVec? && j <= |vals| && forall i | j <= i < |vals| :: Typed(Kid(s, i), vals[i])
    ensures forall i | j <= i < |vals| :: Typed(s.item, vals[i])
  {
    forall i | j <= i < |vals| ensures Typed(s.item, vals[i]) { assert Kid(s, i) == s.item; }
  }

  lemma {:induction false} SourceDatasRun(k: Keys, b: Book, vals: seq<Val>, j: nat)
    requires Data(InputDatum, vals) && Blobs(vals) && j <= |vals|
    requires forall i | j <= i < |vals| :: Typed(Kid(BytesVec(SourceData, InputDatum), i), vals[i])
    ensures Run(k, b, ReplayKids(BytesVec(SourceData, InputDatum), vals, j)) == SourceDatas(k, b, vals, j)
    decreases |vals| - j
  {
    var s := BytesVec(SourceData, InputDatum);
    if j == |vals| {
      NoItems(k, b, s, vals, j);
    } else {
      var b1 := OverDatum(k, b, InputDatum, vals[j]);
      DatumRun(k, b, InputDatum, vals[j]);
      NextItems(b1, j + 1);
      VecTypes(s, vals, j);
      hide OverDatum, Run, ReplayKids, Replay, SourceIndex, NextItem;
      ItemStep(k, b, s, vals, j, b1);
      SourceDatasRun(k, SourceIndex(b1, j + 1), vals, j + 1);
    }
  }

  lemma {:induction false} AllOutputsRun(k: Keys, b: Book, vals: seq<Val>, j: nat)
    requires Cells(Output, Quiet, LockArgsOut, vals) && CellShapes(vals) && j <= |vals|
    requires forall i | j <= i < |vals| :: Typed(Kid(OutputVec(), i), vals[i])
    ensures Run(k, b, ReplayKids(OutputVec(), vals, j)) == AllOutputs(k, b, vals, j)
    decreases |vals| - j
  {
    if j == |vals| {
      NoItems(k, b, OutputVec(), vals, j);
    } else {
      var s, b1 := OutputVec(), OutputEnd(OverCell(k, b, Quiet, LockArgsOut, vals[j]));
      OneOutput(k, b, vals, j);
      NextItems(b1, j + 1);
      VecTypes(s, vals, j);
      hide OverCell, Run, ReplayKids, Replay, OutputEnd, OutputStart, CellOutput, CellShape, Typed, Encode, NextItem;
      ItemStep(k, b, s, vals, j, b1);
      AllOutputsRun(k, OutputStart(b1, j + 1), vals, j + 1);
    }
  }

  lemma {:induction false} AllDataRun(k: Keys, b: Book, vals: seq<Val>, j: nat)
    requires Data(OutputDatum, vals) && Blobs(vals) && j <= |vals|
    requires forall i | j <= i < |vals| :: Typed(Kid(BytesVec(OutputsData, OutputDatum), i), vals[i])
    ensures Run(k, b, ReplayKids(BytesVec(OutputsData, OutputDatum), vals, j)) == AllData(k, b, vals, j)
    decreases |vals| - j
  {
    var s := BytesVec(OutputsData, OutputDatum);
    if j == |vals| {
      NoItems(k, b, s, vals, j);
    } else {
      var b1 := OverDatum(k, b, OutputDatum, vals[j]);
      DatumRun(k, b, OutputDatum, vals[j]);
      NextItems(b1, j + 1);
      VecTypes(s, vals, j);
      hide OverDatum, Run, ReplayKids, Replay, DatumStart, NextItem;
      ItemStep(k, b, s, vals, j, b1);
      AllDataRun(k, DatumStart(b1, j + 1), vals, j + 1);
    }
  }

  // ---------- Inputs ----------

  ghost predicate SourceShape(v: Val) {
    && v.Items? && |v.vals| == 6 && Typed(SourceTx(), v) && |Encode(SourceTx(), v)| < U32_SIZE
    && v.vals[4].Items? && CellShapes(v.vals[4].vals) && v.vals[5].Items? && Blobs(v.vals[5].vals)
  }

  /** A source transaction: its outputs, then their data. */
  ghost function OverSource(k: Keys, b: Book, v: Val): Book
    requires SourceShape(v)
  {
    var (outs, datas) := (v.vals[4].vals, v.vals[5].vals);
    var b1 := if outs == [] then b else SourceCells(k, SourceIndex(b, 0), outs, 0);
    var b2 := if datas == [] then b1 else SourceDatas(k, SourceIndex(b1, 0), datas, 0);
    b2.(src := b2.src.(index := 0))
  }

  lemma {:induction false} CellVec(s: Schema, t: Tag, lock: Tag, args: Tag, v: Val)
    requires s.DynVec? && s.item == CellOutput(t, lock, args) && Typed(s, v) && |Encode(s, v)| < U32_SIZE
    ensures v.Items? && Cells(t, lock, args, v.vals) && CellShapes(v.vals)
  {
    VecWithin(s, v);
    forall i | 0 <= i < |v.vals| ensures Typed(s.item, v.vals[i]) && |Encode(s.item, v.vals[i])| < U32_SIZE {
      KidSmall(s, v, i);
    }
    assert Cells(t, lock, args, v.vals) by { hide Typed, Encode, CellOutput; }
    CellsShaped(t, lock, args, v.vals);
  }

  lemma {:induction false} DataVec(s: Schema, t: Tag, v: Val)
    requires s.DynVec? && s.item == Bytes(t) && Typed(s, v) && |Encode(s, v)| < U32_SIZE
    ensures v.Items? && Data(t, v.vals) && Blobs(v.vals)
  {
    VecWithin(s, v);
    forall i | 0 <= i < |v.vals| ensures v.vals[i].Blob? && |v.vals[i].bytes| + 4 < U32_SIZE && Typed(Bytes(t), v.vals[i]) {
      KidSmall(s, v, i);
    }
  }

  /** A field of a table is typed and no longer than the table. */
  lemma {:induction false} Field(s: Schema, v: Val, i: nat)
    requires s.Table? && Typed(s, v) && i < |s.fields|
    ensures v.Items? && |v.vals| == |s.fields| && Kid(s, i) == s.fields[i] && Typed(s.fields[i], v.vals[i])
    ensures |Encode(s.fields[i], v.vals[i])| <= |Encode(s, v)|
  {
    KidSmall(s, v, i);
  }

  lemma {:induction false} Fields(s: Schema, v: Val)
    requires s.Table? && Typed(s, v)
    ensures v.Items? && |v.vals| == |s.fields| && forall i | 0 <= i < |v.vals| :: Typed(Kid(s, i), v.vals[i])
  {
    forall i | 0 <= i < |v.vals| ensures Typed(Kid(s, i), v.vals[i]) { Field(s, v, i); }
  }

  lemma {:induction false} SourceFields()
    ensures SourceTx().Table? && SourceTx().tag == Tag.Source
    ensures SourceTx().fields == [Array(Quiet, 4), CellDepVec(Quiet), Byte32Vec(Quiet), D.PlainVec(), SourceVec(), BytesVec(SourceData, InputDatum)]
  {
  }

  lemma {:induction false} SourceShaped(v: Val)
    requires Typed(SourceTx(), v) && |Encode(SourceTx(), v)| < U32_SIZE
    ensures SourceShape(v) && Cells(Quiet, LockScript, LockArgs, v.vals[4].vals) && Data(InputDatum, v.vals[5].vals)
  {
    SourceFields();
    Field(SourceTx(), v, 4);
    Field(SourceTx(), v, 5);
    hide Typed, Encode, SourceTx, Cells, Data, CellShapes, Blobs;
    CellVec(SourceVec(), Quiet, LockScript, LockArgs, v.vals[4]);
    DataVec(BytesVec(SourceData, InputDatum), InputDatum, v.vals[5]);
  }

  lemma {:induction false} PlainSource()
    ensures PlainFields(SourceTx()) && |SourceTx().fields| == 6
    ensures forall b: Book, j: nat | j <= 6 :: NextField(b, SourceTx(), j) == b
  {
    SourceFields();
  }

  lemma {:induction false} MuteFields(i: nat)
    requires i < 4
    ensures var s := SourceTx().fields[i]; Regular(s) && Mute(LEDGER, s)
  {
    SourceFields();
    VecsRegular(Quiet);
    BytesOf();
    MuteVecs();
    hide Regular, Mute, SourceTx;
    if i == 0 {} else if i == 1 {} else if i == 2 {} else {}
  }

  lemma {:induction false} MuteVecs()
    ensures Mute(LEDGER, Array(Quiet, 4)) && Mute(LEDGER, CellDepVec(Quiet)) && Mute(LEDGER, Byte32Vec(Quiet)) && Mute(LEDGER, D.PlainVec())
  {
    assert Mute(LEDGER, OutPoint());
    assert Mute(LEDGER, CellDep()) && Mute(LEDGER, PlainCell());
  }

  /** The fields of a source transaction before its outputs. */
  lemma {:induction false} SourceStart(k: Keys, b: Book, v: Val, j: nat)
    requires Typed(SourceTx(), v) && |Encode(SourceTx(), v)| < U32_SIZE && j <= 4
    requires v.Items? && |v.vals| == 6 && forall i | 0 <= i < 6 :: Typed(Kid(SourceTx(), i), v.vals[i])
    ensures Run(k, b, ReplayKids(SourceTx(), v.vals, j)) == Run(k, b, ReplayKids(SourceTx(), v.vals, 4))
    decreases 4 - j
  {
    if j < 4 {
      PlainSource();
      Field(SourceTx(), v, j);
      MuteFields(j);
      SourceStart(k, b, v, j + 1);
      assert NextField(b, SourceTx(), j + 1) == b;
      hide *;
      MuteRun(k, b, SourceTx().fields[j], v.vals[j]);
      FieldStep(k, b, SourceTx(), v.vals, j, b);
    }
  }

  lemma {:induction false} SourceVecRun(k: Keys, b: Book, v: Val)
    requires Typed(SourceVec(), v) && |Encode(SourceVec(), v)| < U32_SIZE && v.Items? && CellShapes(v.vals)
    ensures Run(k, b, Replay(SourceVec(), v)) == if v.vals == [] then b else SourceCells(k, SourceIndex(b, 0), v.vals, 0)
  {
    var b1 := if v.vals == [] then b else SourceCells(k, SourceIndex(b, 0), v.vals, 0);
    CellVec(SourceVec(), Quiet, LockScript, LockArgs, v);
    VecWithin(SourceVec(), v);
    NextItems(b, 0);
    Ends(k, b1);
    CellFields(Quiet, LockScript, LockArgs);
    assert SourceVec().item.Table? && SourceVec().tag == SourceOutputs by { hide CellOutput; }
    hide *;
    if v.vals != [] { SourceCellsRun(k, SourceIndex(b, 0), v.vals, 0); }
    VecRun(k, b, SourceVec(), v, b1);
  }

  lemma {:induction false} SourceDataRun(k: Keys, b: Book, v: Val)
    requires v.Items? && Typed(BytesVec(SourceData, InputDatum), v) && |Encode(BytesVec(SourceData, InputDatum), v)| < U32_SIZE && Blobs(v.vals)
    ensures Run(k, b, Replay(BytesVec(SourceData, InputDatum), v))
         == if v.vals == [] then b else SourceDatas(k, SourceIndex(b, 0), v.vals, 0)
  {
    var s := BytesVec(SourceData, InputDatum);
    var b1 := if v.vals == [] then b else SourceDatas(k, SourceIndex(b, 0), v.vals, 0);
    DataVec(s, InputDatum, v);
    VecWithin(s, v);
    NextItems(b, 0);
    Ends(k, b1);
    assert s.DynVec? && s.item.Bytes? && s.tag == SourceData;
    hide *;
    if v.vals != [] { SourceDatasRun(k, SourceIndex(b, 0), v.vals, 0); }
    VecRun(k, b, s, v, b1);
  }

  lemma {:induction false} SourceRun(k: Keys, b: Book, v: Val)
    requires SourceShape(v)
    ensures Run(k, b, Replay(SourceTx(), v)) == OverSource(k, b, v)
  {
    var b1 := if v.vals[4].vals == [] then b else SourceCells(k, SourceIndex(b, 0), v.vals[4].vals, 0);
    var b2 := if v.vals[5].vals == [] then b1 else SourceDatas(k, SourceIndex(b1, 0), v.vals[5].vals, 0);
    assert OverSource(k, b, v) == b2.(src := b2.src.(index := 0)) by { hide SourceCells, SourceDatas, SourceIndex, SourceShape; }
    Ends(k, b2);
    SourceLast(v);
    hide *;
    SourceVecRun(k, b, v.vals[4]);
    SourceDataRun(k, b1, v.vals[5]);
    SourceSteps(k, b, v, b1, b2);
  }

  lemma {:induction false} SourceLast(v: Val)
    requires SourceShape(v)
    ensures Typed(SourceTx(), v) && |Encode(SourceTx(), v)| < U32_SIZE && v.Items? && |v.vals| == 6
    ensures var outs := v.vals[4]; Typed(SourceVec(), outs) && |Encode(SourceVec(), outs)| < U32_SIZE && outs.Items? && CellShapes(outs.vals)
    ensures var s, datas := BytesVec(SourceData, InputDatum), v.vals[5];
            Typed(s, datas) && |Encode(s, datas)| < U32_SIZE && datas.Items? && Blobs(datas.vals)
    ensures Kid(SourceTx(), 4) == SourceVec() && Kid(SourceTx(), 5) == BytesVec(SourceData, InputDatum)
    ensures SourceTx().Table? && |SourceTx().fields| == 6 && SourceTx().tag == Tag.Source
  {
    SourceFields();
    Field(SourceTx(), v, 4);
    Field(SourceTx(), v, 5);
    hide SourceTx, Typed, Encode, CellShapes, Blobs;
  }

  lemma {:induction false} SourceSteps(k: Keys, b: Book, v: Val, b1: Book, b2: Book)
    requires SourceTx().Table? && |SourceTx().fields| == 6 && Typed(SourceTx(), v) && |Encode(SourceTx(), v)| < U32_SIZE
    requires v.Items? && |v.vals| == 6
    requires Typed(Kid(SourceTx(), 4), v.vals[4]) && Typed(Kid(SourceTx(), 5), v.vals[5])
    requires Run(k, b, Replay(Kid(SourceTx(), 4), v.vals[4])) == b1 && Run(k, b1, Replay(Kid(SourceTx(), 5), v.vals[5])) == b2
    ensures Run(k, b, Replay(SourceTx(), v)) == OnEnd(k, b2, SourceTx().tag)
  {
    Fields(SourceTx(), v);
    PlainSource();
    assert NextField(b, SourceTx(), 0) == b && NextField(b1, SourceTx(), 5) == b1 && NextField(b2, SourceTx(), 6) == b2;
    hide *;
    SourceStart(k, b, v, 0);
    FieldStep(k, b, SourceTx(), v.vals, 4, b1);
    FieldStep(k, b1, SourceTx(), v.vals, 5, b2);
    LastField(k, b2, SourceTx(), v.vals);
    TableRun(k, b, SourceTx(), v, b2);
  }

  lemma {:induction false} LastField(k: Keys, b: Book, s: Schema, vals: seq<Val>)
    requires s.Table? && |vals| == |s.fields|
    ensures Run(k, b, ReplayKids(s, vals, |vals|)) == b
  {
  }
}
