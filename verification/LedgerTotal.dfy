/** The accounts of a whole annotated transaction, from its cells. */
module LedgerTotal {
  import opened Words
  import opened Schema
  import opened Automaton
  import opened Views
  import opened Lifting
  import opened Encoding
  import opened RoundTrip
  import opened Chunking
  import opened Transaction
  import opened Shapes
  import opened Ledger
  import opened LedgerCells
  import opened LedgerRuns
  import R = Rewrite
  import D = RawDigest
  import S = SignedDigest
  import W = WitnessDigest

  // ---------- Inputs ----------

  /** An annotated input: the output it spends and the transaction that made it. */
  ghost predicate InputShape(v: Val) {
    && v.Items? && |v.vals| == 2 && Typed(AnnotatedInput(), v) && |Encode(AnnotatedInput(), v)| < U32_SIZE
    && Typed(CellInput(), v.vals[0]) && IndexShape(v.vals[0]) && SourceShape(v.vals[1])
  }

  predicate IndexShape(v: Val) {
    && v.Items? && |v.vals| == 2 && v.vals[0].Blob? && v.vals[1].Items? && |v.vals[1].vals| == 2
    && v.vals[1].vals[0].Blob? && v.vals[1].vals[1].Blob? && |v.vals[1].vals[1].bytes| == 4
  }

  /** The index of the output that is spent. */
  function IndexOf(v: Val): u32
    requires IndexShape(v)
  {
    Unpack(v.vals[1].vals[1].bytes)
  }

  lemma {:induction false} InputShaped(v: Val)
    requires Typed(AnnotatedInput(), v) && |Encode(AnnotatedInput(), v)| < U32_SIZE
    ensures InputShape(v)
  {
    R.AnnotatedInputShaped(v);
    R.CellInputShaped(v.vals[0]);
    KidSmall(AnnotatedInput(), v, 1);
    assert Kid(AnnotatedInput(), 1) == SourceTx();
    hide Typed, Encode, SourceTx, CellInput;
    SourceShaped(v.vals[1]);
  }

  ghost function OverInput(k: Keys, b: Book, v: Val): Book
    requires InputShape(v)
  {
    OverSource(k, b.(src := b.src.(index := IndexOf(v.vals[0]))), v.vals[1])
  }

  /** The two fields of a struct. */
  lemma {:induction false} PairRun(k: Keys, b: Book, s: Schema, v: Val, b1: Book, b2: Book)
    requires s.Struct? && s.tag == Quiet && |s.fields| == 2 && Typed(s, v)
    requires Typed(s.fields[0], v.vals[0]) && Typed(s.fields[1], v.vals[1])
    requires Run(k, b, Replay(s.fields[0], v.vals[0])) == b1
    requires Run(k, b1, InitEv(s.fields[1])) == b1
    requires Run(k, b1, Replay(s.fields[1], v.vals[1])) == b2
    ensures Run(k, b, Replay(s, v)) == b2
  {
    R.PairEvents(s, v);
    assert OnEnd(k, b2, Quiet) == b2;
    hide Run, Replay, InitEv, Typed, OnEnd, Within;
    Chain(k, b, Replay(s.fields[0], v.vals[0]), InitEv(s.fields[1]), Replay(s.fields[1], v.vals[1]), b1, b1);
    EndRun(k, b, s, v, b2);
  }

  lemma {:induction false} PointRun(k: Keys, b: Book, o: Val)
    requires Typed(CellInput().fields[1], o) && o.Items? && |o.vals| == 2 && o.vals[0].Blob? && o.vals[1].Blob? && |o.vals[1].bytes| == 4
    ensures Run(k, b, Replay(CellInput().fields[1], o)) == b.(src := b.src.(index := Unpack(o.vals[1].bytes)))
  {
    var point := CellInput().fields[1];
    assert Typed(point.fields[0], o.vals[0]) && Typed(point.fields[1], o.vals[1]);
    ArrayRun(k, b, Array(Quiet, 32), o.vals[0]);
    ArrayRun(k, b, Array(PrevIndex, 4), o.vals[1]);
    assert InitEv(point.fields[1]) == [] && Run(k, b, []) == b;
    PairRun(k, b, point, o, b, b.(src := b.src.(index := Unpack(o.vals[1].bytes))));
  }

  lemma {:induction false} CellInputRun(k: Keys, b: Book, v: Val)
    requires Typed(CellInput(), v) && IndexShape(v)
    ensures Run(k, b, Replay(CellInput(), v)) == b.(src := b.src.(index := IndexOf(v)))
  {
    var s, o := CellInput(), v.vals[1];
    assert Typed(s.fields[0], v.vals[0]) && Typed(s.fields[1], o);
    ArrayRun(k, b, Array(Since, 8), v.vals[0]);
    assert OnLeaf(k, b, Since, v.vals[0].bytes) == b;
    assert InitEv(s.fields[1]) == [Start(Quiet)];
    IdleAll(k, b, [Start(Quiet)]);
    PointRun(k, b, o);
    PairRun(k, b, s, v, b, b.(src := b.src.(index := IndexOf(v))));
  }

  lemma {:induction false} InputRun(k: Keys, b: Book, v: Val)
    requires InputShape(v)
    ensures Run(k, b, Replay(AnnotatedInput(), v)) == OverInput(k, b, v)
  {
    var enter := [Start(Quiet), Offsets(Input, Kept(AnnotatedInput(), v))];
    var b1 := b.(src := b.src.(index := IndexOf(v.vals[0])));
    var b2 := OverSource(k, b1, v.vals[1]);
    assert OverInput(k, b, v) == b2 by { hide OverSource, IndexOf, InputShape; }
    InputForm(v);
    EnterInput(k, b, b1, Kept(AnnotatedInput(), v));
    Ends(k, b2);
    hide *;
    CellInputRun(k, b, v.vals[0]);
    SourceRun(k, b1, v.vals[1]);
    FourChain(k, b, enter, Replay(CellInput(), v.vals[0]), [Start(Tag.Source)], Replay(SourceTx(), v.vals[1]), b1, b2);
    EndRun(k, b, AnnotatedInput(), v, b2);
  }

  lemma {:induction false} FourChain(k: Keys, b: Book, x: seq<Event>, y: seq<Event>, z: seq<Event>, w: seq<Event>, b1: Book, b2: Book)
    requires Run(k, b, x) == b && Run(k, b, y) == b1 && Run(k, b1, z) == b1 && Run(k, b1, w) == b2
    ensures Run(k, b, x + y + z + w) == b2
  {
    hide *;
    RunPlus(k, b, x + y + z, w);
    Chain(k, b, x, y, z, b, b1);
  }

  lemma {:induction false} EnterInput(k: Keys, b: Book, b1: Book, nums: seq<u32>)
    ensures Run(k, b, [Start(Quiet), Offsets(Input, nums)]) == b && Run(k, b1, [Start(Tag.Source)]) == b1
  {
    IdleAll(k, b, [Start(Quiet), Offsets(Input, nums)]);
    RunOne(k, b1, Start(Tag.Source));
  }

  lemma {:induction false} InputForm(v: Val)
    requires InputShape(v)
    ensures v.Items? && |v.vals| == 2 && Typed(AnnotatedInput(), v) && Typed(CellInput(), v.vals[0]) && IndexShape(v.vals[0])
    ensures SourceShape(v.vals[1]) && Typed(SourceTx(), v.vals[1]) && AnnotatedInput().tag == Input && AnnotatedInput().Table?
    ensures Within(AnnotatedInput(), v)
         == [Start(Quiet), Offsets(Input, Kept(AnnotatedInput(), v))] + Replay(CellInput(), v.vals[0]) + [Start(Tag.Source)]
            + Replay(SourceTx(), v.vals[1])
  {
    R.AnnotatedInputShaped(v);
    R.InputEvents(v);
    hide Typed, Encode, Within, Replay, SourceTx, CellInput, CellShapes, Blobs;
  }

  ghost predicate InputShapes(vals: seq<Val>) {
    forall i | 0 <= i < |vals| :: InputShape(vals[i])
  }

  ghost function AllInputs(k: Keys, b: Book, vals: seq<Val>, j: nat): Book
    requires InputShapes(vals) && j <= |vals|
    decreases |vals| - j
  {
    if j == |vals| then b else AllInputs(k, InputStart(OverInput(k, b, vals[j])), vals, j + 1)
  }

  lemma {:induction false} AllInputsRun(k: Keys, b: Book, vals: seq<Val>, j: nat)
    requires InputShapes(vals) && j <= |vals|
    requires forall i | j <= i < |vals| :: Typed(Kid(InputVec(), i), vals[i])
    ensures Run(k, b, ReplayKids(InputVec(), vals, j)) == AllInputs(k, b, vals, j)
    decreases |vals| - j
  {
    if j == |vals| {
      NoItems(k, b, InputVec(), vals, j);
    } else {
      var s, b1 := InputVec(), OverInput(k, b, vals[j]);
      InputRun(k, b, vals[j]);
      NextItems(b1, j + 1);
      VecTypes(s, vals, j);
      hide OverInput, Run, ReplayKids, Replay, InputStart, InputShape, Typed, Encode, NextItem, AnnotatedInput, SourceTx, CellInput;
      assert s.item.Table? by { InputTable(); }
      ItemStep(k, b, s, vals, j, b1);
      AllInputsRun(k, InputStart(b1), vals, j + 1);
    }
  }

  lemma {:induction false} InputTable()
    ensures InputVec().item == AnnotatedInput() && AnnotatedInput().Table? && InputVec().tag == Inputs
  {
  }

  lemma {:induction false} InputsRun(k: Keys, b: Book, v: Val)
    requires Typed(InputVec(), v) && |Encode(InputVec(), v)| < U32_SIZE && v.Items? && InputShapes(v.vals)
    ensures Run(k, b, Replay(InputVec(), v)) == FinishInputs(if v.vals == [] then b else AllInputs(k, InputStart(b), v.vals, 0))
  {
    var b1 := if v.vals == [] then b else AllInputs(k, InputStart(b), v.vals, 0);
    VecWithin(InputVec(), v);
    NextItems(b, 0);
    Ends(k, b1);
    InputTable();
    hide *;
    if v.vals != [] { AllInputsRun(k, InputStart(b), v.vals, 0); }
    VecRun(k, b, InputVec(), v, b1);
  }

  lemma {:induction false} InputVecShaped(v: Val)
    requires Typed(InputVec(), v) && |Encode(InputVec(), v)| < U32_SIZE
    ensures v.Items? && InputShapes(v.vals)
  {
    VecWithin(InputVec(), v);
    forall i | 0 <= i < |v.vals| ensures InputShape(v.vals[i]) {
      KidSmall(InputVec(), v, i);
      assert Kid(InputVec(), i) == AnnotatedInput() by { hide AnnotatedInput; }
      hide Typed, Encode, InputShape, AnnotatedInput;
      InputShaped(v.vals[i]);
    }
  }

  // ---------- Outputs ----------

  lemma {:induction false} OutputsRun(k: Keys, b: Book, v: Val)
    requires Typed(OutputVec(), v) && |Encode(OutputVec(), v)| < U32_SIZE && v.Items? && CellShapes(v.vals)
    ensures Run(k, b, Replay(OutputVec(), v)) == OutputsEnd(k, if v.vals == [] then b else AllOutputs(k, OutputStart(b, 0), v.vals, 0))
  {
    var b1 := if v.vals == [] then b else AllOutputs(k, OutputStart(b, 0), v.vals, 0);
    CellVec(OutputVec(), Output, Quiet, LockArgsOut, v);
    VecWithin(OutputVec(), v);
    NextItems(b, 0);
    Ends(k, b1);
    CellFields(Output, Quiet, LockArgsOut);
    assert OutputVec().item.Table? && OutputVec().tag == Outputs by { hide CellOutput; }
    hide *;
    if v.vals != [] { AllOutputsRun(k, OutputStart(b, 0), v.vals, 0); }
    VecRun(k, b, OutputVec(), v, b1);
  }

  lemma {:induction false} DataRun(k: Keys, b: Book, v: Val)
    requires v.Items? && Typed(BytesVec(OutputsData, OutputDatum), v) && |Encode(BytesVec(OutputsData, OutputDatum), v)| < U32_SIZE && Blobs(v.vals)
    ensures Run(k, b, Replay(BytesVec(OutputsData, OutputDatum), v)) == if v.vals == [] then b else AllData(k, DatumStart(b, 0), v.vals, 0)
  {
    var s := BytesVec(OutputsData, OutputDatum);
    var b1 := if v.vals == [] then b else AllData(k, DatumStart(b, 0), v.vals, 0);
    DataVec(s, OutputDatum, v);
    VecWithin(s, v);
    NextItems(b, 0);
    Ends(k, b1);
    assert s.DynVec? && s.item.Bytes? && s.tag == OutputsData;
    hide *;
    if v.vals != [] { AllDataRun(k, DatumStart(b, 0), v.vals, 0); }
    VecRun(k, b, s, v, b1);
  }

  // ---------- The transaction ----------

  /** The parts of an annotated raw transaction that the accounts depend on. */
  ghost predicate RawForm(v: Val) {
    && v.Items? && |v.vals| == 6 && Typed(AnnotatedRaw(), v) && |Encode(AnnotatedRaw(), v)| < U32_SIZE
    && v.vals[3].Items? && InputShapes(v.vals[3].vals) && v.vals[4].Items? && CellShapes(v.vals[4].vals)
    && v.vals[5].Items? && Blobs(v.vals[5].vals)
  }

  /** The accounts after the inputs, after the outputs, and at the end. */
  ghost function AfterInputs(k: Keys, v: Val): Book
    requires RawForm(v)
  {
    var b := InputsStart(Cleared());
    FinishInputs(if v.vals[3].vals == [] then b else AllInputs(k, InputStart(b), v.vals[3].vals, 0))
  }

  ghost function BeforeOutputsEnd(k: Keys, v: Val): Book
    requires RawForm(v)
  {
    var b := AfterInputs(k, v);
    if v.vals[4].vals == [] then b else AllOutputs(k, OutputStart(b, 0), v.vals[4].vals, 0)
  }

  ghost function AfterData(k: Keys, v: Val): Book
    requires RawForm(v)
  {
    var b := OutputsEnd(k, BeforeOutputsEnd(k, v));
    if v.vals[5].vals == [] then b else AllData(k, DatumStart(b, 0), v.vals[5].vals, 0)
  }

  ghost function Accounts(k: Keys, v: Val): Book
    requires RawForm(v)
  {
    Finalize(AfterData(k, v))
  }

  lemma {:induction false} RawFields()
    ensures AnnotatedRaw().Table? && AnnotatedRaw().tag == RawTx
    ensures AnnotatedRaw().fields == [Array(Version, 4), CellDepVec(CellDeps), Byte32Vec(HeaderDeps), InputVec(), OutputVec(),
                                      BytesVec(OutputsData, OutputDatum)]
  {
  }

  lemma {:induction false} RawFormed(v: Val)
    requires Typed(AnnotatedRaw(), v) && |Encode(AnnotatedRaw(), v)| < U32_SIZE
    ensures RawForm(v)
  {
    RawFields();
    Field(AnnotatedRaw(), v, 3);
    Field(AnnotatedRaw(), v, 4);
    Field(AnnotatedRaw(), v, 5);
    hide Typed, Encode, AnnotatedRaw, InputVec, OutputVec, InputShapes, CellShapes, Blobs;
    InputVecShaped(v.vals[3]);
    assert OutputVec() == DynVec(Outputs, CellOutput(Output, Quiet, LockArgsOut)) by { OutputSchema(); }
    CellVec(OutputVec(), Output, Quiet, LockArgsOut, v.vals[4]);
    DataVec(BytesVec(OutputsData, OutputDatum), OutputDatum, v.vals[5]);
  }

  lemma {:induction false} OutputSchema()
    ensures OutputVec() == DynVec(Outputs, CellOutput(Output, Quiet, LockArgsOut))
  {
  }

  lemma {:induction false} PlainRawFields(b: Book)
    ensures PlainFields(AnnotatedRaw()) && |AnnotatedRaw().fields| == 6
    ensures forall j: nat | j <= 6 && j != 3 :: NextField(b, AnnotatedRaw(), j) == b
    ensures NextField(b, AnnotatedRaw(), 3) == InputsStart(b)
  {
    RawFields();
    hide InputsStart;
  }

  /** The first fields of the transaction do not reach the book. */
  lemma {:induction false} RawStart(k: Keys, b: Book, v: Val, j: nat)
    requires Typed(AnnotatedRaw(), v) && |Encode(AnnotatedRaw(), v)| < U32_SIZE && j < 3
    ensures Typed(Kid(AnnotatedRaw(), j), v.vals[j]) && Run(k, b, Replay(Kid(AnnotatedRaw(), j), v.vals[j])) == b
  {
    RawFields();
    Field(AnnotatedRaw(), v, j);
    MuteRaw(j);
    hide Typed, Encode, AnnotatedRaw, Run, Replay, Regular, Mute;
    MuteRun(k, b, AnnotatedRaw().fields[j], v.vals[j]);
  }

  lemma {:induction false} MuteRaw(j: nat)
    requires j < 3
    ensures |AnnotatedRaw().fields| == 6
    ensures var s := AnnotatedRaw().fields[j]; Regular(s) && Mute(LEDGER, s)
  {
    RawFields();
    VecsRegular(CellDeps);
    VecsRegular(HeaderDeps);
    BytesOf();
    MuteHead();
    hide *;
    if j == 0 {} else if j == 1 {} else {}
  }

  lemma {:induction false} MuteHead()
    ensures Mute(LEDGER, Array(Version, 4)) && Mute(LEDGER, CellDepVec(CellDeps)) && Mute(LEDGER, Byte32Vec(HeaderDeps))
  {
    assert Mute(LEDGER, OutPoint());
    assert Mute(LEDGER, CellDep());
  }

  lemma {:induction false} RawRun(k: Keys, v: Val)
    requires RawForm(v)
    ensures Run(k, Cleared(), Replay(AnnotatedRaw(), v)) == Accounts(k, v)
  {
    hide *;
    RawKnown(v);
    RawKids(k, v, InputsStart(Cleared()));
    AccountsEnd(k, v);
    RawStart(k, Cleared(), v, 0);
    RawStart(k, Cleared(), v, 1);
    RawStart(k, Cleared(), v, 2);
    RawSteps(k, v, Cleared(), InputsStart(Cleared()), AfterInputs(k, v), OutputsEnd(k, BeforeOutputsEnd(k, v)), AfterData(k, v));
  }

  lemma {:induction false} RawKnown(v: Val)
    requires RawForm(v)
    ensures v.Items? && |v.vals| == 6 && Typed(AnnotatedRaw(), v) && |Encode(AnnotatedRaw(), v)| < U32_SIZE
  {
  }

  lemma {:induction false} AccountsEnd(k: Keys, v: Val)
    requires RawForm(v)
    ensures OnEnd(k, AfterData(k, v), AnnotatedRaw().tag) == Accounts(k, v)
  {
    RawFields();
    Ends(k, AfterData(k, v));
    hide AfterData, Finalize, AnnotatedRaw, RawForm, OnEnd;
  }

  lemma {:induction false} RawKids(k: Keys, v: Val, b0: Book)
    requires RawForm(v) && b0 == InputsStart(Cleared())
    ensures var s, b3, b4, b5 := AnnotatedRaw(), AfterInputs(k, v), OutputsEnd(k, BeforeOutputsEnd(k, v)), AfterData(k, v);
            && (forall i | 0 <= i < 6 :: Typed(Kid(s, i), v.vals[i]))
            && Run(k, b0, Replay(Kid(s, 3), v.vals[3])) == b3 && Run(k, b3, Replay(Kid(s, 4), v.vals[4])) == b4
            && Run(k, b4, Replay(Kid(s, 5), v.vals[5])) == b5
  {
    Fields(AnnotatedRaw(), v);
    RawFields();
    Field(AnnotatedRaw(), v, 3);
    Field(AnnotatedRaw(), v, 4);
    Field(AnnotatedRaw(), v, 5);
    hide Typed, Encode, AnnotatedRaw, InputVec, OutputVec, InputShapes, CellShapes, Blobs, Run, Replay, AllInputs, AllOutputs, AllData,
      FinishInputs, InputStart, InputsStart, OutputsEnd, OutputStart, DatumStart, Cleared;
    InputsRun(k, b0, v.vals[3]);
    OutputsRun(k, AfterInputs(k, v), v.vals[4]);
    DataRun(k, OutputsEnd(k, BeforeOutputsEnd(k, v)), v.vals[5]);
  }

  lemma {:induction false} RawSteps(k: Keys, v: Val, b: Book, b0: Book, b3: Book, b4: Book, b5: Book)
    requires v.Items? && |v.vals| == 6 && Typed(AnnotatedRaw(), v)
    requires forall i | 0 <= i < 6 :: Typed(Kid(AnnotatedRaw(), i), v.vals[i])
    requires Run(k, b, Replay(Kid(AnnotatedRaw(), 0), v.vals[0])) == b && Run(k, b, Replay(Kid(AnnotatedRaw(), 1), v.vals[1])) == b
    requires Run(k, b, Replay(Kid(AnnotatedRaw(), 2), v.vals[2])) == b
    requires b0 == InputsStart(b) && Run(k, b0, Replay(Kid(AnnotatedRaw(), 3), v.vals[3])) == b3
    requires Run(k, b3, Replay(Kid(AnnotatedRaw(), 4), v.vals[4])) == b4 && Run(k, b4, Replay(Kid(AnnotatedRaw(), 5), v.vals[5])) == b5
    ensures Run(k, b, Replay(AnnotatedRaw(), v)) == OnEnd(k, b5, AnnotatedRaw().tag)
  {
    NextRaw(b, 0);
    NextRaw(b, 1);
    NextRaw(b, 2);
    NextRaw(b, 3);
    NextRaw(b3, 4);
    NextRaw(b4, 5);
    NextRaw(b5, 6);
    hide *;
    SixHead(k, AnnotatedRaw(), v.vals, b, b0);
    SixTail(k, AnnotatedRaw(), v.vals, b0, b3, b4, b5);
    TableRun(k, b, AnnotatedRaw(), v, b5);
  }

  /** Three fields that change nothing. */
  lemma {:induction false} SixHead(k: Keys, s: Schema, vals: seq<Val>, b: Book, b0: Book)
    requires PlainFields(s) && |s.fields| == 6 && |vals| == 6 && forall i | 0 <= i < 6 :: Typed(Kid(s, i), vals[i])
    requires Run(k, b, Replay(Kid(s, 0), vals[0])) == b && Run(k, b, Replay(Kid(s, 1), vals[1])) == b
    requires Run(k, b, Replay(Kid(s, 2), vals[2])) == b
    requires NextField(b, s, 1) == b && NextField(b, s, 2) == b && NextField(b, s, 3) == b0
    ensures Run(k, b, ReplayKids(s, vals, 0)) == Run(k, b0, ReplayKids(s, vals, 3))
  {
    hide *;
    FieldStep(k, b, s, vals, 0, b);
    FieldStep(k, b, s, vals, 1, b);
    FieldStep(k, b, s, vals, 2, b);
  }

  /** Three fields that do. */
  lemma {:induction false} SixTail(k: Keys, s: Schema, vals: seq<Val>, b0: Book, b3: Book, b4: Book, b5: Book)
    requires PlainFields(s) && |s.fields| == 6 && |vals| == 6 && forall i | 0 <= i < 6 :: Typed(Kid(s, i), vals[i])
    requires Run(k, b0, Replay(Kid(s, 3), vals[3])) == b3 && Run(k, b3, Replay(Kid(s, 4), vals[4])) == b4
    requires Run(k, b4, Replay(Kid(s, 5), vals[5])) == b5
    requires NextField(b3, s, 4) == b3 && NextField(b4, s, 5) == b4 && NextField(b5, s, 6) == b5
    ensures Run(k, b0, ReplayKids(s, vals, 3)) == b5
  {
    assert s.Table? && |vals| == |s.fields|;
    hide *;
    FieldStep(k, b0, s, vals, 3, b3);
    FieldStep(k, b3, s, vals, 4, b4);
    FieldStep(k, b4, s, vals, 5, b5);
    LastField(k, b5, s, vals);
  }

  lemma {:induction false} NextRaw(b: Book, j: nat)
    requires j <= 6
    ensures PlainFields(AnnotatedRaw()) && AnnotatedRaw().Table? && |AnnotatedRaw().fields| == 6
    ensures NextField(b, AnnotatedRaw(), j) == if j == 3 then InputsStart(b) else b
  {
    PlainRawFields(b);
    RawFields();
    hide *;
  }

  // ---------- The message ----------

  ghost predicate TxForm(v: Val) {
    && v.Items? && |v.vals| == 5 && Typed(AnnotatedTx(), v) && |Encode(AnnotatedTx(), v)| < U32_SIZE && RawForm(v.vals[3])
  }

  lemma {:induction false} TxFormed(v: Val)
    requires Typed(AnnotatedTx(), v) && |Encode(AnnotatedTx(), v)| < U32_SIZE
    ensures TxForm(v)
  {
    TxFields();
    Field(AnnotatedTx(), v, 3);
    hide Typed, Encode, AnnotatedTx, RawForm;
    RawFormed(v.vals[3]);
  }

  /** The raw transaction of a message. */
  ghost function RawOf(v: Val): (r: Val)
    requires Typed(AnnotatedTx(), v) && |Encode(AnnotatedTx(), v)| < U32_SIZE
    ensures TxForm(v) && r == v.vals[3]
  {
    TxFormed(v);
    v.vals[3]
  }

  lemma {:induction false} TxFields()
    ensures AnnotatedTx().Table? && AnnotatedTx().tag == Quiet
    ensures AnnotatedTx().fields == [Bip32(SignPath), Bip32(ChangePath), Array(InputCount, 4), AnnotatedRaw(), BytesVec(Witnesses, Witness)]
  {
  }

  lemma {:induction false} MuteTx(j: nat)
    requires j < 5 && j != 3
    ensures |AnnotatedTx().fields| == 5
    ensures var s := AnnotatedTx().fields[j]; Regular(s) && Mute(LEDGER, s)
  {
    TxFields();
    VecsRegular(SignPath);
    VecsRegular(ChangePath);
    BytesOf();
    MuteOnes();
    hide *;
    if j == 0 {} else if j == 1 {} else if j == 2 {} else {}
  }

  lemma {:induction false} MuteOnes()
    ensures Mute(LEDGER, Bip32(SignPath)) && Mute(LEDGER, Bip32(ChangePath)) && Mute(LEDGER, Array(InputCount, 4))
    ensures Mute(LEDGER, BytesVec(Witnesses, Witness))
  {
    assert Mute(LEDGER, Array(PathComponent, 4)) && Mute(LEDGER, Bytes(Witness));
  }

  lemma {:induction false} NextTx(b: Book, j: nat)
    requires j <= 5
    ensures PlainFields(AnnotatedTx()) && AnnotatedTx().Table? && |AnnotatedTx().fields| == 5 && AnnotatedTx().tag == Quiet
    ensures NextField(b, AnnotatedTx(), j) == b
  {
    TxFields();
    hide AnnotatedTx;
  }

  lemma {:induction false} MuteField(k: Keys, b: Book, v: Val, j: nat)
    requires Typed(AnnotatedTx(), v) && |Encode(AnnotatedTx(), v)| < U32_SIZE && v.Items? && |v.vals| == 5 && j < 5 && j != 3
    ensures Typed(Kid(AnnotatedTx(), j), v.vals[j]) && Run(k, b, Replay(Kid(AnnotatedTx(), j), v.vals[j])) == b
  {
    Field(AnnotatedTx(), v, j) by { TxFields(); }
    MuteTx(j);
    hide *;
    MuteRun(k, b, AnnotatedTx().fields[j], v.vals[j]);
  }

  lemma {:induction false} TxRun(k: Keys, v: Val)
    requires TxForm(v)
    ensures Run(k, Cleared(), Replay(AnnotatedTx(), v)) == Accounts(k, v.vals[3])
  {
    var b, b1 := Cleared(), Accounts(k, v.vals[3]);
    RawRun(k, v.vals[3]);
    Field(AnnotatedTx(), v, 3) by { TxFields(); }
    assert Kid(AnnotatedTx(), 3) == AnnotatedRaw() by { TxFields(); }
    Fields(AnnotatedTx(), v) by { TxFields(); }
    assert v.Items? && |v.vals| == 5 && Typed(AnnotatedTx(), v) && |Encode(AnnotatedTx(), v)| < U32_SIZE;
    hide *;
    NextTx(b, 0);
    NextTx(b1, 5);
    TxSteps(k, v, b, b1);
    TableRun(k, b, AnnotatedTx(), v, b1);
    QuietEnd(k, b1);
  }

  lemma {:induction false} QuietEnd(k: Keys, b: Book)
    ensures OnEnd(k, b, Quiet) == b
  {
  }

  lemma {:induction false} TxSteps(k: Keys, v: Val, b: Book, b1: Book)
    requires v.Items? && |v.vals| == 5 && Typed(AnnotatedTx(), v) && |Encode(AnnotatedTx(), v)| < U32_SIZE
    requires !AnnotatedTx().IsLeaf() && !AnnotatedTx().Bytes? && AnnotatedTx().Table? && |AnnotatedTx().fields| == 5
    requires forall i | 0 <= i < 5 :: Typed(Kid(AnnotatedTx(), i), v.vals[i])
    requires Run(k, b, Replay(Kid(AnnotatedTx(), 3), v.vals[3])) == b1
    ensures Run(k, b, ReplayKids(AnnotatedTx(), v.vals, 0)) == b1
  {
    hide *;
    MuteField(k, b, v, 0);
    MuteField(k, b, v, 1);
    MuteField(k, b, v, 2);
    MuteField(k, b1, v, 4);
    NextTx(b, 1);
    NextTx(b, 2);
    NextTx(b, 3);
    NextTx(b1, 4);
    NextTx(b1, 5);
    FieldStep(k, b, AnnotatedTx(), v.vals, 0, b);
    FieldStep(k, b, AnnotatedTx(), v.vals, 1, b);
    FieldStep(k, b, AnnotatedTx(), v.vals, 2, b);
    FieldStep(k, b, AnnotatedTx(), v.vals, 3, b1);
    FieldStep(k, b1, AnnotatedTx(), v.vals, 4, b1);
    LastField(k, b1, AnnotatedTx(), v.vals);
  }

  /** However an annotated transaction arrives, its accounts are those of its cells, provided no
      lock argument that matters is longer than 28 bytes. */
  lemma {:induction false} AccountsWhole(k: Keys, v: Val, chunks: seq<seq<u8>>)
    requires TxForm(v) && chunks != [] && Join(chunks) == Encode(AnnotatedTx(), v) && !Accounts(k, v.vals[3]).long
    ensures var r := Feed(AnnotatedTx(), NUM_MAX, Init(AnnotatedTx()), chunks);
            r.rv == COMPLETE && Run(k, Cleared(), r.ev) == Accounts(k, v.vals[3])
  {
    MessagesRegular();
    FeedTrip(AnnotatedTx(), NUM_MAX, v, chunks);
    NoChunks(LEDGER, AnnotatedTx());
    var r := Feed(AnnotatedTx(), NUM_MAX, Init(AnnotatedTx()), chunks);
    TxRun(k, v);
    assert View(LEDGER, r.ev) == View(LEDGER, Replay(AnnotatedTx(), v));
    hide *;
    RunWhole(k, Cleared(), Replay(AnnotatedTx(), v));
    RunView(k, Cleared(), r.ev);
  }
}
