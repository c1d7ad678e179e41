/** The message schemas are well formed, and which callbacks can be watched together. */
module Shapes {
  import opened Words
  import opened Schema
  import opened Automaton
  import opened Encoding
  import opened Views
  import opened RoundTrip
  import opened Transaction
  import Reader

  lemma {:induction false} PairRegular(a: Schema, b: Schema)
    requires Regular(a) && Regular(b) && IsFixed(a) && IsFixed(b) && FixedSize(a) + FixedSize(b) < U32_SIZE
    ensures var s := Struct(Quiet, [a, b]);
            Regular(s) && IsFixed(s) && FixedSize(s) == FixedSize(a) + FixedSize(b)
  {
    assert [a, b][1..] == [b] && [b][1..] == [];
    assert SumSizes([b]) == FixedSize(b);
    assert SumSizes([a, b]) == FixedSize(a) + FixedSize(b);
  }

  lemma {:induction false} CellsRegular()
    ensures Regular(PlainCell()) && IsFixed(PlainCell()) && FixedSize(PlainCell()) == 44
    ensures Regular(CellInput()) && IsFixed(CellInput()) && FixedSize(CellInput()) == 44
    ensures Regular(CellDep()) && IsFixed(CellDep()) && FixedSize(CellDep()) == 37
  {
    PairRegular(Array(Quiet, 32), Array(Quiet, 4));
    PairRegular(Array(Quiet, 32), Array(PrevIndex, 4));
    PairRegular(Array(Quiet, 8), OutPoint());
    PairRegular(Array(Since, 8), CellInput().fields[1]);
    PairRegular(OutPoint(), Byte(Quiet));
  }

  lemma {:induction false} ScriptRegular(t: Tag, hash: Tag, kind: Tag, args: Tag)
    ensures Regular(Script(t, hash, kind, args))
  {
  }

  lemma {:induction false} OutputRegular(t: Tag, lock: Tag, args: Tag)
    ensures Regular(CellOutput(t, lock, args))
  {
    ScriptRegular(lock, LockHash, HashType, args);
    ScriptRegular(Quiet, TypeHash, HashType, TypeArgs);
  }

  lemma {:induction false} VecsRegular(t: Tag)
    ensures Regular(CellDepVec(t)) && Regular(Byte32Vec(t)) && Regular(FixVec(t, PlainCell(), NO_LIMIT)) && Regular(Bip32(t))
  {
    CellsRegular();
  }

  lemma {:induction false} SixRegular(t: Tag, a: Schema, b: Schema, c: Schema, d: Schema, e: Schema, f: Schema)
    requires Regular(a) && Regular(b) && Regular(c) && Regular(d) && Regular(e) && Regular(f)
    ensures Regular(Table(t, [a, b, c, d, e, f]))
  {
    var fields := [a, b, c, d, e, f];
    forall i | 0 <= i < |fields| ensures Regular(fields[i]) {
    }
  }

  lemma {:induction false} RawRegular()
    ensures Regular(SourceTx()) && Regular(RawTransaction()) && Regular(AnnotatedRaw())
  {
    VecsRegular(Quiet);
    VecsRegular(CellDeps);
    VecsRegular(HeaderDeps);
    OutputRegular(Quiet, LockScript, LockArgs);
    OutputRegular(Output, Quiet, LockArgsOut);
    CellsRegular();
    hide Regular;
    VecsOf(CellOutput(Quiet, LockScript, LockArgs), SourceOutputs);
    VecsOf(CellOutput(Output, Quiet, LockArgsOut), Outputs);
    BytesOf();
    SixRegular(Source, Array(Quiet, 4), CellDepVec(Quiet), Byte32Vec(Quiet), FixVec(Quiet, PlainCell(), NO_LIMIT),
               DynVec(SourceOutputs, CellOutput(Quiet, LockScript, LockArgs)), BytesVec(SourceData, InputDatum));
    InputsRegular();
    SixRegular(RawTx, Array(Version, 4), CellDepVec(CellDeps), Byte32Vec(HeaderDeps), DynVec(Inputs, AnnotatedInput()),
               OutputVec(), BytesVec(OutputsData, OutputDatum));
    SixRegular(Quiet, Array(Version, 4), CellDepVec(CellDeps), Byte32Vec(HeaderDeps), FixVec(Quiet, PlainCell(), NO_LIMIT),
               OutputVec(), BytesVec(OutputsData, OutputDatum));
  }

  lemma {:induction false} VecsOf(item: Schema, t: Tag)
    requires Regular(item) && item.Table?
    ensures Regular(DynVec(t, item))
  {
  }

  lemma {:induction false} BytesOf()
    ensures Regular(Array(Quiet, 4)) && Regular(Array(Version, 4)) && Regular(Array(InputCount, 4))
    ensures forall t, u :: Regular(BytesVec(t, u))
  {
  }

  lemma {:induction false} InputsRegular()
    requires Regular(SourceTx()) && Regular(CellInput())
    ensures Regular(DynVec(Inputs, AnnotatedInput()))
  {
    var fields := [CellInput(), SourceTx()];
    hide FixedSize, SumSizes, IsFixed;
    forall i | 0 <= i < |fields| ensures Regular(fields[i]) {
    }
    assert Regular(Table(Input, fields));
  }

  lemma {:induction false} MessagesRegular()
    ensures Regular(AnnotatedTx()) && Regular(WitnessArgs())
  {
    WitnessRegular();
    RawRegular();
    VecsRegular(SignPath);
    VecsRegular(ChangePath);
    BytesOf();
    FiveRegular(Bip32(SignPath), Bip32(ChangePath), Array(InputCount, 4), AnnotatedRaw(), BytesVec(Witnesses, Witness));
  }

  lemma {:induction false} FiveRegular(a: Schema, b: Schema, c: Schema, d: Schema, e: Schema)
    requires Regular(a) && Regular(b) && Regular(c) && Regular(d) && Regular(e)
    ensures Regular(Table(Quiet, [a, b, c, d, e]))
  {
    var fields := [a, b, c, d, e];
    forall i | 0 <= i < |fields| ensures Regular(fields[i]) {
    }
  }

  lemma {:induction false} WitnessRegular()
    ensures Regular(WitnessArgs())
  {
  }

  lemma {:induction false} RegularWf(s: Schema)
    requires Regular(s)
    ensures Reader.Wf(s)
  {
    if s.Struct? || s.Table? {
      forall i | 0 <= i < |s.fields| ensures Reader.Wf(s.fields[i]) { RegularWf(s.fields[i]); }
    } else if s.FixVec? || s.DynVec? || s.Option? {
      RegularWf(s.item);
    }
  }
}
