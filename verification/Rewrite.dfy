/** What is hashed is the transaction the network knows, and its witnesses with a blank
    signature in the first one. */
module Rewrite {
  import opened Words
  import opened Schema
  import opened Automaton
  import opened Views
  import opened Lifting
  import opened Encoding
  import opened RoundTrip
  import opened Chunking
  import opened Transaction
  import opened Shapes
  import opened Hashing

  // ---------- The hashing channel fits the schema ----------

  ghost predicate Silent(s: Schema) {
    Mute(HASHING, s)
  }

  lemma {:induction false} SilentCells()
    ensures Silent(CellDep()) && Silent(PlainCell())
  {
    assert Silent(OutPoint());
  }

  lemma {:induction false} SilentVecs()
    ensures Silent(Array(Quiet, 32)) && Silent(Array(Quiet, 4)) && Silent(CellDep())
    ensures Silent(CellDepVec(Quiet)) && Silent(Byte32Vec(Quiet)) && Silent(FixVec(Quiet, PlainCell(), NO_LIMIT))
    ensures Silent(Bytes(OutputDatum)) && Silent(BytesVec(SourceData, InputDatum))
  {
    SilentCells();
    hide Mute;
    SilentItems();
    SilentVec(CellDep());
    SilentVec(PlainCell());
    SilentVec(Array(Quiet, 32));
  }

  lemma {:induction false} SilentItems()
    ensures Silent(Array(Quiet, 32)) && Silent(Array(Quiet, 4))
    ensures Silent(Bytes(OutputDatum)) && Silent(BytesVec(SourceData, InputDatum))
  {
  }

  lemma {:induction false} SilentVec(item: Schema)
    requires Silent(item)
    ensures Silent(FixVec(Quiet, item, NO_LIMIT))
  {
  }

  lemma {:induction false} SilentThree(t: Tag, a: Schema, b: Schema, c: Schema)
    requires !Watched(HASHING, t) && Silent(a) && Silent(b) && Silent(c)
    ensures Silent(Table(t, [a, b, c]))
  {
    var fields := [a, b, c];
    forall i | 0 <= i < |fields| ensures Mute(HASHING, fields[i]) {
    }
  }

  lemma {:induction false} SilentParts(args: Tag)
    requires !Watched(HASHING, args)
    ensures Silent(Array(LockHash, 32)) && Silent(Array(TypeHash, 32)) && Silent(Array(Capacity, 8))
    ensures Silent(Byte(HashType)) && Silent(Bytes(args)) && Silent(Bytes(TypeArgs))
    ensures !Watched(HASHING, Quiet)
  {
  }

  lemma {:induction false} SilentOption(item: Schema)
    requires Silent(item)
    ensures Silent(Option(Quiet, item))
  {
  }

  lemma {:induction false} SilentOutput(t: Tag, lock: Tag, args: Tag)
    requires !Watched(HASHING, t) && !Watched(HASHING, lock) && !Watched(HASHING, args)
    ensures Silent(CellOutput(t, lock, args))
  {
    SilentParts(args);
    hide Mute;
    SilentThree(lock, Array(LockHash, 32), Byte(HashType), Bytes(args));
    SilentThree(Quiet, Array(TypeHash, 32), Byte(HashType), Bytes(TypeArgs));
    SilentOption(Script(Quiet, TypeHash, HashType, TypeArgs));
    SilentThree(t, Array(Capacity, 8), Script(lock, LockHash, HashType, args),
                Option(Quiet, Script(Quiet, TypeHash, HashType, TypeArgs)));
  }

  lemma {:induction false} SourceAnti()
    ensures Anti(HASHING, SourceTx()) && MuteKids(HASHING, SourceTx())
  {
    SilentVecs();
    SilentOutput(Quiet, LockScript, LockArgs);
    var fields := SourceTx().fields;
    forall i | 0 <= i < |fields| ensures Mute(HASHING, fields[i]) && Anti(HASHING, fields[i]) {
      assert Silent(fields[i]);
      MuteAnti(HASHING, fields[i]);
    }
  }

  lemma {:induction false} InputAnti()
    ensures Anti(HASHING, AnnotatedInput())
  {
    SourceAnti();
    assert Anti(HASHING, CellInput());
  }

  lemma {:induction false} VecAnti()
    ensures Anti(HASHING, CellDepVec(CellDeps)) && MuteKids(HASHING, CellDepVec(CellDeps))
    ensures Anti(HASHING, Byte32Vec(HeaderDeps)) && MuteKids(HASHING, Byte32Vec(HeaderDeps))
    ensures Anti(HASHING, OutputVec()) && MuteKids(HASHING, OutputVec())
    ensures Anti(HASHING, BytesVec(OutputsData, OutputDatum)) && MuteKids(HASHING, BytesVec(OutputsData, OutputDatum))
  {
    SilentVecs();
    SilentOutput(Output, Quiet, LockArgsOut);
    MuteAnti(HASHING, CellDep());
    MuteAnti(HASHING, OutputVec().item);
  }

  lemma {:induction false} RawAnti()
    ensures Anti(HASHING, AnnotatedRaw())
  {
    VecAnti();
    InputAnti();
    var fields := AnnotatedRaw().fields;
    forall i | 0 <= i < |fields| ensures Anti(HASHING, fields[i]) {
    }
  }

  lemma {:induction false} MessageAnti()
    ensures Anti(HASHING, AnnotatedTx())
  {
    RawAnti();
    var fields := AnnotatedTx().fields;
    forall i | 0 <= i < |fields| ensures Anti(HASHING, fields[i]) {
    }
  }

  // ---------- What the reported callbacks absorb ----------

  lemma {:induction false} NodeView(K: Channel, s: Schema, v: Val)
    requires Regular(s) && Typed(s, v) && |Encode(s, v)| < U32_SIZE && !s.IsLeaf() && !s.Bytes?
    requires Anti(K, s) && s.tag in K.chunk
    ensures View(K, Within(s, v)) == []
    ensures View(K, Replay(s, v)) == ChunkBytes(s.tag, Encode(s, v)) + (if s.tag in K.edge then [End(s.tag)] else [])
  {
    WithinInner(s, v);
    ViewPlus(K, Within(s, v), [Chunk(s.tag, Encode(s, v)), End(s.tag)]);
    assert [Chunk(s.tag, Encode(s, v)), End(s.tag)] == [Chunk(s.tag, Encode(s, v))] + [End(s.tag)];
    ViewPlus(K, [Chunk(s.tag, Encode(s, v))], [End(s.tag)]);
    OneView(K, Chunk(s.tag, Encode(s, v)));
    OneView(K, End(s.tag));
  }

  lemma {:induction false} SilentRun(H: Hash, d: Digest, s: Schema, v: Val)
    requires Regular(s) && Typed(s, v) && |Encode(s, v)| < U32_SIZE && Silent(s) && Calm(d)
    ensures Run(H, d, Replay(s, v)) == d
  {
    ReplayFrom(s, v);
    RunView(H, d, Replay(s, v));
  }

  lemma {:induction false} RunTwo(H: Hash, d: Digest, a: Event, b: Event)
    ensures Run(H, d, [a, b]) == Apply(H, Apply(H, d, a), b) && Run(H, d, [a]) == Apply(H, d, a)
  {
    assert [a, b][1..] == [b] && [b][1..] == [] && [a][1..] == [];
    assert Run(H, Apply(H, d, a), [b]) == Apply(H, Apply(H, d, a), b);
  }

  /** A node all of whose bytes are absorbed. */
  lemma {:induction false} ChunkNodeRun(H: Hash, d: Digest, s: Schema, v: Val)
    requires Regular(s) && Typed(s, v) && |Encode(s, v)| < U32_SIZE && !s.IsLeaf() && !s.Bytes?
    requires Anti(HASHING, s) && s.tag in HASHING.chunk && Calm(d)
    ensures Run(H, d, Replay(s, v)) == Apply(H, Apply(H, d, Chunk(s.tag, Encode(s, v))), End(s.tag))
  {
    NodeView(HASHING, s, v);
    RunView(H, d, Within(s, v));
    RunPlus(H, d, Within(s, v), [Chunk(s.tag, Encode(s, v)), End(s.tag)]);
    RunTwo(H, d, Chunk(s.tag, Encode(s, v)), End(s.tag));
  }

  /** One child of a composite value, and the rest. */
  lemma {:induction false} KidRun(H: Hash, d: Digest, s: Schema, vals: seq<Val>, k: nat)
    requires !s.IsLeaf() && !s.Bytes? && k < |vals| && (s.Struct? || s.Table? ==> |vals| == |s.fields|)
    requires forall i | k <= i < |vals| :: Typed(Kid(s, i), vals[i])
    ensures Run(H, d, ReplayKids(s, vals, k))
         == Run(H, Run(H, Run(H, d, Replay(Kid(s, k), vals[k])), BetweenEv(s, k)), ReplayKids(s, vals, k + 1))
  {
    var a, b, c := Replay(Kid(s, k), vals[k]), BetweenEv(s, k), ReplayKids(s, vals, k + 1);
    RunPlus(H, d, a + b, c);
    RunPlus(H, d, a, b);
  }

  // ---------- Inputs ----------

  lemma {:induction false} CellInputShaped(v: Val)
    requires Typed(CellInput(), v)
    ensures v.Items? && |v.vals| == 2 && v.vals[0].Blob? && |v.vals[0].bytes| == 8
    ensures v.vals[1].Items? && |v.vals[1].vals| == 2
    ensures v.vals[1].vals[0].Blob? && v.vals[1].vals[1].Blob? && |v.vals[1].vals[1].bytes| == 4
  {
    assert Typed(CellInput().fields[0], v.vals[0]) && Typed(CellInput().fields[1], v.vals[1]);
    assert Typed(CellInput().fields[1].fields[0], v.vals[1].vals[0]);
    assert Typed(CellInput().fields[1].fields[1], v.vals[1].vals[1]);
  }

  lemma {:induction false} AnnotatedInputShaped(v: Val)
    requires Typed(AnnotatedInput(), v)
    ensures v.Items? && |v.vals| == 2 && Typed(CellInput(), v.vals[0]) && Typed(SourceTx(), v.vals[1])
  {
    assert Typed(AnnotatedInput().fields[0], v.vals[0]) && Typed(AnnotatedInput().fields[1], v.vals[1]);
  }

  /** `since`, the hash of the source, and the index. */
  function PlainFields(H: Hash, v: Val): (seq<u8>, seq<u8>, seq<u8>)
    requires Typed(AnnotatedInput(), v)
  {
    AnnotatedInputShaped(v);
    CellInputShaped(v.vals[0]);
    (v.vals[0].vals[0].bytes, H(Encode(SourceTx(), v.vals[1])), v.vals[0].vals[1].vals[1].bytes)
  }

  /** An annotated input as the network knows it. */
  function PlainInput(H: Hash, v: Val): Val
    requires Typed(AnnotatedInput(), v)
  {
    var (since, hash, index) := PlainFields(H, v);
    Items([Blob(since), Items([Blob(hash), Blob(index)])])
  }

  function PlainInputBytes(H: Hash, v: Val): seq<u8>
    requires Typed(AnnotatedInput(), v)
  {
    var (since, hash, index) := PlainFields(H, v);
    since + (hash + index)
  }

  lemma {:induction false} PlainInputEncode(H: Hash, v: Val)
    requires IsHash(H) && Typed(AnnotatedInput(), v)
    ensures Typed(PlainCell(), PlainInput(H, v))
    ensures Encode(PlainCell(), PlainInput(H, v)) == PlainInputBytes(H, v)
    ensures |PlainInputBytes(H, v)| == 44
  {
    AnnotatedInputShaped(v);
    CellInputShaped(v.vals[0]);
    var (since, hash, index) := PlainFields(H, v);
    assert |hash| == 32;
    var o := Items([Blob(hash), Blob(index)]);
    assert Typed(OutPoint(), o);
    PairEncode(OutPoint(), o);
    PairEncode(PlainCell(), PlainInput(H, v));
  }

  lemma {:induction false} PairEncode(s: Schema, v: Val)
    requires s.Struct? && |s.fields| == 2 && Typed(s, v)
    ensures Encode(s, v) == Encode(s.fields[0], v.vals[0]) + Encode(s.fields[1], v.vals[1])
  {
    var a, b := Encode(s.fields[0], v.vals[0]), Encode(s.fields[1], v.vals[1]);
    assert Parts(s, v.vals, 0) == [a, b];
    assert [a, b][1..] == [b];
    JoinOne(b);
  }

  /** Callbacks that leave the digest alone. */
  predicate Unseen(e: Event) {
    || !Watched(HASHING, e.tag)
    || (e.Start? && e.tag != Input)
    || (e.Offsets? && e.tag != RawTx)
    || (e.Length? && e.tag != Inputs)
    || (e.Index? && e.tag != Witnesses)
  }

  lemma {:induction false} UnseenRun(H: Hash, d: Digest, a: Event, b: Event)
    requires Unseen(a) && Unseen(b)
    ensures Run(H, d, [a, b]) == d && Run(H, d, [a]) == d
  {
    RunTwo(H, d, a, b);
  }

  lemma {:induction false} RunThree(H: Hash, d: Digest, a: seq<Event>, b: seq<Event>, c: seq<Event>, d1: Digest, d2: Digest, d3: Digest)
    requires Run(H, d, a) == d1 && Run(H, d1, b) == d2 && Run(H, d2, c) == d3
    ensures Run(H, d, a + b + c) == d3
  {
    RunPlus(H, d, a + b, c);
    RunPlus(H, d, a, b);
  }

  /** The two fields of a struct, one after the other. */
  lemma {:induction false} PairRun(H: Hash, d: Digest, s: Schema, v: Val, d1: Digest, d2: Digest)
    requires s.Struct? && s.tag == Quiet && |s.fields| == 2 && Typed(s, v)
    requires Run(H, d, Replay(s.fields[0], v.vals[0])) == d1
    requires Run(H, d1, InitEv(s.fields[1])) == d1
    requires Run(H, d1, Replay(s.fields[1], v.vals[1])) == d2
    ensures Run(H, d, Replay(s, v)) == d2
  {
    PairEvents(s, v);
    hide Run, Replay, InitEv, Typed;
    var a, b, c := Replay(s.fields[0], v.vals[0]), InitEv(s.fields[1]), Replay(s.fields[1], v.vals[1]);
    RunPlus(H, d, a + b, c);
    RunPlus(H, d, a, b);
    RunEnd(H, d, s, v, d2);
  }

  lemma {:induction false} PairEvents(s: Schema, v: Val)
    requires s.Struct? && |s.fields| == 2 && Typed(s, v)
    ensures Within(s, v) == Replay(s.fields[0], v.vals[0]) + InitEv(s.fields[1]) + Replay(s.fields[1], v.vals[1])
  {
    var a, b := Replay(s.fields[0], v.vals[0]), Replay(s.fields[1], v.vals[1]);
    assert BetweenEv(s, 0) == InitEv(s.fields[1]) && BetweenEv(s, 1) == [];
    assert ReplayKids(s, v.vals, 2) == [];
    assert ReplayKids(s, v.vals, 1) == b + [] + [] == b;
    assert ReplayKids(s, v.vals, 0) == a + BetweenEv(s, 0) + b;
    assert EnterEv(s, Kept(s, v), 2) == [];
  }

  lemma {:induction false} LeafRun(H: Hash, d: Digest, s: Schema, v: Val)
    requires s.IsLeaf() && Typed(s, v)
    ensures Run(H, d, Replay(s, v)) == Apply(H, d, Leaf(s.tag, v.bytes))
  {
    RunTwo(H, d, Leaf(s.tag, v.bytes), Leaf(s.tag, v.bytes));
  }

  lemma {:induction false} CellInputRun(H: Hash, d: Digest, v: Val)
    requires Typed(CellInput(), v)
    ensures v.Items? && |v.vals| == 2 && v.vals[0].Blob? && v.vals[1].Items? && |v.vals[1].vals| == 2 && v.vals[1].vals[1].Blob?
    ensures Run(H, d, Replay(CellInput(), v)) == Absorb(d, v.vals[0].bytes).(index := v.vals[1].vals[1].bytes)
  {
    CellInputShaped(v);
    var s, point, since, o := CellInput(), CellInput().fields[1], v.vals[0], v.vals[1];
    var d1 := Absorb(d, since.bytes);
    assert Typed(point, o) && Typed(s.fields[0], since);
    assert Run(H, d, Replay(s.fields[0], since)) == d1 by { LeafRun(H, d, Array(Since, 8), since); }
    PointRun(H, d1, o);
    assert InitEv(point) == [Start(Quiet)];
    UnseenRun(H, d1, Start(Quiet), Start(Quiet));
    PairRun(H, d, s, v, d1, d1.(index := o.vals[1].bytes));
  }

  lemma {:induction false} PointRun(H: Hash, d: Digest, o: Val)
    requires Typed(CellInput().fields[1], o) && o.Items? && |o.vals| == 2 && o.vals[0].Blob? && o.vals[1].Blob?
    ensures Run(H, d, Replay(CellInput().fields[1], o)) == d.(index := o.vals[1].bytes)
  {
    var point := CellInput().fields[1];
    assert Typed(point.fields[0], o.vals[0]) && Typed(point.fields[1], o.vals[1]);
    LeafRun(H, d, Array(Quiet, 32), o.vals[0]);
    LeafRun(H, d, Array(PrevIndex, 4), o.vals[1]);
    assert InitEv(point.fields[1]) == [];
    PairRun(H, d, point, o, d, d.(index := o.vals[1].bytes));
  }

  /** The last callbacks of a node. */
  lemma {:induction false} RunEnd(H: Hash, d: Digest, s: Schema, v: Val, d': Digest)
    requires Typed(s, v) && !s.IsLeaf() && !s.Bytes? && s.tag !in HASHING.chunk
    requires Run(H, d, Within(s, v)) == d'
    ensures Run(H, d, Replay(s, v)) == OnEnd(H, d', s.tag)
  {
    RunPlus(H, d, Within(s, v), [Chunk(s.tag, Encode(s, v)), End(s.tag)]);
    RunTwo(H, d', Chunk(s.tag, Encode(s, v)), End(s.tag));
  }

  /** An annotated input contributes the input the network knows. */
  lemma {:induction false} InputRun(H: Hash, d: Digest, v: Val)
    requires Typed(AnnotatedInput(), v) && |Encode(AnnotatedInput(), v)| < U32_SIZE && Calm(d) && d.source == []
    ensures Run(H, d, Replay(AnnotatedInput(), v))
         == Absorb(d, PlainInputBytes(H, v)).(source := [], index := NO_INDEX)
  {
    AnnotatedInputShaped(v);
    InputCell(H, d, v);
    InputSum(H, d, v);
    var d1 := InputD1(H, d, v);
    InputSource(H, d1, v);
    hide *;
    InputKids(H, d, v, d1, InputD2(H, d1, v));
    InputEnd(H, d, v, InputD2(H, d1, v));
  }

  /** The digest after `since` and the index, and after the source. */
  function InputD1(H: Hash, d: Digest, v: Val): Digest
    requires Typed(AnnotatedInput(), v)
  {
    Absorb(d, PlainFields(H, v).0).(index := PlainFields(H, v).2)
  }

  function InputD2(H: Hash, d: Digest, v: Val): Digest
    requires Typed(AnnotatedInput(), v)
  {
    Absorb(d, PlainFields(H, v).1 + d.index).(source := [], index := NO_INDEX)
  }

  lemma {:induction false} InputSum(H: Hash, d: Digest, v: Val)
    requires Typed(AnnotatedInput(), v) && d.source == []
    ensures InputD2(H, InputD1(H, d, v), v) == Absorb(d, PlainInputBytes(H, v)).(source := [], index := NO_INDEX)
    ensures InputD1(H, d, v).args == d.args && InputD1(H, d, v).source == []
  {
    var (since, hash, index) := PlainFields(H, v);
    assert d.main + since + (hash + index) == d.main + (since + (hash + index));
  }

  lemma {:induction false} InputCell(H: Hash, d: Digest, v: Val)
    requires Typed(AnnotatedInput(), v) && v.Items? && |v.vals| == 2 && Typed(CellInput(), v.vals[0])
    ensures Run(H, d, Replay(CellInput(), v.vals[0])) == InputD1(H, d, v)
  {
    AnnotatedInputShaped(v);
    CellInputRun(H, d, v.vals[0]);
  }

  lemma {:induction false} InputSource(H: Hash, d: Digest, v: Val)
    requires Typed(AnnotatedInput(), v) && v.Items? && |v.vals| == 2 && Typed(SourceTx(), v.vals[1])
    requires |Encode(AnnotatedInput(), v)| < U32_SIZE && Calm(d) && d.source == []
    ensures Run(H, d, Replay(SourceTx(), v.vals[1])) == InputD2(H, d, v)
  {
    KidSmall(AnnotatedInput(), v, 1);
    SourceRun(H, d, v.vals[1]);
  }

  lemma {:induction false} InputEnd(H: Hash, d: Digest, v: Val, d': Digest)
    requires Typed(AnnotatedInput(), v) && Run(H, d, Within(AnnotatedInput(), v)) == d'
    ensures Run(H, d, Replay(AnnotatedInput(), v)) == d'
  {
    RunEnd(H, d, AnnotatedInput(), v, d');
  }

  lemma {:induction false} SourceRun(H: Hash, d: Digest, v: Val)
    requires Typed(SourceTx(), v) && |Encode(SourceTx(), v)| < U32_SIZE && Calm(d) && d.source == []
    ensures Run(H, d, Replay(SourceTx(), v)) == Absorb(d, H(Encode(SourceTx(), v)) + d.index).(source := [], index := NO_INDEX)
  {
    RawRegular();
    SourceAnti();
    hide Run, Replay, Typed, Regular, Anti, MuteKids, Calm;
    ChunkNodeRun(H, d, SourceTx(), v);
    assert [] + Encode(SourceTx(), v) == Encode(SourceTx(), v);
  }

  lemma {:induction false} InputKids(H: Hash, d: Digest, v: Val, d1: Digest, d2: Digest)
    requires Typed(AnnotatedInput(), v) && v.Items? && |v.vals| == 2
    requires Typed(CellInput(), v.vals[0]) && Typed(SourceTx(), v.vals[1])
    requires Run(H, d, Replay(CellInput(), v.vals[0])) == d1 && Run(H, d1, Replay(SourceTx(), v.vals[1])) == d2
    ensures Run(H, d, Within(AnnotatedInput(), v)) == d2
  {
    var nums := Kept(AnnotatedInput(), v);
    InputEvents(v);
    UnseenRun(H, d, Start(Quiet), Offsets(Input, nums));
    UnseenRun(H, d1, Start(Source), Start(Source));
    hide *;
    RunThree(H, d, [Start(Quiet), Offsets(Input, nums)], Replay(CellInput(), v.vals[0]), [Start(Source)], d, d1, d1);
    RunPlus(H, d, [Start(Quiet), Offsets(Input, nums)] + Replay(CellInput(), v.vals[0]) + [Start(Source)], Replay(SourceTx(), v.vals[1]));
  }

  lemma {:induction false} InputEvents(v: Val)
    requires Typed(AnnotatedInput(), v) && v.Items? && |v.vals| == 2
    requires Typed(CellInput(), v.vals[0]) && Typed(SourceTx(), v.vals[1])
    ensures Within(AnnotatedInput(), v)
         == [Start(Quiet), Offsets(Input, Kept(AnnotatedInput(), v))] + Replay(CellInput(), v.vals[0]) + [Start(Source)]
            + Replay(SourceTx(), v.vals[1])
  {
    var s, nums := AnnotatedInput(), Kept(AnnotatedInput(), v);
    TwoKids(s, v);
    assert InitEv(CellInput()) == [Start(Quiet)] && InitEv(SourceTx()) == [Start(Source)];
    assert EnterEv(s, nums, 2) == [Start(Quiet), Offsets(Input, nums)];
  }

  lemma {:induction false} TwoKids(s: Schema, v: Val)
    requires s.Table? && |s.fields| == 2 && Typed(s, v) && Typed(s.fields[0], v.vals[0]) && Typed(s.fields[1], v.vals[1])
    ensures Within(s, v) == EnterEv(s, Kept(s, v), 2) + Replay(s.fields[0], v.vals[0]) + InitEv(s.fields[1])
                            + Replay(s.fields[1], v.vals[1])
  {
    var a, b := Replay(s.fields[0], v.vals[0]), Replay(s.fields[1], v.vals[1]);
    TwoWithin(s, v);
    TwoBetween(s);
    KidsStep(s, v.vals, 0);
    KidsStep(s, v.vals, 1);
    hide *;
    assert ReplayKids(s, v.vals, 1) == b + [] + [] == b;
    Regroup4(EnterEv(s, Kept(s, v), 2), a, InitEv(s.fields[1]), b);
  }

  lemma {:induction false} Regroup4(x: seq<Event>, a: seq<Event>, i: seq<Event>, b: seq<Event>)
    ensures x + (a + i + b) == x + a + i + b
  {
  }

  lemma {:induction false} TwoWithin(s: Schema, v: Val)
    requires s.Table? && |s.fields| == 2 && Typed(s, v)
    ensures v.Items? && |v.vals| == 2 && ReplayKids(s, v.vals, 2) == []
    ensures Within(s, v) == EnterEv(s, Kept(s, v), 2) + ReplayKids(s, v.vals, 0)
  {
  }

  lemma {:induction false} TwoBetween(s: Schema)
    requires s.Table? && |s.fields| == 2
    ensures BetweenEv(s, 0) == InitEv(s.fields[1]) && BetweenEv(s, 1) == [] && Kid(s, 0) == s.fields[0] && Kid(s, 1) == s.fields[1]
  {
  }

  lemma {:induction false} KidsStep(s: Schema, vals: seq<Val>, k: nat)
    requires !s.IsLeaf() && !s.Bytes? && k < |vals| && (s.Struct? || s.Table? ==> |vals| == |s.fields|)
    requires forall i | k <= i < |vals| :: Typed(Kid(s, i), vals[i])
    ensures ReplayKids(s, vals, k) == Replay(Kid(s, k), vals[k]) + BetweenEv(s, k) + ReplayKids(s, vals, k + 1)
  {
  }

  // ---------- The vector of inputs ----------

  function PlainAll(H: Hash, vals: seq<Val>): seq<u8>
    requires forall i | 0 <= i < |vals| :: Typed(AnnotatedInput(), vals[i])
  {
    if vals == [] then [] else PlainInputBytes(H, vals[0]) + PlainAll(H, vals[1..])
  }

  ghost predicate GoodInputs(vals: seq<Val>) {
    forall i | 0 <= i < |vals| :: Typed(AnnotatedInput(), vals[i]) && |Encode(AnnotatedInput(), vals[i])| < U32_SIZE
  }

  lemma {:induction false} PlainAllStep(H: Hash, d: Digest, vals: seq<Val>, k: nat)
    requires k < |vals| && GoodInputs(vals)
    ensures Absorb(Absorb(d, PlainInputBytes(H, vals[k])), PlainAll(H, vals[k + 1..])) == Absorb(d, PlainAll(H, vals[k..]))
  {
    assert vals[k..][1..] == vals[k + 1..];
    assert d.main + PlainInputBytes(H, vals[k]) + PlainAll(H, vals[k + 1..])
        == d.main + (PlainInputBytes(H, vals[k]) + PlainAll(H, vals[k + 1..]));
  }

  lemma {:induction false} ItemsRun(H: Hash, d: Digest, vals: seq<Val>, k: nat)
    requires k <= |vals| && GoodInputs(vals)
    requires Calm(d) && d.source == [] && d.index == NO_INDEX
    ensures Run(H, d, ReplayKids(InputVec(), vals, k)) == Absorb(d, PlainAll(H, vals[k..]))
    decreases |vals| - k
  {
    if k == |vals| {
      assert d.main + [] == d.main;
    } else {
      hide Calm, Run, ReplayKids, Encode, PlainInputBytes, PlainAll, AnnotatedInput;
      var d1 := Absorb(d, PlainInputBytes(H, vals[k]));
      assert d1 == d1.(source := [], index := NO_INDEX);
      ItemsRun(H, d1, vals, k + 1);
      PlainAllStep(H, d, vals, k);
      ItemRun(H, d, vals, k, d1);
    }
  }

  lemma {:induction false} ItemRun(H: Hash, d: Digest, vals: seq<Val>, k: nat, d1: Digest)
    requires k < |vals| && GoodInputs(vals)
    requires Calm(d) && d.source == [] && d.index == NO_INDEX
    requires d1 == Absorb(d, PlainInputBytes(H, vals[k])).(source := [], index := NO_INDEX)
    ensures Run(H, d, ReplayKids(InputVec(), vals, k)) == Run(H, d1, ReplayKids(InputVec(), vals, k + 1))
  {
    hide Calm, Run, Encode, PlainInputBytes;
    InputRun(H, d, vals[k]);
    BetweenInputs(H, d1, k);
    KidRun(H, d, InputVec(), vals, k);
  }

  lemma {:induction false} BetweenInputs(H: Hash, d: Digest, k: nat)
    requires d.source == [] && d.index == NO_INDEX
    ensures Run(H, d, BetweenEv(InputVec(), k)) == d
  {
    assert BetweenEv(InputVec(), k) == [Start(Input), Index(Inputs, k + 1)];
    RunTwo(H, d, Start(Input), Index(Inputs, k + 1));
  }

  lemma {:induction false} InputsRun(H: Hash, d: Digest, v: Val)
    requires Typed(InputVec(), v) && |Encode(InputVec(), v)| < U32_SIZE && v.vals != [] && |v.vals| == d.count && Calm(d)
    ensures Run(H, d, Replay(InputVec(), v))
         == Absorb(d, Pack(d.count) + PlainAll(H, v.vals)).(source := [], index := NO_INDEX, txHash := [], isFirst := false,
                                                            firstDone := false, final := [], scan := NO_SCAN)
  {
    hide Calm, Run, Encode, PlainAll, Pack, Within;
    var d1 := Absorb(d, Pack(d.count)).(source := [], index := NO_INDEX);
    var d2 := Absorb(d1, PlainAll(H, v.vals));
    InputsWithin(H, d, v, d1);
    assert d.main + Pack(d.count) + PlainAll(H, v.vals) == d.main + (Pack(d.count) + PlainAll(H, v.vals));
    RunEnd(H, d, InputVec(), v, d2);
  }

  lemma {:induction false} InputsWithin(H: Hash, d: Digest, v: Val, d1: Digest)
    requires Typed(InputVec(), v) && |Encode(InputVec(), v)| < U32_SIZE && v.vals != [] && |v.vals| == d.count && Calm(d)
    requires d1 == Absorb(d, Pack(d.count)).(source := [], index := NO_INDEX)
    ensures Run(H, d, Within(InputVec(), v)) == Absorb(d1, PlainAll(H, v.vals))
  {
    EnterInputs(H, d, v);
    forall i | 0 <= i < |v.vals| ensures |Encode(AnnotatedInput(), v.vals[i])| < U32_SIZE { KidSmall(InputVec(), v, i); }
    hide Run, ReplayKids, EnterEv, PlainAll, Encode;
    ItemsRun(H, d1, v.vals, 0);
    assert v.vals[0..] == v.vals;
    RunPlus(H, d, EnterEv(InputVec(), Kept(InputVec(), v), |v.vals|), ReplayKids(InputVec(), v.vals, 0));
  }

  lemma {:induction false} EnterInputs(H: Hash, d: Digest, v: Val)
    requires Typed(InputVec(), v) && v.vals != [] && |v.vals| == d.count
    ensures Run(H, d, EnterEv(InputVec(), Kept(InputVec(), v), |v.vals|)) == Absorb(d, Pack(d.count)).(source := [], index := NO_INDEX)
  {
    var n := |v.vals|;
    assert InitEv(AnnotatedInput()) == [Start(Input)];
    assert EnterEv(InputVec(), Kept(InputVec(), v), n) == [Start(Input)] + [Length(Inputs, n), Index(Inputs, 0)];
    EnterRun(H, d, n);
  }

  lemma {:induction false} EnterRun(H: Hash, d: Digest, n: u32)
    requires n == d.count
    ensures Run(H, d, [Start(Input)] + [Length(Inputs, n), Index(Inputs, 0)])
         == Absorb(d, Pack(n)).(source := [], index := NO_INDEX)
  {
    var d0 := d.(source := [], index := NO_INDEX);
    RunTwo(H, d, Start(Input), Start(Input));
    RunTwo(H, d0, Length(Inputs, n), Index(Inputs, 0));
    RunPlus(H, d, [Start(Input)], [Length(Inputs, n), Index(Inputs, 0)]);
  }
}
