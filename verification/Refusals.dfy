/** When a message is refused outright: if it has not as many inputs as it announces. */
module Refusals {
  import opened Words
  import opened Schema
  import opened Automaton
  import opened Views
  import opened Lifting
  import opened Encoding
  import opened RoundTrip
  import opened Chunking
  import opened Transaction
  import opened Shapes
  import opened Hashing
  import opened Signing
  import L = Ledger
  import R = Rewrite
  import D = RawDigest
  import S = SignedDigest
  import LR = LedgerRuns

  // ---------- The number of inputs ----------

  /** What is known of the number of inputs: what was announced, and whether it turned out wrong. */
  datatype Gate = Gate(count: u32, hard: bool)

  function Pass1(g: Gate, e: Event): Gate {
    match e
    case Leaf(t, bs) => if t == InputCount && |bs| == 4 then g.(count := Unpack(bs)) else g
    case Length(t, n) => if t == Inputs && n != g.count then g.(hard := true) else g
    case _ => g
  }

  function Passes(g: Gate, ev: seq<Event>): Gate
    decreases |ev|
  {
    if ev == [] then g else Passes(Pass1(g, ev[0]), ev[1..])
  }

  lemma {:induction false} PassesPlus(g: Gate, a: seq<Event>, b: seq<Event>)
    ensures Passes(g, a + b) == Passes(Passes(g, a), b)
    decreases |a|
  {
    if a == [] {
      assert a + b == b;
    } else {
      assert (a + b)[1..] == a[1..] + b;
      hide Pass1;
      PassesPlus(Pass1(g, a[0]), a[1..], b);
    }
  }

  /** Once wrong, it stays wrong. */
  lemma {:induction false} HardStays(g: Gate, ev: seq<Event>)
    ensures g.hard ==> Passes(g, ev).hard
    decreases |ev|
  {
    if ev != [] { HardStays(Pass1(g, ev[0]), ev[1..]); }
  }

  function GateOf(d: Digest): Gate {
    Gate(d.count, d.hardReject)
  }

  lemma {:induction false} ApplyGate(H: Hash, d: Digest, e: Event)
    ensures GateOf(Apply(H, d, e)) == Pass1(GateOf(d), e)
  {
    match e {
      case Leaf(t, bs) => LeafGate(d, t, bs);
      case Body(t, bs) => BodyGate(d, t, bs);
      case End(t) => EndGate(H, d, t);
      case Start(_) =>
      case Chunk(_, _) =>
      case _ => InnerGate(d, e);
    }
    hide OnLeaf, OnBody, OnEnd, OnInner;
  }

  lemma {:induction false} LeafGate(d: Digest, t: Tag, bs: seq<u8>)
    ensures GateOf(OnLeaf(d, t, bs)) == Pass1(GateOf(d), Leaf(t, bs))
  {
    hide Unpack;
  }

  lemma {:induction false} BodyGate(d: Digest, t: Tag, bs: seq<u8>)
    ensures GateOf(OnBody(d, t, bs)) == GateOf(d)
  {
    if d.args.Parsing? { PassKeeps(d, Go(WitnessArgs(), NUM_MAX, d.args.st, bs).ev); }
    hide Pass, Go, WitnessArgs;
  }

  lemma {:induction false} EndGate(H: Hash, d: Digest, t: Tag)
    ensures GateOf(OnEnd(H, d, t)) == GateOf(d)
  {
  }

  lemma {:induction false} InnerGate(d: Digest, e: Event)
    ensures e.Offsets? || e.Length? || e.Index? || e.Size? ==> GateOf(OnInner(d, e)) == Pass1(GateOf(d), e)
  {
    hide NewHeader, Pack, Pack64, Init, WitnessArgs;
  }

  lemma {:induction false} BothGate(H: Hash, k: L.Keys, d: Desk, ev: seq<Event>)
    ensures GateOf(RunBoth(H, k, d, ev).digest) == Passes(GateOf(d.digest), ev)
    decreases |ev|
  {
    if ev != [] {
      ApplyGate(H, Informed(d, ev[0]), ev[0]);
      assert GateOf(Informed(d, ev[0])) == GateOf(d.digest) by { hide L.Rejects; }
      hide Apply, L.Apply, Informed, Pass1, GateOf;
      BothGate(H, k, Both(H, k, d, ev[0]), ev[1..]);
    }
  }

  const COUNTING := Channel({}, {Inputs}, {InputCount})

  lemma {:induction false} ViewGate1(g: Gate, e: Event)
    ensures Passes(g, View1(COUNTING, e)) == Pass1(g, e)
  {
    assert [e][1..] == [];
    if e.Body? && e.tag in COUNTING.edge { BytesGate(g, e.bytes); }
  }

  lemma {:induction false} BytesGate(g: Gate, bs: seq<u8>)
    ensures Passes(g, BodyBytes(InputCount, bs)) == g
    decreases |bs|
  {
    var ev := BodyBytes(InputCount, bs);
    if bs != [] {
      assert ev[1..] == BodyBytes(InputCount, bs[1..]);
      BytesGate(g, bs[1..]);
    }
  }

  /** Only the counting callbacks matter, however the message is cut. */
  lemma {:induction false} ViewGate(g: Gate, ev: seq<Event>)
    ensures Passes(g, View(COUNTING, ev)) == Passes(g, ev)
    decreases |ev|
  {
    if ev != [] {
      ViewGate1(g, ev[0]);
      PassesPlus(g, View1(COUNTING, ev[0]), View(COUNTING, ev[1..]));
      hide Pass1, View1;
      ViewGate(Pass1(g, ev[0]), ev[1..]);
    }
  }

  // ---------- Over a value ----------

  lemma {:induction false} MuteGate(g: Gate, s: Schema, v: Val)
    requires Regular(s) && Typed(s, v) && |Encode(s, v)| < U32_SIZE && Mute(COUNTING, s)
    ensures Passes(g, Replay(s, v)) == g
  {
    ReplayFrom(s, v);
    assert View(COUNTING, Replay(s, v)) == [] by { hide Replay, Regular, Encode; }
    hide Regular, Typed, Encode, Mute, Replay;
    ViewGate(g, Replay(s, v));
  }

  lemma {:induction false} InitGate(g: Gate, s: Schema)
    ensures Passes(g, InitEv(s)) == g
    decreases s
  {
    if s.Struct? {
      var rest := if s.fields == [] then [] else InitEv(s.fields[0]);
      assert ([Start(s.tag)] + rest)[1..] == rest;
      if s.fields != [] { InitGate(g, s.fields[0]); }
    } else if s.Option? {
      assert ([Start(s.tag)] + InitEv(s.item))[1..] == InitEv(s.item);
      InitGate(g, s.item);
    } else if !s.IsLeaf() {
      assert [Start(s.tag)][1..] == [];
    }
  }

  lemma {:induction false} IndexGate(g: Gate, s: Schema, e: Event)
    requires Pass1(g, e) == g
    ensures Passes(g, InitEv(s) + [e]) == g
  {
    InitGate(g, s);
    PassesPlus(g, InitEv(s), [e]);
    assert [e][1..] == [];
    hide InitEv, Pass1;
  }

  lemma {:induction false} BetweenGate(g: Gate, s: Schema, j: nat)
    ensures Passes(g, BetweenEv(s, j)) == g
  {
    match s {
      case Struct(_, fields) => if j + 1 < |fields| { InitGate(g, fields[j + 1]); }
      case Table(_, fields) => if j + 1 < |fields| { InitGate(g, fields[j + 1]); }
      case FixVec(t, item, _) => IndexGate(g, item, Index(t, j + 1));
      case DynVec(t, item) => IndexGate(g, item, Index(t, j + 1));
      case _ =>
    }
    hide InitEv;
  }

  /** One child more. */
  lemma {:induction false} KidGate(g: Gate, s: Schema, vals: seq<Val>, j: nat)
    requires !s.IsLeaf() && !s.Bytes? && j < |vals| && (s.Struct? || s.Table? ==> |vals| == |s.fields|)
    requires forall i | j <= i < |vals| :: Typed(Kid(s, i), vals[i])
    ensures Passes(g, ReplayKids(s, vals, j)) == Passes(Passes(g, Replay(Kid(s, j), vals[j])), ReplayKids(s, vals, j + 1))
  {
    var a, b, c := Replay(Kid(s, j), vals[j]), BetweenEv(s, j), ReplayKids(s, vals, j + 1);
    R.KidsStep(s, vals, j);
    hide *;
    PassesPlus(g, a + b, c);
    PassesPlus(g, a, b);
    BetweenGate(Passes(g, a), s, j);
  }

  /** A child that is not counted. */
  ghost predicate Uncounted(s: Schema, v: Val) {
    Regular(s) && Typed(s, v) && |Encode(s, v)| < U32_SIZE && Mute(COUNTING, s)
  }

  lemma {:induction false} UncountedGate(g: Gate, s: Schema, v: Val)
    requires Uncounted(s, v)
    ensures Typed(s, v) && Passes(g, Replay(s, v)) == g
  {
    MuteGate(g, s, v);
    hide Regular, Typed, Encode, Mute, Replay, Passes;
  }

  lemma {:induction false} QuietKids(g: Gate, s: Schema, vals: seq<Val>, j: nat)
    requires !s.IsLeaf() && !s.Bytes? && j <= |vals| && (s.Struct? || s.Table? ==> |vals| == |s.fields|)
    requires forall i | j <= i < |vals| :: Typed(Kid(s, i), vals[i])
    requires forall i | j <= i < |vals| :: Uncounted(Kid(s, i), vals[i])
    ensures Passes(g, ReplayKids(s, vals, j)) == g
    decreases |vals| - j
  {
    hide Uncounted, Passes, Replay, ReplayKids, Typed, Kid;
    if j < |vals| {
      KidGate(g, s, vals, j);
      UncountedGate(g, Kid(s, j), vals[j]);
      QuietKids(g, s, vals, j + 1);
    } else {
      NoKids(g, s, vals);
    }
  }

  lemma {:induction false} NoKids(g: Gate, s: Schema, vals: seq<Val>)
    requires !s.IsLeaf() && !s.Bytes? && (s.Struct? || s.Table? ==> |vals| == |s.fields|)
    ensures Passes(g, ReplayKids(s, vals, |vals|)) == g
  {
  }

  /** All children but one are not counted. */
  lemma {:induction false} OneKid(g: Gate, s: Schema, vals: seq<Val>, j: nat, n: nat)
    requires !s.IsLeaf() && !s.Bytes? && j <= n < |vals| && (s.Struct? || s.Table? ==> |vals| == |s.fields|)
    requires forall i | j <= i < |vals| :: Typed(Kid(s, i), vals[i])
    requires forall i | j <= i < |vals| && i != n :: Uncounted(Kid(s, i), vals[i])
    ensures Passes(g, ReplayKids(s, vals, j)) == Passes(g, Replay(Kid(s, n), vals[n]))
    decreases n - j
  {
    hide Uncounted, Passes, Replay, ReplayKids, Typed, Kid;
    KidGate(g, s, vals, j);
    if j == n {
      QuietKids(Passes(g, Replay(Kid(s, n), vals[n])), s, vals, j + 1);
    } else {
      UncountedGate(g, Kid(s, j), vals[j]);
      OneKid(g, s, vals, j + 1, n);
    }
  }

  lemma {:induction false} PassTwo(g: Gate, x: Event, y: Event)
    ensures Passes(g, [x, y]) == Pass1(Pass1(g, x), y)
  {
    assert [x, y][1..] == [y] && [y][1..] == [];
    assert Passes(g, [x, y]) == Passes(Pass1(g, x), [y]) == Passes(Pass1(Pass1(g, x), y), []);
    hide Pass1;
  }

  /** The callbacks of a node but those of its children. */
  lemma {:induction false} WithinGate(g: Gate, s: Schema, v: Val)
    requires Typed(s, v) && !s.IsLeaf() && !s.Bytes?
    ensures Passes(g, Replay(s, v)) == Passes(g, Within(s, v))
  {
    var c, e := Chunk(s.tag, Encode(s, v)), End(s.tag);
    assert Replay(s, v) == Within(s, v) + [c, e];
    PassesPlus(g, Within(s, v), [c, e]);
    PassTwo(Passes(g, Within(s, v)), c, e);
    hide Passes, Within, Replay, Encode, Typed;
  }

  lemma {:induction false} TableGate(g: Gate, s: Schema, v: Val)
    requires s.Table? && s.fields != [] && Typed(s, v) && v.Items? && |v.vals| == |s.fields|
    requires forall i | 0 <= i < |v.vals| :: Typed(Kid(s, i), v.vals[i])
    ensures Passes(g, Replay(s, v)) == Passes(g, ReplayKids(s, v.vals, 0))
  {
    var o, rest := Offsets(s.tag, Kept(s, v)), ReplayKids(s, v.vals, 0);
    WithinGate(g, s, v);
    assert Within(s, v) == (InitEv(s.fields[0]) + [o]) + rest by { hide InitEv, ReplayKids, Kept; }
    IndexGate(g, s.fields[0], o);
    hide InitEv, ReplayKids, Kept, Replay, Typed, Within, Passes;
    PassesPlus(g, InitEv(s.fields[0]) + [o], rest);
  }

  // ---------- Over a message ----------

  /** A channel of callbacks on no cell, header or path. */
  ghost predicate Elsewhere(K: Channel) {
    forall t: Tag | Watched(K, t) :: t == Inputs || t == InputCount || t == Witnesses
  }

  lemma {:induction false} CountingMute()
    ensures Elsewhere(COUNTING) && Mute(COUNTING, AnnotatedInput())
    ensures Mute(COUNTING, Array(Version, 4)) && Mute(COUNTING, CellDepVec(CellDeps)) && Mute(COUNTING, Byte32Vec(HeaderDeps))
    ensures Mute(COUNTING, OutputVec()) && Mute(COUNTING, BytesVec(OutputsData, OutputDatum))
    ensures Mute(COUNTING, Bip32(SignPath)) && Mute(COUNTING, Bip32(ChangePath)) && Mute(COUNTING, BytesVec(Witnesses, Witness))
  {
    assert Elsewhere(COUNTING) && !Watched(COUNTING, Witnesses) && Mute(COUNTING, Bytes(Witness));
    hide CellOutput, Script, SourceTx, CellDepVec, Byte32Vec, Bip32, AnnotatedInput, Elsewhere;
    MuteCells(COUNTING);
    MuteVecs(COUNTING);
    MuteInput(COUNTING);
  }

  lemma {:induction false} MuteInput(K: Channel)
    requires Elsewhere(K)
    ensures Mute(K, AnnotatedInput())
  {
    MuteCells(K);
    MuteSource(K);
    hide CellOutput, SourceTx;
    assert Mute(K, CellInput()) by { assert Mute(K, CellInput().fields[1]); }
    hide CellInput;
  }

  lemma {:induction false} MuteCells(K: Channel)
    requires Elsewhere(K)
    ensures Mute(K, CellOutput(Output, Quiet, LockArgsOut)) && Mute(K, CellOutput(Quiet, LockScript, LockArgs))
    ensures Mute(K, OutputVec())
  {
    hide Script, CellOutput;
    MuteScript(K, Quiet, LockHash, HashType, LockArgsOut);
    MuteScript(K, LockScript, LockHash, HashType, LockArgs);
    MuteScript(K, Quiet, TypeHash, HashType, TypeArgs);
    MuteCell(K, Output, Quiet, LockArgsOut);
    MuteCell(K, Quiet, LockScript, LockArgs);
  }

  lemma {:induction false} MuteVecs(K: Channel)
    requires Elsewhere(K)
    ensures Mute(K, Array(Version, 4)) && Mute(K, CellDepVec(CellDeps)) && Mute(K, Byte32Vec(HeaderDeps))
    ensures Mute(K, BytesVec(OutputsData, OutputDatum)) && Mute(K, Bip32(SignPath)) && Mute(K, Bip32(ChangePath))
  {
    assert Mute(K, OutPoint());
    assert Mute(K, CellDep());
    assert Mute(K, Array(PathComponent, 4)) && Mute(K, Bytes(OutputDatum));
    hide Watched;
  }

  lemma {:induction false} MuteScript(K: Channel, t: Tag, hash: Tag, kind: Tag, args: Tag)
    requires !Watched(K, t) && !Watched(K, hash) && !Watched(K, kind) && !Watched(K, args)
    ensures Mute(K, Script(t, hash, kind, args))
  {
    hide Watched;
  }

  lemma {:induction false} MuteCell(K: Channel, t: Tag, lock: Tag, args: Tag)
    requires Elsewhere(K) && !Watched(K, t) && Mute(K, Script(lock, LockHash, HashType, args))
    requires Mute(K, Script(Quiet, TypeHash, HashType, TypeArgs))
    ensures Mute(K, CellOutput(t, lock, args))
  {
    assert Mute(K, Array(Capacity, 8));
    hide Script;
  }

  lemma {:induction false} MuteSource(K: Channel)
    requires Elsewhere(K) && Mute(K, CellOutput(Quiet, LockScript, LockArgs))
    ensures Mute(K, SourceTx())
  {
    assert Mute(K, OutPoint()) && Mute(K, Array(Quiet, 4)) && Mute(K, Array(Quiet, 32));
    assert Mute(K, CellDep()) && Mute(K, PlainCell()) && Mute(K, Bytes(InputDatum));
    assert Mute(K, CellDepVec(Quiet)) && Mute(K, Byte32Vec(Quiet)) && Mute(K, BytesVec(SourceData, InputDatum));
    hide CellOutput, Watched, CellDep, PlainCell;
  }

  /** The inputs of a message, and the number of them that it announces. */
  ghost predicate Miscounted(v: Val)
    requires Typed(AnnotatedTx(), v)
  {
    S.TxShaped(v);
    v.vals[3].vals[3].vals != [] && |v.vals[3].vals[3].vals| != Unpack(v.vals[2].bytes)
  }

  lemma {:induction false} InputsGate(g: Gate, v: Val)
    requires Typed(InputVec(), v) && |Encode(InputVec(), v)| < U32_SIZE && Regular(InputVec())
    ensures v.Items? && Passes(g, Replay(InputVec(), v)) == g.(hard := g.hard || (v.vals != [] && |v.vals| != g.count))
  {
    var s := InputVec();
    WithinGate(g, s, v);
    LR.VecWithin(s, v);
    if v.vals != [] {
      D.InputsLength(v);
      assert Low32(|v.vals|) == |v.vals|;
      var enter, rest := EnterEv(s, Kept(s, v), |v.vals|), ReplayKids(s, v.vals, 0);
      EnterGate(g, AnnotatedInput(), |v.vals|);
      assert enter == InitEv(AnnotatedInput()) + [Length(Inputs, |v.vals|), Index(Inputs, 0)] by { hide InitEv, AnnotatedInput, Low32; }
      PassesPlus(g, enter, rest);
      forall i | 0 <= i < |v.vals| ensures Uncounted(Kid(s, i), v.vals[i]) {
        KidSmall(s, v, i);
        CountingMute();
        hide Encode, Typed, Regular, Mute, AnnotatedInput;
        assert Kid(s, i) == AnnotatedInput() && Regular(AnnotatedInput()) by { InputRegular(); }
      }
      hide Uncounted, Passes, ReplayKids, Typed, Encode, AnnotatedInput, EnterEv, Replay, Within, Regular;
      QuietKids(Passes(g, enter), s, v.vals, 0);
    }
  }

  lemma {:induction false} InputRegular()
    ensures InputVec().item == AnnotatedInput() && (Regular(InputVec()) ==> Regular(AnnotatedInput()))
  {
    hide AnnotatedInput;
  }

  lemma {:induction false} EnterGate(g: Gate, s: Schema, n: u32)
    ensures Passes(g, InitEv(s) + [Length(Inputs, n), Index(Inputs, 0)]) == g.(hard := g.hard || n != g.count)
  {
    InitGate(g, s);
    PassesPlus(g, InitEv(s), [Length(Inputs, n), Index(Inputs, 0)]);
    PassTwo(g, Length(Inputs, n), Index(Inputs, 0));
    hide InitEv, Passes;
  }

  lemma {:induction false} FieldQuiet(s: Schema, v: Val, i: nat)
    requires s.Table? && Regular(s) && Typed(s, v) && |Encode(s, v)| < U32_SIZE && i < |s.fields| && Mute(COUNTING, s.fields[i])
    ensures v.Items? && |v.vals| == |s.fields| && Uncounted(Kid(s, i), v.vals[i])
  {
    LR.Field(s, v, i);
    hide Encode, Typed, Mute;
  }

  lemma {:induction false} RawQuiet(v: Val, i: nat)
    requires Typed(AnnotatedRaw(), v) && |Encode(AnnotatedRaw(), v)| < U32_SIZE && Regular(AnnotatedRaw()) && i < 6 && i != 3
    ensures AnnotatedRaw().Table? && |AnnotatedRaw().fields| == 6 && v.Items? && |v.vals| == 6
    ensures Uncounted(Kid(AnnotatedRaw(), i), v.vals[i])
  {
    RawKids();
    hide AnnotatedRaw, Mute, Regular, Typed, Encode, Uncounted, InputVec, OutputVec, BytesVec, CellDepVec, Byte32Vec;
    CountingMute();
    FieldQuiet(AnnotatedRaw(), v, i);
  }

  lemma {:induction false} RawGate(g: Gate, v: Val)
    requires Typed(AnnotatedRaw(), v) && |Encode(AnnotatedRaw(), v)| < U32_SIZE && Regular(AnnotatedRaw())
    ensures v.Items? && |v.vals| == 6 && v.vals[3].Items?
    ensures Passes(g, Replay(AnnotatedRaw(), v)) == g.(hard := g.hard || (v.vals[3].vals != [] && |v.vals[3].vals| != g.count))
  {
    var s := AnnotatedRaw();
    RawKids();
    assert !s.IsLeaf() && !s.Bytes?;
    hide *;
    LR.Fields(s, v);
    LR.Field(s, v, 3);
    RawVecRegular();
    RawQuiets(v);
    InputsGate(g, v.vals[3]);
    TableGate(g, s, v);
    OneKid(g, s, v.vals, 0, 3);
  }

  lemma {:induction false} RawQuiets(v: Val)
    requires Typed(AnnotatedRaw(), v) && |Encode(AnnotatedRaw(), v)| < U32_SIZE && Regular(AnnotatedRaw())
    ensures AnnotatedRaw().Table? && |AnnotatedRaw().fields| == 6 && v.Items? && |v.vals| == 6
    ensures forall i | 0 <= i < 6 && i != 3 :: Uncounted(Kid(AnnotatedRaw(), i), v.vals[i])
  {
    RawKids();
    assert !AnnotatedRaw().IsLeaf() && !AnnotatedRaw().Bytes?;
    hide *;
    RawQuiet(v, 0);
    forall i | 0 <= i < 6 && i != 3 ensures Uncounted(Kid(AnnotatedRaw(), i), v.vals[i]) { RawQuiet(v, i); }
  }

  lemma {:induction false} RawKids()
    ensures AnnotatedRaw().Table? && |AnnotatedRaw().fields| == 6
    ensures AnnotatedRaw().fields == [Array(Version, 4), CellDepVec(CellDeps), Byte32Vec(HeaderDeps), InputVec(), OutputVec(),
                                      BytesVec(OutputsData, OutputDatum)]
  {
  }

  lemma {:induction false} RawVecRegular()
    ensures Regular(AnnotatedRaw()) ==> Regular(InputVec())
  {
    RawKids();
    if Regular(AnnotatedRaw()) { assert Regular(AnnotatedRaw().fields[3]); }
    hide InputVec, AnnotatedInput, OutputVec;
  }

  lemma {:induction false} TxKids()
    ensures AnnotatedTx().Table? && |AnnotatedTx().fields| == 5
    ensures AnnotatedTx().fields == [Bip32(SignPath), Bip32(ChangePath), Array(InputCount, 4), AnnotatedRaw(), BytesVec(Witnesses, Witness)]
  {
  }

  lemma {:induction false} CountGate(g: Gate, v: Val)
    requires Typed(Array(InputCount, 4), v)
    ensures Passes(g, Replay(Array(InputCount, 4), v)) == g.(count := Unpack(v.bytes))
  {
    assert Replay(Array(InputCount, 4), v) == [Leaf(InputCount, v.bytes)];
    assert [Leaf(InputCount, v.bytes)][1..] == [];
    hide Unpack;
  }

  lemma {:induction false} TxQuiet(v: Val, i: nat)
    requires Typed(AnnotatedTx(), v) && |Encode(AnnotatedTx(), v)| < U32_SIZE && (i == 0 || i == 1 || i == 4)
    ensures AnnotatedTx().Table? && |AnnotatedTx().fields| == 5 && v.Items? && |v.vals| == 5
    ensures Uncounted(Kid(AnnotatedTx(), i), v.vals[i])
  {
    TxKids();
    hide AnnotatedTx, AnnotatedRaw, Mute, Regular, Typed, Encode, Uncounted, Bip32, BytesVec;
    CountingMute();
    MessagesRegular();
    FieldQuiet(AnnotatedTx(), v, i);
  }

  lemma {:induction false} TxRegular()
    ensures Regular(AnnotatedRaw())
  {
    TxKids();
    MessagesRegular();
    assert Regular(AnnotatedTx().fields[3]);
    hide AnnotatedTx, AnnotatedRaw;
  }

  /** Over a whole message. */
  lemma {:induction false} TxGate(v: Val)
    requires Typed(AnnotatedTx(), v) && |Encode(AnnotatedTx(), v)| < U32_SIZE
    ensures Passes(Gate(0, false), Replay(AnnotatedTx(), v)).hard <==> Miscounted(v)
  {
    var s := AnnotatedTx();
    TxKids();
    MiscountedIs(v);
    CountBlob(v);
    hide *;
    TxRegular();
    LR.Fields(s, v);
    LR.Field(s, v, 2);
    LR.Field(s, v, 3);
    TxQuiet(v, 0);
    TxQuiet(v, 1);
    TxQuiet(v, 4);
    TxKidsGate(s, v, Gate(0, false));
  }

  lemma {:induction false} CountBlob(v: Val)
    requires Typed(AnnotatedTx(), v)
    ensures v.Items? && |v.vals| == 5 && v.vals[2].Blob? && |v.vals[2].bytes| == 4
    ensures v.vals[3].Items? && |v.vals[3].vals| == 6 && v.vals[3].vals[3].Items?
  {
    S.TxShaped(v);
    hide AnnotatedTx, AnnotatedRaw;
  }

  lemma {:induction false} MiscountedIs(v: Val)
    requires Typed(AnnotatedTx(), v)
    ensures S.TxShape(v)
    ensures Miscounted(v) <==> v.vals[3].vals[3].vals != [] && |v.vals[3].vals[3].vals| != Unpack(v.vals[2].bytes)
  {
    S.TxShaped(v);
    hide AnnotatedTx, S.TxShape, Unpack;
  }

  lemma {:induction false} TxKidsGate(s: Schema, v: Val, g: Gate)
    requires s == AnnotatedTx() && s.Table? && |s.fields| == 5 && Typed(s, v) && v.Items? && |v.vals| == 5 && !g.hard
    requires s.fields[2] == Array(InputCount, 4) && s.fields[3] == AnnotatedRaw()
    requires Kid(s, 2) == Array(InputCount, 4) && Kid(s, 3) == AnnotatedRaw()
    requires forall i | 0 <= i < 5 :: Typed(Kid(s, i), v.vals[i])
    requires Uncounted(Kid(s, 0), v.vals[0]) && Uncounted(Kid(s, 1), v.vals[1]) && Uncounted(Kid(s, 4), v.vals[4])
    requires |Encode(AnnotatedRaw(), v.vals[3])| < U32_SIZE && Regular(AnnotatedRaw()) && v.vals[2].Blob? && |v.vals[2].bytes| == 4
    requires v.vals[3].Items? && |v.vals[3].vals| == 6 && v.vals[3].vals[3].Items?
    ensures Passes(g, Replay(s, v)).hard <==> v.vals[3].vals[3].vals != [] && |v.vals[3].vals[3].vals| != Unpack(v.vals[2].bytes)
  {
    hide Uncounted, Passes, ReplayKids, Replay, Typed, Encode, AnnotatedTx, AnnotatedRaw, Regular, Kid;
    TableGate(g, s, v);
    KidGate(g, s, v.vals, 0);
    UncountedGate(g, Kid(s, 0), v.vals[0]);
    KidGate(g, s, v.vals, 1);
    UncountedGate(g, Kid(s, 1), v.vals[1]);
    KidGate(g, s, v.vals, 2);
    CountGate(g, v.vals[2]);
    var g2 := g.(count := Unpack(v.vals[2].bytes));
    OneKid(g2, s, v.vals, 3, 3);
    RawGate(g2, v.vals[3]);
  }

  // ---------- Sizes of data ----------

  /** A size that is not even that of the size. */
  predicate Slip(e: Event) {
    e.Size? && (e.tag == InputDatum || e.tag == OutputDatum) && e.size < 4
  }

  predicate Slips(ev: seq<Event>) {
    exists i | 0 <= i < |ev| :: Slip(ev[i])
  }

  lemma {:induction false} PaySlip(b: L.Book)
    ensures L.Pay(b).shown.hard == b.shown.hard
  {
    hide L.Credit, L.SamePlace, L.Add64;
  }

  lemma {:induction false} FinalSlip(b: L.Book)
    ensures L.Finalize(b).shown.hard == b.shown.hard
  {
    AmountsSlip(b);
    hide L.Amounts, L.Settled, L.Rejects, L.Balance, L.Sub64;
  }

  lemma {:induction false} AmountsSlip(b: L.Book)
    ensures L.Amounts(b).hard == b.shown.hard
  {
  }

  lemma {:induction false} EndSlip(k: L.Keys, b: L.Book, t: Tag)
    ensures L.OnEnd(k, b, t).shown.hard == b.shown.hard
  {
    FinalSlip(b);
    InputSlip(k, b);
    OutputSlip(k, b);
    DatumSlip(k, b);
    hide L.LockEnd, L.InputData, L.OutputEnd, L.OutputsEnd, L.OutputData, L.Finalize;
  }

  lemma {:induction false} InputSlip(k: L.Keys, b: L.Book)
    ensures L.LockEnd(b).shown.hard == b.shown.hard && L.InputData(k, b).shown.hard == b.shown.hard
  {
    DaoSlip(b);
    hide L.DaoInput, L.Add64, Add32;
  }

  lemma {:induction false} OutputSlip(k: L.Keys, b: L.Book)
    ensures L.OutputEnd(b).shown.hard == b.shown.hard && L.OutputsEnd(k, b).shown.hard == b.shown.hard
  {
    PaySlip(b);
    hide L.Pay, L.Add64, L.Zero, L.ShiftBit;
  }

  lemma {:induction false} DatumSlip(k: L.Keys, b: L.Book)
    ensures L.OutputData(k, b).shown.hard == b.shown.hard
  {
  }

  lemma {:induction false} DaoSlip(b: L.Book)
    ensures L.DaoInput(b).shown.hard == b.shown.hard
  {
    hide L.Add64;
  }

  lemma {:induction false} DataSlip(k: L.Keys, b: L.Book, t: Tag, bs: seq<u8>)
    ensures L.OnLeaf(k, b, t, bs).shown.hard == b.shown.hard && L.OnBody(k, b, t, bs).shown.hard == b.shown.hard
  {
    LeafSlip(k, b, t, bs);
    hide L.OnLeaf, L.Splice, L.Differs, L.HasNonzero, L.Expected;
  }

  lemma {:induction false} LeafSlip(k: L.Keys, b: L.Book, t: Tag, bs: seq<u8>)
    ensures L.OnLeaf(k, b, t, bs).shown.hard == b.shown.hard
  {
    hide L.DefaultLock, L.MultisigLock, L.DaoType, L.Splice, L.Differs, L.HasNonzero, Unpack, L.Unpack64, L.Expected;
  }

  lemma {:induction false} ApplySlip(k: L.Keys, b: L.Book, e: Event)
    ensures L.Apply(k, b, e).shown.hard == (b.shown.hard || Slip(e))
  {
    match e {
      case End(t) => EndSlip(k, b, t);
      case Leaf(t, bs) => DataSlip(k, b, t, bs);
      case Body(t, bs) => DataSlip(k, b, t, bs);
      case _ =>
    }
    hide L.OnLeaf, L.OnBody, L.OnEnd, L.Zero;
  }

  lemma {:induction false} SlipsFirst(ev: seq<Event>)
    requires ev != []
    ensures Slips(ev) <==> Slip(ev[0]) || Slips(ev[1..])
  {
    hide Slip;
    if Slips(ev) {
      var i :| 0 <= i < |ev| && Slip(ev[i]);
      if i > 0 { assert ev[1..][i - 1] == ev[i]; }
    }
    if Slips(ev[1..]) {
      var i :| 0 <= i < |ev[1..]| && Slip(ev[1..][i]);
      assert ev[i + 1] == ev[1..][i];
    }
  }

  lemma {:induction false} SlipsPlus(a: seq<Event>, b: seq<Event>)
    ensures Slips(a + b) <==> Slips(a) || Slips(b)
    decreases |a|
  {
    if a == [] {
      assert a + b == b;
    } else {
      SlipsFirst(a);
      SlipsFirst(a + b);
      assert (a + b)[1..] == a[1..] + b;
      hide Slips, Slip;
      SlipsPlus(a[1..], b);
    }
  }

  lemma {:induction false} RunSlip(k: L.Keys, b: L.Book, ev: seq<Event>)
    ensures L.Run(k, b, ev).shown.hard == (b.shown.hard || Slips(ev))
    decreases |ev|
  {
    if ev != [] {
      ApplySlip(k, b, ev[0]);
      SlipsFirst(ev);
      hide L.Apply, Slips, Slip;
      RunSlip(k, L.Apply(k, b, ev[0]), ev[1..]);
    }
  }

  lemma {:induction false} ViewSlip1(e: Event)
    ensures Slips(View1(L.LEDGER, e)) <==> Slip(e)
  {
    if Slip(e) { assert View1(L.LEDGER, e)[0] == e; }
  }

  lemma {:induction false} ViewSlip(ev: seq<Event>)
    ensures Slips(View(L.LEDGER, ev)) <==> Slips(ev)
    decreases |ev|
  {
    if ev != [] {
      ViewSlip1(ev[0]);
      SlipsFirst(ev);
      SlipsPlus(View1(L.LEDGER, ev[0]), View(L.LEDGER, ev[1..]));
      hide Slips, Slip, View1;
      ViewSlip(ev[1..]);
    }
  }

  lemma {:induction false} InitSlip(s: Schema)
    ensures !Slips(InitEv(s))
    decreases s
  {
    if s.Struct? {
      if s.fields != [] { InitSlip(s.fields[0]); SlipsPlus([Start(s.tag)], InitEv(s.fields[0])); }
    } else if s.Option? {
      InitSlip(s.item);
      SlipsPlus([Start(s.tag)], InitEv(s.item));
    }
  }

  lemma {:induction false} BetweenSlip(s: Schema, j: nat)
    ensures !Slips(BetweenEv(s, j))
  {
    match s {
      case Struct(_, fields) => if j + 1 < |fields| { InitSlip(fields[j + 1]); }
      case Table(_, fields) => if j + 1 < |fields| { InitSlip(fields[j + 1]); }
      case FixVec(t, item, _) => InitSlip(item); SlipsPlus(InitEv(item), [Index(t, j + 1)]);
      case DynVec(t, item) => InitSlip(item); SlipsPlus(InitEv(item), [Index(t, j + 1)]);
      case _ =>
    }
    hide InitEv;
  }

  /** No vector of data items is of fixed size. */
  predicate NoFixedData(s: Schema) {
    match s
    case Struct(_, fields) => forall i | 0 <= i < |fields| :: NoFixedData(fields[i])
    case Table(_, fields) => forall i | 0 <= i < |fields| :: NoFixedData(fields[i])
    case FixVec(t, item, _) => t != InputDatum && t != OutputDatum && NoFixedData(item)
    case DynVec(_, item) => NoFixedData(item)
    case Option(_, item) => NoFixedData(item)
    case _ => true
  }

  lemma {:induction false} EnterSlip(s: Schema, nums: seq<u32>, count: nat)
    requires NoFixedData(s) && !s.Bytes?
    ensures !Slips(EnterEv(s, nums, count))
  {
    match s {
      case Table(t, fields) =>
        if fields != [] { InitSlip(fields[0]); SlipsPlus(InitEv(fields[0]), [Offsets(t, nums)]); }
      case FixVec(t, item, _) =>
        var e := Size(t, Low32(Times(count, FixedSize(item)) + 4));
        InitSlip(item);
        SlipsPlus([e], InitEv(item));
        SlipsPlus([e] + InitEv(item), [Index(t, 0)]);
      case DynVec(t, item) =>
        InitSlip(item);
        SlipsPlus(InitEv(item), [Length(t, Low32(count)), Index(t, 0)]);
      case _ =>
    }
    hide InitEv, Low32, Times;
  }

  lemma {:induction false} KidsSlip(s: Schema, vals: seq<Val>, j: nat)
    requires !s.IsLeaf() && !s.Bytes? && j <= |vals| && (s.Struct? || s.Table? ==> |vals| == |s.fields|) && NoFixedData(s)
    requires forall i | j <= i < |vals| :: Typed(Kid(s, i), vals[i])
    requires forall i | j <= i < |vals| :: |Encode(Kid(s, i), vals[i])| < U32_SIZE
    ensures !Slips(ReplayKids(s, vals, j))
    decreases s, 0, |vals| - j
  {
    hide Slips, Encode, BetweenEv;
    if j < |vals| {
      R.KidsStep(s, vals, j);
      assert NoFixedData(Kid(s, j));
      ReplaySlip(Kid(s, j), vals[j]);
      BetweenSlip(s, j);
      SlipsPlus(Replay(Kid(s, j), vals[j]), BetweenEv(s, j));
      SlipsPlus(Replay(Kid(s, j), vals[j]) + BetweenEv(s, j), ReplayKids(s, vals, j + 1));
      KidsSlip(s, vals, j + 1);
    } else {
      NothingSlips();
    }
  }

  lemma {:induction false} NothingSlips()
    ensures !Slips([])
  {
  }

  /** The sizes reported of a value are sizes. */
  lemma {:induction false} ReplaySlip(s: Schema, v: Val)
    requires Typed(s, v) && |Encode(s, v)| < U32_SIZE && NoFixedData(s)
    ensures !Slips(Replay(s, v))
    decreases s, 1
  {
    if !s.IsLeaf() && !s.Bytes? {
      var c, e := Chunk(s.tag, Encode(s, v)), End(s.tag);
      assert Replay(s, v) == Within(s, v) + [c, e];
      SlipsPlus(Within(s, v), [c, e]);
      if !Hollow(s, v) {
        forall i | 0 <= i < |KidVals(s, v)| ensures Typed(Kid(s, i), KidVals(s, v)[i]) && |Encode(Kid(s, i), KidVals(s, v)[i])| < U32_SIZE { KidSmall(s, v, i); }
        EnterSlip(s, Kept(s, v), |KidVals(s, v)|);
        KidsSlip(s, KidVals(s, v), 0);
        SlipsPlus(EnterEv(s, Kept(s, v), |KidVals(s, v)|), ReplayKids(s, KidVals(s, v), 0));
      }
    }
  }

  lemma {:induction false} ScriptData(t: Tag, hash: Tag, kind: Tag, args: Tag)
    ensures NoFixedData(Script(t, hash, kind, args))
  {
  }

  lemma {:induction false} CellData(t: Tag, lock: Tag, args: Tag)
    ensures NoFixedData(CellOutput(t, lock, args))
  {
    ScriptData(lock, LockHash, HashType, args);
    ScriptData(Quiet, TypeHash, HashType, TypeArgs);
    hide Script;
  }

  lemma {:induction false} PlainData()
    ensures NoFixedData(OutPoint()) && NoFixedData(PlainCell()) && NoFixedData(CellDep()) && NoFixedData(CellInput())
  {
    assert NoFixedData(OutPoint());
    assert NoFixedData(CellInput().fields[1]);
  }

  lemma {:induction false} InputData()
    ensures NoFixedData(AnnotatedInput())
  {
    CellData(Quiet, LockScript, LockArgs);
    PlainData();
    assert NoFixedData(SourceTx()) by { hide CellOutput, PlainCell, CellDep, CellInput; }
    hide SourceTx, CellInput;
  }

  lemma {:induction false} RawData()
    ensures NoFixedData(AnnotatedRaw())
  {
    InputData();
    PlainData();
    CellData(Output, Quiet, LockArgsOut);
    hide AnnotatedInput, CellOutput, CellDep;
  }

  lemma {:induction false} MessageData()
    ensures NoFixedData(AnnotatedTx())
  {
    RawData();
    hide AnnotatedRaw;
  }

  // ---------- Any message ----------

  lemma {:induction false} FeedSplit(s: Schema, size: u32, st: St, a: seq<seq<u8>>, b: seq<seq<u8>>)
    ensures var f := Feed(s, size, st, a);
            Feed(s, size, st, a + b) == if f.rv == INCOMPLETE then Then(f.ev, f.used, Feed(s, size, f.st, b)) else f
    decreases |a|
  {
    hide Go;
    if a == [] {
      var r := Feed(s, size, st, b);
      assert [] + b == b && [] + r.ev == r.ev;
    } else {
      var r := Go(s, size, st, a[0]);
      assert (a + b)[1..] == a[1..] + b;
      if r.rv == INCOMPLETE {
        FeedSplit(s, size, r.st, a[1..], b);
        var f := Feed(s, size, r.st, a[1..]);
        ThenThen(r.ev, r.used, f.ev, f.used, Feed(s, size, f.st, b));
      }
    }
  }

  /** Logs that say the same as the reader's are refused together. */
  lemma {:induction false} SameRefusal(H: Hash, k: L.Keys, x: seq<Event>, ev: seq<Event>)
    requires Same(AnnotatedTx(), x, ev)
    ensures var d := RunBoth(H, k, FreshDesk(), ev);
            d.digest.hardReject == Passes(Gate(0, false), x).hard && d.book.shown.hard == Slips(x)
  {
    L.NoChunks(COUNTING, AnnotatedTx());
    L.NoChunks(L.LEDGER, AnnotatedTx());
    assert View(COUNTING, x) == View(COUNTING, ev) && View(L.LEDGER, x) == View(L.LEDGER, ev);
    FreshGate();
    BothGate(H, k, FreshDesk(), ev);
    RefusalBook(H, k, ev);
    hide View, AnnotatedTx, Anti, RunBoth, Passes, Slips, FreshDesk;
    ViewGate(Gate(0, false), x);
    ViewGate(Gate(0, false), ev);
    ViewSlip(x);
    ViewSlip(ev);
  }

  lemma {:induction false} FreshGate()
    ensures GateOf(FreshDesk().digest) == Gate(0, false) && !FreshDesk().book.shown.hard
  {
  }

  lemma {:induction false} RefusalBook(H: Hash, k: L.Keys, ev: seq<Event>)
    ensures RunBoth(H, k, FreshDesk(), ev).book.shown.hard == Slips(ev)
  {
    FreshGate();
    Apart(H, k, FreshDesk(), ev);
    RunSlip(k, FreshDesk().book, ev);
    hide RunBoth, L.Run, Slips, FreshDesk, Run;
  }

  /** The whole log of a message. */
  lemma {:induction false} WholeRefusal(v: Val, chunks: seq<seq<u8>>)
    requires Typed(AnnotatedTx(), v) && |Encode(AnnotatedTx(), v)| < U32_SIZE && chunks != [] && Join(chunks) == Encode(AnnotatedTx(), v)
    ensures var r := Feed(AnnotatedTx(), NUM_MAX, Init(AnnotatedTx()), chunks);
            r.rv == COMPLETE && (Passes(Gate(0, false), r.ev).hard <==> Miscounted(v)) && !Slips(r.ev)
  {
    var r := Feed(AnnotatedTx(), NUM_MAX, Init(AnnotatedTx()), chunks);
    MessagesRegular();
    MessageData();
    FeedTrip(AnnotatedTx(), NUM_MAX, v, chunks);
    L.NoChunks(COUNTING, AnnotatedTx());
    L.NoChunks(L.LEDGER, AnnotatedTx());
    assert View(COUNTING, r.ev) == View(COUNTING, Replay(AnnotatedTx(), v)) && View(L.LEDGER, r.ev) == View(L.LEDGER, Replay(AnnotatedTx(), v));
    hide *;
    TxGate(v);
    ReplaySlip(AnnotatedTx(), v);
    ViewGate(Gate(0, false), r.ev);
    ViewGate(Gate(0, false), Replay(AnnotatedTx(), v));
    ViewSlip(r.ev);
    ViewSlip(Replay(AnnotatedTx(), v));
  }

  /** However a message arrives, it is refused outright exactly if it has inputs, and not as many as it
      announces. */
  lemma {:induction false} RefusedExactly(H: Hash, k: L.Keys, v: Val, chunks: seq<seq<u8>>, ev: seq<Event>)
    requires Typed(AnnotatedTx(), v) && |Encode(AnnotatedTx(), v)| < U32_SIZE && chunks != [] && Join(chunks) == Encode(AnnotatedTx(), v)
    requires Same(AnnotatedTx(), Feed(AnnotatedTx(), NUM_MAX, Init(AnnotatedTx()), chunks).ev, ev)
    ensures var d := RunBoth(H, k, FreshDesk(), ev); (d.digest.hardReject <==> Miscounted(v)) && !d.book.shown.hard
  {
    hide *;
    WholeRefusal(v, chunks);
    SameRefusal(H, k, Feed(AnnotatedTx(), NUM_MAX, Init(AnnotatedTx()), chunks).ev, ev);
  }

  /** Nor was it refused before, unless it is in the end. */
  lemma {:induction false} NeverRefused(H: Hash, k: L.Keys, v: Val, chunks: seq<seq<u8>>, n: nat, ev: seq<Event>)
    requires Typed(AnnotatedTx(), v) && |Encode(AnnotatedTx(), v)| < U32_SIZE && chunks != [] && Join(chunks) == Encode(AnnotatedTx(), v)
    requires n <= |chunks| && !Miscounted(v)
    requires Same(AnnotatedTx(), Feed(AnnotatedTx(), NUM_MAX, Init(AnnotatedTx()), chunks[..n]).ev, ev)
    ensures var d := RunBoth(H, k, FreshDesk(), ev); !d.digest.hardReject && !d.book.shown.hard
  {
    hide *;
    var st := Init(AnnotatedTx());
    var f := Feed(AnnotatedTx(), NUM_MAX, st, chunks[..n]);
    assert chunks[..n] + chunks[n..] == chunks;
    FeedSplit(AnnotatedTx(), NUM_MAX, st, chunks[..n], chunks[n..]);
    WholeRefusal(v, chunks);
    SameRefusal(H, k, f.ev, ev);
    if f.rv == INCOMPLETE { LaterRefusal(f, Feed(AnnotatedTx(), NUM_MAX, f.st, chunks[n..])); }
  }

  lemma {:induction false} LaterRefusal(f: Res, r: Res)
    ensures Passes(Gate(0, false), f.ev).hard ==> Passes(Gate(0, false), Then(f.ev, f.used, r).ev).hard
    ensures Slips(f.ev) ==> Slips(Then(f.ev, f.used, r).ev)
  {
    PassesPlus(Gate(0, false), f.ev, r.ev);
    HardStays(Passes(Gate(0, false), f.ev), r.ev);
    SlipsPlus(f.ev, r.ev);
    hide Passes, Slips;
  }
}
