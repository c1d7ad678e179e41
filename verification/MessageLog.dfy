/** The log of a whole message: all that comes before its witnesses, and the witnesses. */
module MessageLog {
  import opened Words
  import opened Schema
  import opened Automaton
  import opened Views
  import opened Encoding
  import opened RoundTrip
  import opened Transaction
  import opened Shapes
  import R = Rewrite
  import W = WitnessDigest
  import F = Refusals
  import LR = LedgerRuns

  // ---------- Before the witnesses ----------

  const WITNESSING := Channel({}, {Witnesses}, {})

  /** No callback on a witness index. */
  predicate Before(ev: seq<Event>) {
    View(WITNESSING, ev) == []
  }

  lemma {:induction false} BeforePlus(a: seq<Event>, b: seq<Event>)
    ensures Before(a + b) <==> Before(a) && Before(b)
  {
    ViewPlus(WITNESSING, a, b);
    hide View;
  }

  lemma {:induction false} BeforeStep(ev: seq<Event>)
    requires ev != [] && Before(ev)
    ensures !(ev[0].Index? && ev[0].tag == Witnesses) && Before(ev[1..])
  {
    assert View1(WITNESSING, ev[0]) == [] && View(WITNESSING, ev[1..]) == [];
  }

  ghost predicate Early(s: Schema, v: Val) {
    Regular(s) && Typed(s, v) && |Encode(s, v)| < U32_SIZE && Mute(WITNESSING, s)
  }

  lemma {:induction false} EarlyBefore(s: Schema, v: Val)
    requires Early(s, v)
    ensures Typed(s, v) && Before(Replay(s, v))
  {
    ReplayFrom(s, v);
    assert View(WITNESSING, Replay(s, v)) == [] by { hide Replay, Regular, Encode; }
  }

  lemma {:induction false} InitBefore(s: Schema)
    ensures Before(InitEv(s))
    decreases s
  {
    if s.Struct? {
      var rest := if s.fields == [] then [] else InitEv(s.fields[0]);
      assert ([Start(s.tag)] + rest)[1..] == rest;
      if s.fields != [] { InitBefore(s.fields[0]); }
    } else if s.Option? {
      assert ([Start(s.tag)] + InitEv(s.item))[1..] == InitEv(s.item);
      InitBefore(s.item);
    } else if !s.IsLeaf() {
      assert [Start(s.tag)][1..] == [];
    }
  }

  /** The fields of a table, from the `j`-th on, all but the last of which are before the witnesses. */
  lemma {:induction false} FieldsLog(s: Schema, vals: seq<Val>, j: nat) returns (pre: seq<Event>)
    requires s.Table? && j < |vals| == |s.fields| && forall i | j <= i < |vals| :: Typed(Kid(s, i), vals[i])
    requires forall i | j <= i < |vals| - 1 :: Early(Kid(s, i), vals[i])
    ensures Before(pre) && ReplayKids(s, vals, j) == pre + Replay(Kid(s, |vals| - 1), vals[|vals| - 1])
    decreases |vals| - j
  {
    hide Early, Replay, ReplayKids, Typed, Kid, Before;
    OneField(s, vals, j);
    if j < |vals| - 1 {
      var a, b := Replay(Kid(s, j), vals[j]), BetweenEv(s, j);
      var rest := FieldsLog(s, vals, j + 1);
      EarlyBefore(Kid(s, j), vals[j]);
      hide BetweenEv;
      BeforePlus(a, b);
      BeforePlus(a + b, rest);
      pre := a + b + rest;
    } else {
      assert Before([]) by { EmptyBefore(); }
      pre := [];
    }
  }

  lemma {:induction false} EmptyBefore()
    ensures Before([])
  {
  }

  lemma {:induction false} OneField(s: Schema, vals: seq<Val>, j: nat)
    requires s.Table? && j < |vals| == |s.fields| && forall i | j <= i < |vals| :: Typed(Kid(s, i), vals[i])
    ensures ReplayKids(s, vals, j) == Replay(Kid(s, j), vals[j]) + BetweenEv(s, j) + ReplayKids(s, vals, j + 1) && Before(BetweenEv(s, j))
    ensures j == |vals| - 1 ==> BetweenEv(s, j) == [] && ReplayKids(s, vals, j + 1) == []
  {
    R.KidsStep(s, vals, j);
    if j + 1 < |s.fields| { InitBefore(s.fields[j + 1]); }
    hide InitEv;
  }

  lemma {:induction false} EarlyMute()
    ensures Mute(WITNESSING, Bip32(SignPath)) && Mute(WITNESSING, Bip32(ChangePath)) && Mute(WITNESSING, Array(InputCount, 4))
    ensures Mute(WITNESSING, AnnotatedRaw())
  {
    assert F.Elsewhere(WITNESSING) && !Watched(WITNESSING, Inputs) && !Watched(WITNESSING, RawTx);
    assert Mute(WITNESSING, Array(InputCount, 4));
    hide *;
    F.MuteCells(WITNESSING);
    F.MuteVecs(WITNESSING);
    F.MuteInput(WITNESSING);
    MuteInputs(WITNESSING);
    MuteRaw(WITNESSING);
  }

  lemma {:induction false} MuteInputs(K: Channel)
    requires Mute(K, AnnotatedInput()) && !Watched(K, Inputs)
    ensures Mute(K, InputVec())
  {
    hide AnnotatedInput, Watched;
  }

  lemma {:induction false} MuteRaw(K: Channel)
    requires !Watched(K, RawTx) && Mute(K, Array(Version, 4)) && Mute(K, CellDepVec(CellDeps)) && Mute(K, Byte32Vec(HeaderDeps))
    requires Mute(K, InputVec()) && Mute(K, OutputVec()) && Mute(K, BytesVec(OutputsData, OutputDatum))
    ensures Mute(K, AnnotatedRaw())
  {
    F.RawKids();
    assert AnnotatedRaw().tag == RawTx;
    hide AnnotatedRaw, CellDepVec, Byte32Vec, InputVec, OutputVec, BytesVec, Watched;
    forall i | 0 <= i < 6 ensures Mute(K, AnnotatedRaw().fields[i]) {
    }
  }

  lemma {:induction false} EarlyField(v: Val, i: nat)
    requires Typed(AnnotatedTx(), v) && |Encode(AnnotatedTx(), v)| < U32_SIZE && i < 4
    ensures AnnotatedTx().Table? && |AnnotatedTx().fields| == 5 && v.Items? && |v.vals| == 5
    ensures Early(Kid(AnnotatedTx(), i), v.vals[i])
  {
    var s := AnnotatedTx();
    F.TxKids();
    MessagesRegular();
    EarlyMute();
    assert Regular(s.fields[i]) && Mute(WITNESSING, s.fields[i]) by { hide AnnotatedRaw, Bip32, Mute; }
    hide AnnotatedTx, AnnotatedRaw, Mute, Regular, Typed, Encode, Bip32, BytesVec;
    LR.Field(s, v, i);
  }

  lemma {:induction false} OffsetsBefore(t: Tag, ws: seq<u32>)
    requires t != Witnesses
    ensures Before([Offsets(t, ws)])
  {
    var o := Offsets(t, ws);
    assert View1(WITNESSING, o) == [] && [o][1..] == [];
    assert View(WITNESSING, []) == [];
  }

  /** Around the fields of a table. */
  lemma {:induction false} TableLog(s: Schema, v: Val) returns (pre: seq<Event>)
    requires s.Table? && s.fields != [] && s.tag != Witnesses && Typed(s, v) && v.Items? && |v.vals| == |s.fields|
    requires forall i | 0 <= i < |v.vals| :: Typed(Kid(s, i), v.vals[i])
    ensures Before(pre) && Replay(s, v) == pre + ReplayKids(s, v.vals, 0) + [Chunk(s.tag, Encode(s, v)), End(s.tag)]
  {
    var o := Offsets(s.tag, Kept(s, v));
    pre := InitEv(s.fields[0]) + [o];
    assert Within(s, v) == pre + ReplayKids(s, v.vals, 0) by { hide InitEv, ReplayKids, Kept; }
    InitBefore(s.fields[0]);
    OffsetsBefore(s.tag, Kept(s, v));
    BeforePlus(InitEv(s.fields[0]), [o]);
    hide InitEv, ReplayKids, Kept, Within, Before;
  }

  /** A message is what comes before the witnesses, the witnesses, and its end. */
  lemma {:induction false} TxLog(v: Val) returns (pre: seq<Event>)
    requires Typed(AnnotatedTx(), v) && |Encode(AnnotatedTx(), v)| < U32_SIZE
    ensures v.Items? && |v.vals| == 5 && Typed(W.WitnessVec(), v.vals[4])
    ensures Before(pre)
         && Replay(AnnotatedTx(), v) == pre + Replay(W.WitnessVec(), v.vals[4]) + [Chunk(Quiet, Encode(AnnotatedTx(), v)), End(Quiet)]
  {
    var s := AnnotatedTx();
    F.TxKids();
    assert s.tag == Quiet && s.tag != Witnesses && s.fields != [] && BytesVec(Witnesses, Witness) == W.WitnessVec();
    hide *;
    LR.Fields(s, v);
    LR.Field(s, v, 4);
    forall i | 0 <= i < 4 ensures Early(Kid(s, i), v.vals[i]) { EarlyField(v, i); }
    var a := TableLog(s, v);
    var b := FieldsLog(s, v.vals, 0);
    BeforePlus(a, b);
    pre := a + b;
    Regrouped(a, b, Replay(Kid(s, 4), v.vals[4]), [Chunk(Quiet, Encode(s, v)), End(Quiet)]);
  }

  lemma {:induction false} Regrouped(a: seq<Event>, b: seq<Event>, c: seq<Event>, d: seq<Event>)
    ensures a + (b + c) + d == a + b + c + d
  {
  }

  // ---------- The witnesses ----------

  predicate Blobs(vals: seq<Val>) {
    forall i | 0 <= i < |vals| :: vals[i].Blob? && Typed(Bytes(Witness), vals[i])
  }

  lemma {:induction false} WitnessesAre(v: Val)
    requires Typed(W.WitnessVec(), v)
    ensures W.WitnessVec().DynVec? && W.WitnessVec().tag == Witnesses && v.Items? && Blobs(v.vals)
  {
    assert forall i | 0 <= i < |v.vals| :: Typed(W.WitnessVec().item, v.vals[i]);
  }

  lemma {:induction false} BlobsTyped(vals: seq<Val>)
    requires Blobs(vals)
    ensures !W.WitnessVec().IsLeaf() && !W.WitnessVec().Bytes? && !W.WitnessVec().Struct? && !W.WitnessVec().Table?
    ensures forall i | 0 <= i < |vals| :: Typed(Kid(W.WitnessVec(), i), vals[i]) && vals[i].Blob?
  {
    assert forall i | 0 <= i < |vals| :: Kid(W.WitnessVec(), i) == Bytes(Witness);
  }

  /** The callbacks on one witness. */
  function WitnessLog(bs: seq<u8>): seq<Event> {
    [Size(Witness, Low32(|bs| + 4))] + (if bs == [] then [] else [Body(Witness, bs)]) + [End(Witness)]
  }

  /** The witnesses from the `k`-th on. */
  lemma {:induction false} WitnessesStep(vals: seq<Val>, k: nat)
    requires k <= |vals| && Blobs(vals)
    ensures forall i | 0 <= i < |vals| :: Typed(Kid(W.WitnessVec(), i), vals[i]) && vals[i].Blob?
    ensures ReplayKids(W.WitnessVec(), vals, k)
         == if k == |vals| then []
            else WitnessLog(vals[k].bytes) + [Start(Witness), Index(Witnesses, k + 1)] + ReplayKids(W.WitnessVec(), vals, k + 1)
  {
    BlobsTyped(vals);
    if k < |vals| {
      var s := W.WitnessVec();
      OneWitness(vals[k], k);
      hide *;
      R.KidsStep(s, vals, k);
    }
  }

  lemma {:induction false} OneWitness(v: Val, k: nat)
    requires v.Blob? && Typed(Kid(W.WitnessVec(), k), v)
    ensures Replay(Kid(W.WitnessVec(), k), v) == WitnessLog(v.bytes) && BetweenEv(W.WitnessVec(), k) == [Start(Witness), Index(Witnesses, k + 1)]
  {
    assert v == Blob(v.bytes) && Kid(W.WitnessVec(), k) == Bytes(Witness);
    hide Low32;
  }

  /** The end of a vector. */
  function EndLog(s: Schema, bs: seq<u8>): seq<Event> {
    [Chunk(s.tag, bs), End(s.tag)]
  }

  /** No witness at all. */
  lemma {:induction false} NoWitnessLog(v: Val)
    requires Typed(W.WitnessVec(), v) && v == Items([])
    ensures Replay(W.WitnessVec(), v) == EndLog(W.WitnessVec(), Encode(W.WitnessVec(), v))
  {
    WitnessesAre(v);
    VecReplay(W.WitnessVec(), v);
    hide Replay, Encode, Typed, W.WitnessVec;
  }

  /** The first witness, and what is behind it. */
  lemma {:induction false} WitnessesLog(v: Val)
    requires Typed(W.WitnessVec(), v) && v.Items? && v.vals != []
    ensures Blobs(v.vals) && forall i | 0 <= i < |v.vals| :: Typed(Kid(W.WitnessVec(), i), v.vals[i]) && v.vals[i].Blob?
    ensures Replay(W.WitnessVec(), v)
         == [Start(Witness), Length(Witnesses, Low32(|v.vals|)), Index(Witnesses, 0)]
            + (WitnessLog(v.vals[0].bytes) + [Start(Witness), Index(Witnesses, 1)] + ReplayKids(W.WitnessVec(), v.vals, 1))
            + EndLog(W.WitnessVec(), Encode(W.WitnessVec(), v))
  {
    WitnessesAre(v);
    assert 0 < |v.vals|;
    hide *;
    BlobsTyped(v.vals);
    EnterLog(|v.vals|, Kept(W.WitnessVec(), v));
    VecReplay(W.WitnessVec(), v);
    WitnessesStep(v.vals, 0);
  }

  lemma {:induction false} VecReplay(s: Schema, v: Val)
    requires s.DynVec? && Typed(s, v)
    ensures v.Items? && forall i | 0 <= i < |v.vals| :: Typed(Kid(s, i), v.vals[i])
    ensures Replay(s, v) == (if v.vals == [] then [] else EnterEv(s, Kept(s, v), |v.vals|) + ReplayKids(s, v.vals, 0)) + EndLog(s, Encode(s, v))
  {
    LR.VecWithin(s, v);
    hide ReplayKids, EnterEv, Kept, Encode, Within;
  }

  lemma {:induction false} EnterLog(n: nat, nums: seq<u32>)
    ensures EnterEv(W.WitnessVec(), nums, n) == [Start(Witness), Length(Witnesses, Low32(n)), Index(Witnesses, 0)]
  {
    hide Low32;
  }
}
