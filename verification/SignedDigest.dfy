/** The digest that is signed, for a whole annotated transaction cut into any chunks. */
module SignedDigest {
  import opened Words
  import opened Schema
  import opened Automaton
  import opened Views
  import opened Lifting
  import opened Encoding
  import opened RoundTrip
  import opened Chunking
  import opened Transaction
  import opened Shapes
  import opened Hashing
  import opened Rewrite
  import opened RawDigest
  import opened WitnessDigest

  // ---------- The message ----------

  predicate TxShape(v: Val) {
    && v.Items? && |v.vals| == 5
    && Typed(Bip32(SignPath), v.vals[0]) && Typed(Bip32(ChangePath), v.vals[1]) && Typed(Array(InputCount, 4), v.vals[2])
    && Typed(AnnotatedRaw(), v.vals[3]) && RawShape(v.vals[3]) && Typed(WitnessVec(), v.vals[4])
  }

  lemma {:induction false} TxShaped(v: Val)
    requires Typed(AnnotatedTx(), v)
    ensures TxShape(v)
  {
    var f := AnnotatedTx().fields;
    assert Typed(f[0], v.vals[0]) && Typed(f[1], v.vals[1]) && Typed(f[2], v.vals[2]) && Typed(f[3], v.vals[3]) && Typed(f[4], v.vals[4]);
    RawShaped(v.vals[3]);
  }

  /** A message the theorem is about: an annotated transaction below 4 GiB, with as many inputs, at
      least one, as it announces, and with a first witness that stands for the arguments `a`. */
  ghost predicate Signable(v: Val, a: Val) {
    && Typed(AnnotatedTx(), v) && |Encode(AnnotatedTx(), v)| < U32_SIZE
    && (TxShaped(v);
    && v.vals[3].vals[3].vals != [] && |v.vals[3].vals[3].vals| == Unpack(v.vals[2].bytes)
    && v.vals[4].vals != [] && v.vals[4].vals[0].Blob? && StandsFor(v.vals[4].vals[0].bytes, a))
  }

  lemma {:induction false} TxFields()
    ensures AnnotatedTx().Table? && AnnotatedTx().tag == Quiet
    ensures AnnotatedTx().fields == [Bip32(SignPath), Bip32(ChangePath), Array(InputCount, 4), AnnotatedRaw(), WitnessVec()]
  {
  }

  lemma {:induction false} FieldFits(v: Val, k: nat)
    requires Typed(AnnotatedTx(), v) && TxShape(v) && k < 5
    ensures AnnotatedTx().Table? && |AnnotatedTx().fields| == 5
    ensures Kid(AnnotatedTx(), k) == AnnotatedTx().fields[k] && Typed(AnnotatedTx().fields[k], v.vals[k])
    ensures |Encode(AnnotatedTx().fields[k], v.vals[k])| <= |Encode(AnnotatedTx(), v)|
  {
    KidSmall(AnnotatedTx(), v, k);
    TxFields();
    hide AnnotatedTx, Encode, Typed;
  }

  /** The last two parts of five fit behind the header. */
  lemma {:induction false} LastTwo(p: seq<seq<u8>>)
    requires |p| == 5
    ensures |WordBytes(HeadWords(p)) + Join(p)| >= 24 + |p[3]| + |p[4]|
  {
    JoinUpTo(p, 3);
    JoinUpTo(p, 4);
  }

  lemma {:induction false} TxLength(v: Val)
    requires Typed(AnnotatedTx(), v) && TxShape(v) && v.vals[3].vals[3].vals != []
    ensures |Encode(AnnotatedTx(), v)| >= 72 + |Encode(WitnessVec(), v.vals[4])|
  {
    TxParts(v);
    RawLength(v.vals[3]);
    hide *;
    LastTwo(Parts(AnnotatedTx(), v.vals, 0));
  }

  lemma {:induction false} TxParts(v: Val)
    requires Typed(AnnotatedTx(), v) && TxShape(v)
    ensures var s := AnnotatedTx();
            && s.Table? && |s.fields| == |v.vals| && (forall i | 0 <= i < |v.vals| :: Typed(Kid(s, i), v.vals[i]))
            && |Parts(s, v.vals, 0)| == 5 && Encode(s, v) == WordBytes(HeadWords(Parts(s, v.vals, 0))) + Join(Parts(s, v.vals, 0))
            && Parts(s, v.vals, 0)[3] == Encode(AnnotatedRaw(), v.vals[3]) && Parts(s, v.vals, 0)[4] == Encode(WitnessVec(), v.vals[4])
  {
    hide *;
    TxPlain(v, 0);
    TxFields();
    PartOf(AnnotatedTx(), v, 3);
    PartOf(AnnotatedTx(), v, 4);
    TableForm(AnnotatedTx(), v);
  }

  lemma {:induction false} WitnessLength(v: Val, i: nat)
    requires Typed(WitnessVec(), v) && i < |v.vals|
    ensures v.vals[i].Blob? && Typed(Bytes(Witness), v.vals[i]) && |v.vals[i].bytes| + 4 <= |Encode(WitnessVec(), v)|
  {
    KidSmall(WitnessVec(), v, i);
  }

  /** The raw transaction and its framing leave room for a signature beside every witness. */
  lemma {:induction false} RoomForLock(v: Val)
    requires Typed(AnnotatedTx(), v) && |Encode(AnnotatedTx(), v)| < U32_SIZE && TxShape(v) && v.vals[3].vals[3].vals != []
    ensures Blobs(v.vals[4].vals)
  {
    TxLength(v);
    forall i | 0 <= i < |v.vals[4].vals|
      ensures var w := v.vals[4].vals[i]; w.Blob? && Typed(Bytes(Witness), w) && |w.bytes| + 69 < U32_SIZE
    {
      WitnessLength(v.vals[4], i);
    }
  }

  lemma {:induction false} RawLength(v: Val)
    requires Typed(AnnotatedRaw(), v) && RawShape(v) && v.vals[3].vals != []
    ensures |Encode(AnnotatedRaw(), v)| >= 48
  {
    FieldSmall(v, 3);
    InputsLength(v.vals[3]);
  }

  // ---------- Field by field ----------

  lemma {:induction false} FreshCalm()
    ensures Calm(FRESH)
  {
  }

  lemma {:induction false} PathSilent(t: Tag)
    requires t == SignPath || t == ChangePath
    ensures Silent(Bip32(t))
  {
    var item := Array(PathComponent, 4);
    assert Mute(HASHING, item);
    assert !Watched(HASHING, t);
    hide Watched;
  }

  lemma {:induction false} PathRun(H: Hash, d: Digest, t: Tag, v: Val)
    requires t == SignPath || t == ChangePath
    requires Typed(Bip32(t), v) && |Encode(Bip32(t), v)| < U32_SIZE && Calm(d)
    ensures Run(H, d, Replay(Bip32(t), v)) == d
  {
    VecsRegular(t);
    PathSilent(t);
    hide *;
    SilentRun(H, d, Bip32(t), v);
  }

  lemma {:induction false} CountRun(H: Hash, d: Digest, v: Val)
    requires Typed(Array(InputCount, 4), v)
    ensures Run(H, d, Replay(Array(InputCount, 4), v)) == d.(count := Unpack(v.bytes))
  {
    LeafRun(H, d, Array(InputCount, 4), v);
  }

  /** The digest when `k` fields have been read, up to the raw transaction. */
  function TxAt(H: Hash, v: Val, k: nat): Digest
    requires TxShape(v) && k <= 4
  {
    var d := FRESH.(count := Unpack(v.vals[2].bytes));
    if k <= 2 then FRESH else if k == 3 then d
    else Reset(Absorb(d, PlainBytes(H, v.vals[3]))).(txHash := H(PlainBytes(H, v.vals[3])))
  }

  lemma {:induction false} TxAtCalm(H: Hash, v: Val, k: nat)
    requires TxShape(v) && k <= 4
    ensures var d := TxAt(H, v, k); Calm(d) && !d.hardReject && !d.firstDone
    ensures k == 3 ==> TxAt(H, v, k).count == Unpack(v.vals[2].bytes) && TxAt(H, v, k).main == []
    ensures k == 4 ==> TxAt(H, v, k).txHash == H(PlainBytes(H, v.vals[3]))
  {
    FreshCalm();
    CalmLike(FRESH, TxAt(H, v, k)) by { hide Calm, PlainBytes; }
    hide Calm, PlainBytes;
  }

  lemma {:induction false} RawSmall(v: Val)
    requires Typed(AnnotatedTx(), v) && TxShape(v) && |Encode(AnnotatedTx(), v)| < U32_SIZE
    ensures |Encode(AnnotatedRaw(), v.vals[3])| < U32_SIZE
  {
    FieldFits(v, 3);
    TxFields();
    hide Typed, Encode;
  }

  lemma {:induction false} TxRawRun(H: Hash, v: Val, a: Val)
    requires IsHash(H) && Signable(v, a) && TxShape(v)
    ensures Run(H, TxAt(H, v, 3), Replay(AnnotatedRaw(), v.vals[3])) == TxAt(H, v, 4)
  {
    SignableIs(v, a);
    RawSmall(v);
    TxAtCalm(H, v, 3);
    TxAtFour(H, v);
    hide *;
    RawRun(H, TxAt(H, v, 3), v.vals[3]);
  }

  lemma {:induction false} TxAtFour(H: Hash, v: Val)
    requires TxShape(v)
    ensures var d := TxAt(H, v, 3);
            TxAt(H, v, 4) == Reset(Absorb(d, PlainBytes(H, v.vals[3]))).(txHash := H(d.main + PlainBytes(H, v.vals[3])))
    ensures TxAt(H, v, 3).flagged == false
  {
    var bytes := PlainBytes(H, v.vals[3]);
    assert [] + bytes == bytes;
    hide PlainBytes, TxShape, Unpack;
  }

  /** What signability says, part by part. */
  lemma {:induction false} SignableIs(v: Val, a: Val)
    requires Signable(v, a)
    ensures Typed(AnnotatedTx(), v) && |Encode(AnnotatedTx(), v)| < U32_SIZE && TxShape(v) && v.Items? && |v.vals| == 5
    ensures Typed(AnnotatedRaw(), v.vals[3]) && RawShape(v.vals[3]) && v.vals[2].Blob? && |v.vals[2].bytes| == 4
    ensures v.vals[3].Items? && |v.vals[3].vals| == 6 && v.vals[3].vals[3].Items?
    ensures v.vals[3].vals[3].vals != [] && |v.vals[3].vals[3].vals| == Unpack(v.vals[2].bytes)
  {
    TxShaped(v);
    hide AnnotatedTx, Encode, StandsFor, AnnotatedRaw, WitnessVec, Unpack;
  }

  lemma {:induction false} TxFieldRun(H: Hash, v: Val, a: Val, k: nat)
    requires IsHash(H) && Signable(v, a) && TxShape(v) && k < 4
    ensures |AnnotatedTx().fields| == 5 && Typed(AnnotatedTx().fields[k], v.vals[k])
    ensures Run(H, TxAt(H, v, k), Replay(AnnotatedTx().fields[k], v.vals[k])) == TxAt(H, v, k + 1)
  {
    hide *;
    SignableIs(v, a);
    FieldFits(v, k);
    TxFields();
    TxAtBy(H, v);
    if k == 3 {
      TxRawRun(H, v, a);
    } else if k == 2 {
      CountRun(H, FRESH, v.vals[2]);
    } else {
      FreshCalm();
      PathRun(H, FRESH, if k == 0 then SignPath else ChangePath, v.vals[k]);
    }
  }

  lemma {:induction false} TxAtBy(H: Hash, v: Val)
    requires TxShape(v)
    ensures TxAt(H, v, 0) == TxAt(H, v, 1) == TxAt(H, v, 2) == FRESH && TxAt(H, v, 3) == FRESH.(count := Unpack(v.vals[2].bytes))
  {
    hide Unpack, TxShape;
  }

  lemma {:induction false} TxPlain(v: Val, k: nat)
    requires Typed(AnnotatedTx(), v) && TxShape(v) && k < 5
    ensures var s := AnnotatedTx();
            && s.Table? && v.Items? && |v.vals| == |s.fields| == 5
            && (k < 4 ==> !s.fields[k + 1].Struct? && !s.fields[k + 1].Option? && s.fields[k + 1].tag != Input)
            && (forall i | k <= i < 5 :: Typed(s.fields[i], v.vals[i]))
            && (forall i | k <= i < 5 :: Typed(Kid(s, i), v.vals[i]))
  {
    TxFields();
    forall i | k <= i < 5 ensures Typed(AnnotatedTx().fields[i], v.vals[i]) && Typed(Kid(AnnotatedTx(), i), v.vals[i]) {
      hide *;
      FieldFits(v, i);
    }
    hide Typed, AnnotatedTx;
  }

  predicate WitnessesKnown(v: Val) {
    && v.Items? && |v.vals| == 5 && v.vals[4].Items? && |v.vals[4].vals| > 0
    && forall i | 0 <= i < |v.vals[4].vals| :: v.vals[4].vals[i].Blob?
  }

  /** All fields have been read. */
  ghost predicate Finished(H: Hash, v: Val, a: Val, r: Digest) {
    && TxShape(v) && WitnessesKnown(v) && ArgsShape(a)
    && r.txHash == H(PlainBytes(H, v.vals[3])) && !r.hardReject
    && r.final == H(Signed(r.txHash, v.vals[4].vals, a))
  }

  lemma {:induction false} TxKids(H: Hash, v: Val, a: Val, k: nat)
    requires IsHash(H) && Signable(v, a) && TxShape(v) && k <= 4
    requires forall i | k <= i < 5 :: Typed(Kid(AnnotatedTx(), i), v.vals[i])
    ensures Finished(H, v, a, Run(H, TxAt(H, v, k), ReplayKids(AnnotatedTx(), v.vals, k)))
    decreases 4 - k
  {
    if k < 4 {
      TxPlain(v, k);
      TxFieldRun(H, v, a, k);
      TxKids(H, v, a, k + 1);
      hide *;
      KidAbsorbed(H, TxAt(H, v, k), AnnotatedTx(), v.vals, k, TxAt(H, v, k + 1));
    } else {
      LastFacts(v, a);
      hide *;
      var d := TxAt(H, v, 4);
      TxAtCalm(H, v, 4);
      LastKid(H, d, AnnotatedTx(), v.vals, 4);
      WitnessesRun(H, d, v.vals[4], a);
      TxDone(H, v, a, Run(H, d, Replay(WitnessVec(), v.vals[4])));
    }
  }

  lemma {:induction false} TxDone(H: Hash, v: Val, a: Val, r: Digest)
    requires TxShape(v) && WitnessesKnown(v) && ArgsShape(a)
    requires r.txHash == H(PlainBytes(H, v.vals[3])) && !r.hardReject && r.final == H(Signed(r.txHash, v.vals[4].vals, a))
    ensures Finished(H, v, a, r)
  {
    hide TxShape, WitnessesKnown, ArgsShape, PlainBytes, Signed;
  }

  lemma {:induction false} LastFacts(v: Val, a: Val)
    requires Signable(v, a)
    ensures var s := AnnotatedTx();
            && s.Table? && Typed(s, v) && |Encode(s, v)| < U32_SIZE && TxShape(v) && v.Items?
            && Typed(AnnotatedRaw(), v.vals[3]) && |v.vals| == |s.fields| == 5 && RawShape(v.vals[3]) && ArgsShape(a)
            && s.fields[4] == WitnessVec() && Typed(WitnessVec(), v.vals[4]) && Typed(Kid(s, 4), v.vals[4])
            && v.vals[4].Items? && v.vals[4].vals != [] && Blobs(v.vals[4].vals) && WitnessesKnown(v)
            && v.vals[4].vals[0].Blob? && StandsFor(v.vals[4].vals[0].bytes, a)
  {
    TxShaped(v);
    RoomForLock(v);
    FieldFits(v, 4);
    TxFields();
    hide AnnotatedTx, Typed, Encode, WitnessVec;
  }

  lemma {:induction false} LastKid(H: Hash, d: Digest, s: Schema, vals: seq<Val>, k: nat)
    requires s.Table? && k + 1 == |vals| == |s.fields| && Typed(s.fields[k], vals[k]) && Typed(Kid(s, k), vals[k])
    ensures Run(H, d, ReplayKids(s, vals, k)) == Run(H, d, Replay(s.fields[k], vals[k]))
  {
    KidAbsorbed(H, d, s, vals, k, Run(H, d, Replay(s.fields[k], vals[k])));
  }

  // ---------- The theorem ----------

  lemma {:induction false} TxForm(v: Val)
    requires Typed(AnnotatedTx(), v) && TxShape(v)
    ensures Within(AnnotatedTx(), v) == [Start(SignPath), Offsets(Quiet, Kept(AnnotatedTx(), v))] + ReplayKids(AnnotatedTx(), v.vals, 0)
  {
    TxFields();
    assert InitEv(AnnotatedTx().fields[0]) == [Start(SignPath)];
    assert EnterEv(AnnotatedTx(), Kept(AnnotatedTx(), v), 5) == [Start(SignPath), Offsets(Quiet, Kept(AnnotatedTx(), v))];
  }

  lemma {:induction false} TxRun(H: Hash, v: Val)
    requires Typed(AnnotatedTx(), v) && TxShape(v)
    requires forall i | 0 <= i < 5 :: Typed(Kid(AnnotatedTx(), i), v.vals[i])
    ensures Run(H, FRESH, Replay(AnnotatedTx(), v)) == Run(H, FRESH, ReplayKids(AnnotatedTx(), v.vals, 0))
  {
    TxFields();
    assert !AnnotatedTx().IsLeaf() && !AnnotatedTx().Bytes? by { hide AnnotatedTx; }
    hide *;
    var r := Run(H, FRESH, ReplayKids(AnnotatedTx(), v.vals, 0));
    TxForm(v);
    UnseenStart(Kept(AnnotatedTx(), v));
    QuietEnd(H, r);
    UnseenRun(H, FRESH, Start(SignPath), Offsets(Quiet, Kept(AnnotatedTx(), v)));
    RunPlus(H, FRESH, [Start(SignPath), Offsets(Quiet, Kept(AnnotatedTx(), v))], ReplayKids(AnnotatedTx(), v.vals, 0));
    RunEnd(H, FRESH, AnnotatedTx(), v, r);
  }

  lemma {:induction false} UnseenStart(ws: seq<u32>)
    ensures Unseen(Start(SignPath)) && Unseen(Offsets(Quiet, ws)) && Quiet !in HASHING.chunk
  {
  }

  lemma {:induction false} QuietEnd(H: Hash, d: Digest)
    ensures OnEnd(H, d, Quiet) == d
  {
  }

  lemma {:induction false} DigestKnown(H: Hash, v: Val, a: Val)
    requires IsHash(H) && Signable(v, a)
    ensures TxShape(v) && RawShape(v.vals[3]) && Typed(RawTransaction(), PlainRaw(H, v.vals[3])) && WitnessesKnown(v)
    ensures ArgsShape(a) && Typed(WitnessArgs(), Blanked(a))
  {
    LastFacts(v, a);
    hide *;
    RawSmall(v);
    PlainEncode(H, v.vals[3]);
    BlankShape(a);
    ArgsShaped(Blanked(a));
  }

  /** The transaction hash is that of the plain transaction, and the digest to be signed is the
      hash of the transaction hash, of the arguments with a blank lock, and of the other witnesses,
      each behind its length. */
  ghost predicate Digested(H: Hash, v: Val, a: Val, d: Digest)
    requires IsHash(H) && Signable(v, a)
  {
    DigestKnown(H, v, a);
    && d.txHash == H(Encode(RawTransaction(), PlainRaw(H, v.vals[3])))
    && d.final == H(d.txHash + Lengthened(Encode(WitnessArgs(), Blanked(a))) + Later(v.vals[4].vals, 1))
    && !d.hardReject
  }

  lemma {:induction false} MessageRun(H: Hash, v: Val, a: Val)
    requires IsHash(H) && Signable(v, a)
    ensures Digested(H, v, a, Run(H, FRESH, Replay(AnnotatedTx(), v)))
  {
    TxShaped(v);
    TxPlain(v, 0);
    TxKids(H, v, a, 0);
    TxRun(H, v);
    RawSmall(v);
    PlainEncode(H, v.vals[3]);
  }

  /** However an annotated transaction arrives, unless a multisig input is signed, the digest signed is
      that of the plain transaction and its witnesses. */
  lemma {:induction false} SignedWhole(H: Hash, v: Val, a: Val, multisig: bool, chunks: seq<seq<u8>>)
    requires IsHash(H) && Signable(v, a) && chunks != [] && Join(chunks) == Encode(AnnotatedTx(), v)
    ensures var r := Feed(AnnotatedTx(), NUM_MAX, Init(AnnotatedTx()), chunks);
            r.rv == COMPLETE && (!multisig ==> Digested(H, v, a, Run(H, FRESH.(multisig := multisig), r.ev)))
  {
    assert FRESH.(multisig := false) == FRESH;
    MessagesRegular();
    FeedTrip(AnnotatedTx(), NUM_MAX, v, chunks);
    var r := Feed(AnnotatedTx(), NUM_MAX, Init(AnnotatedTx()), chunks);
    MessageAnti();
    FreshCalm();
    MessageRun(H, v, a);
    hide *;
    RunView(H, FRESH, r.ev);
    RunView(H, FRESH, Replay(AnnotatedTx(), v));
  }
}
